/** The GPS LNAV UTC-parameter record: the terms that relate GPS time to
    UTC, when the record becomes usable, and which conversions it offers. */
module GpsLNavTimeOffset {
  import opened Wrappers

  /** The time systems a conversion can name. */
  datatype TimeSystem = Unknown | GPS | GLO | QZS | UTC

  /** Seconds that pass between the start of a message's transmission and
      the moment the user equipment has received all of it. */
  const TransmitDuration: real := 6.0

  /** The terms of IS-GPS-200 section 20.3.3.5.2.4 that enter the offset. */
  datatype UtcTerms = UtcTerms(deltatLS: real, a0: real, a1: real, tot: real, wnt: nat)

  /** How the offset is computed from the terms, the direction and the time
      being converted.  The arithmetic is supplied by the caller. */
  type OffsetFormula = (UtcTerms, TimeSystem, TimeSystem, real) -> real

  /** The record.  Times are seconds on one continuous time line;
      `timeStamp` is the transmit time. */
  datatype GPSLNavTimeOffset = GPSLNavTimeOffset(
    timeStamp: real,
    deltatLS: real, a0: real, a1: real, tot: real, wnt: nat,
    wnLSF: nat, dn: nat, deltatLSF: real)
  {
    /** `getUserTime()`: the transmit time plus the time the message takes to arrive. */
    function UserTime(): (t: real)
      ensures t == timeStamp + TransmitDuration
      ensures t >= timeStamp  // a corollary of the clause above
    {
      timeStamp + TransmitDuration
    }

    /** The terms that take part in the offset: neither the leap-second
        schedule (`wnLSF`, `dn`, `deltatLSF`) nor the time stamp. */
    function Terms(): UtcTerms {
      UtcTerms(deltatLS, a0, a1, tot, wnt)
    }

    /** `getConversions()`: GPS to UTC and back. */
    function Conversions(): (cvt: set<(TimeSystem, TimeSystem)>)
      ensures forall c :: c in cvt ==> c.0 != c.1
      ensures forall f, t :: (f, t) in cvt <==> (t, f) in cvt
    {
      {(TimeSystem.GPS, TimeSystem.UTC), (TimeSystem.UTC, TimeSystem.GPS)}
    }

    /** `getOffset(fromSys, toSys, when, offset)`: an offset exists exactly
        for the conversions the record offers, and then it is the formula
        applied to the record's terms. */
    function GetOffset(fromSys: TimeSystem, toSys: TimeSystem, when: real, formula: OffsetFormula): (r: Option<real>)
      ensures r.Some? <==> (fromSys, toSys) in Conversions()
      ensures r.Some? ==> r.value == formula(Terms(), fromSys, toSys, when)
    {
      if (fromSys, toSys) in Conversions() then Some(formula(Terms(), fromSys, toSys, when)) else None
    }
  }

  /** The default constructor: every data field 0. */
  function Default(): (r: GPSLNavTimeOffset)
    ensures r.Terms() == UtcTerms(0.0, 0.0, 0.0, 0.0, 0)
    ensures r.wnLSF == 0 && r.dn == 0 && r.deltatLSF == 0.0
    ensures r.timeStamp == 0.0
  {
    GPSLNavTimeOffset(0.0, 0.0, 0.0, 0.0, 0.0, 0, 0, 0, 0.0)
  }

  /** Shifting the transmit time shifts the user time by the same amount. */
  lemma UserTimeFollowsTimeStamp(r: GPSLNavTimeOffset, shift: real)
    ensures r.(timeStamp := r.timeStamp + shift).UserTime() == r.UserTime() + shift
  {
  }

  /** Two records with the same offset terms give the same answer for every
      conversion, time and formula, whatever their leap-second schedule
      and time stamp. */
  lemma OffsetDependsOnlyOnTerms(r1: GPSLNavTimeOffset, r2: GPSLNavTimeOffset)
    requires r1.Terms() == r2.Terms()
    ensures forall f, t, w, formula :: r1.GetOffset(f, t, w, formula) == r2.GetOffset(f, t, w, formula)
  {
  }

  /** The record converts GPS time to UTC and back, and nothing else. */
  lemma ConversionsAreGpsUtc(r: GPSLNavTimeOffset, fromSys: TimeSystem, toSys: TimeSystem, when: real, formula: OffsetFormula)
    ensures r.GetOffset(fromSys, toSys, when, formula).Some? <==>
            (fromSys == TimeSystem.GPS && toSys == TimeSystem.UTC) || (fromSys == TimeSystem.UTC && toSys == TimeSystem.GPS)
  {
  }
}
