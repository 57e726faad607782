/**
  The navigation-data store as a caller of the library sees it: a
  collection of decoded messages, each filed under the identity it
  describes, its message type and its transmit time.  The store can be
  emptied, edited by time span (for all satellites, one satellite or one
  signal), counted, and searched for the most recent message a user could
  have received by a given time.
*/
module NavStore {
  import opened Wrappers
  import opened SatIdentity
  import NMT = NavMessageTypes
  import TO = GpsLNavTimeOffset

  datatype SVHealth = Unknown | Healthy | Unhealthy | Degraded

  /** The decoded contents of a message, by category.  Only what the model
      needs is kept: the ephemeris issue, the health, the UTC record. */
  datatype Payload =
    | EphemerisData(iode: int)
    | AlmanacData
    | HealthData(health: SVHealth)
    | ClockData
    | TimeOffsetData(record: TO.GPSLNavTimeOffset)

  function MessageType(p: Payload): (t: NMT.NavMessageType)
    ensures NMT.IsEnumerator(t) && t != NMT.Unknown
  {
    match p
    case EphemerisData(_) => NMT.Ephemeris
    case AlmanacData => NMT.Almanac
    case HealthData(_) => NMT.Health
    case ClockData => NMT.Clock
    case TimeOffsetData(_) => NMT.TimeOffset
  }

  /** One stored message: its identity, when transmission began, when the
      user had all of it, and what it says. */
  datatype Entry = Entry(id: NavSatelliteID, xmitTime: real, userTime: real, payload: Payload)

  /** A stored message has a wildcard-free identity, becomes usable no
      earlier than it was sent, and a UTC record's times are its own. */
  predicate WellFormed(e: Entry) {
    && Concrete(e.id)
    && e.xmitTime <= e.userTime
    && (e.payload.TimeOffsetData? ==>
          e.xmitTime == e.payload.record.timeStamp && e.userTime == e.payload.record.UserTime())
  }

  /** A `NavMessageID`: an identity (possibly with wildcards) and a category. */
  datatype NavMessageID = NavMessageID(id: NavSatelliteID, messageType: NMT.NavMessageType)

  // ---------------------------------------------------------------------
  // Editing
  // ---------------------------------------------------------------------

  /** Which entries an edit applies to: all, one satellite, or one signal. */
  datatype Selector = All | BySat(sat: NavSatelliteID) | BySignal(signal: NavSignalID)

  predicate Selects(sel: Selector, e: Entry) {
    match sel
    case All => true
    case BySat(sat) => Matches(sat, e.id)
    case BySignal(signal) => SignalMatches(signal, e.id.Signal())
  }

  /** An edit removes the selected entries transmitted in [fromTime, toTime). */
  predicate Removes(fromTime: real, toTime: real, sel: Selector, e: Entry) {
    fromTime <= e.xmitTime < toTime && Selects(sel, e)
  }

  /** The entries an edit keeps, in their original order. */
  function Kept(es: seq<Entry>, fromTime: real, toTime: real, sel: Selector): seq<Entry> {
    if es == [] then []
    else
      var last := es[|es| - 1];
      Kept(es[..|es| - 1], fromTime, toTime, sel) + (if Removes(fromTime, toTime, sel, last) then [] else [last])
  }

  /** An edit keeps exactly the entries it does not remove, and never makes
      the store larger. */
  lemma {:induction false} KeptIsFilter(es: seq<Entry>, fromTime: real, toTime: real, sel: Selector)
    ensures |Kept(es, fromTime, toTime, sel)| <= |es|
    ensures forall x :: x in Kept(es, fromTime, toTime, sel) <==> x in es && !Removes(fromTime, toTime, sel, x)
  {
    if es != [] {
      var init := es[..|es| - 1];
      KeptIsFilter(init, fromTime, toTime, sel);
      assert es == init + [es[|es| - 1]];
    }
  }

  /** An edit that selects fewer entries keeps at least as many, and keeps
      everything the wider edit keeps. */
  lemma {:induction false} NarrowerEditKeepsMore(es: seq<Entry>, fromTime: real, toTime: real, narrow: Selector, wide: Selector)
    requires forall e :: Selects(narrow, e) ==> Selects(wide, e)
    ensures |Kept(es, fromTime, toTime, wide)| <= |Kept(es, fromTime, toTime, narrow)|
    ensures forall x :: x in Kept(es, fromTime, toTime, wide) ==> x in Kept(es, fromTime, toTime, narrow)
  {
    KeptIsFilter(es, fromTime, toTime, narrow);
    KeptIsFilter(es, fromTime, toTime, wide);
    if es != [] {
      NarrowerEditKeepsMore(es[..|es| - 1], fromTime, toTime, narrow, wide);
    }
  }

  /** Editing one satellite removes a subset of what the unrestricted edit
      removes. */
  lemma SatEditRemovesLess(es: seq<Entry>, fromTime: real, toTime: real, sat: NavSatelliteID)
    ensures |Kept(es, fromTime, toTime, All)| <= |Kept(es, fromTime, toTime, BySat(sat))| <= |es|
    ensures forall x :: x in Kept(es, fromTime, toTime, All) ==> x in Kept(es, fromTime, toTime, BySat(sat))
  {
    NarrowerEditKeepsMore(es, fromTime, toTime, BySat(sat), All);
    KeptIsFilter(es, fromTime, toTime, BySat(sat));
  }

  /** Editing a signal that no entry carries removes nothing. */
  lemma {:induction false} UnusedSignalEditKeepsAll(es: seq<Entry>, fromTime: real, toTime: real, signal: NavSignalID)
    requires forall i | 0 <= i < |es| :: !SignalMatches(signal, es[i].id.Signal())
    ensures Kept(es, fromTime, toTime, BySignal(signal)) == es
  {
    if es != [] {
      UnusedSignalEditKeepsAll(es[..|es| - 1], fromTime, toTime, signal);
      assert es == es[..|es| - 1] + [es[|es| - 1]];
    }
  }

  /** Editing a signal that every entry carries is the unrestricted edit. */
  lemma {:induction false} CommonSignalEditIsFullEdit(es: seq<Entry>, fromTime: real, toTime: real, signal: NavSignalID)
    requires forall i | 0 <= i < |es| :: SignalMatches(signal, es[i].id.Signal())
    ensures Kept(es, fromTime, toTime, BySignal(signal)) == Kept(es, fromTime, toTime, All)
  {
    if es != [] {
      CommonSignalEditIsFullEdit(es[..|es| - 1], fromTime, toTime, signal);
    }
  }

  /** Repeating an edit changes nothing. */
  lemma {:induction false} EditIsIdempotent(es: seq<Entry>, fromTime: real, toTime: real, sel: Selector)
    ensures Kept(Kept(es, fromTime, toTime, sel), fromTime, toTime, sel) == Kept(es, fromTime, toTime, sel)
  {
    if es != [] {
      var init := es[..|es| - 1];
      var last := es[|es| - 1];
      EditIsIdempotent(init, fromTime, toTime, sel);
      var k := Kept(init, fromTime, toTime, sel);
      assert Kept(k, fromTime, toTime, sel) == k;
      if !Removes(fromTime, toTime, sel, last) {
        var k' := k + [last];
        assert k'[..|k'| - 1] == k;
        assert Kept(k', fromTime, toTime, sel) == Kept(k, fromTime, toTime, sel) + [last];
      } else {
        assert Kept(es, fromTime, toTime, sel) == k + [];
        assert k + [] == k;
      }
    }
  }

  // ---------------------------------------------------------------------
  // Searching
  // ---------------------------------------------------------------------

  /** What a search looks for: a message of one category for an identity
      pattern, or a UTC record offering one conversion. */
  datatype Query = Message(nmid: NavMessageID) | Offset(fromSys: TO.TimeSystem, toSys: TO.TimeSystem)

  predicate Answers(q: Query, e: Entry) {
    match q
    case Message(nmid) => Matches(nmid.id, e.id) && MessageType(e.payload) == nmid.messageType
    case Offset(fromSys, toSys) => e.payload.TimeOffsetData? && (fromSys, toSys) in e.payload.record.Conversions()
  }

  /** An entry answers the query and the user had it by `when` (inclusive). */
  predicate Usable(e: Entry, q: Query, when: real) {
    Answers(q, e) && e.userTime <= when
  }

  /** `e` is a most recently transmitted usable answer among `es`. */
  ghost predicate IsLatest(es: seq<Entry>, q: Query, when: real, e: Entry) {
    && e in es
    && Usable(e, q, when)
    && forall i | 0 <= i < |es| && Usable(es[i], q, when) :: es[i].xmitTime <= e.xmitTime
  }

  /** Availability is gated on user time, inclusively: an answer becomes
      usable at its user time and stays usable afterwards. */
  lemma UsableFromUserTime(e: Entry, q: Query, when: real, later: real)
    requires Answers(q, e)
    ensures Usable(e, q, e.userTime)
    ensures when < e.userTime ==> !Usable(e, q, when)
    ensures Usable(e, q, when) && when <= later ==> Usable(e, q, later)
  {
  }

  /** The navigation library over one factory's store. */
  class NavLibrary {
    var entries: seq<Entry>

    ghost predicate Valid()
      reads this
    {
      forall i | 0 <= i < |entries| :: WellFormed(entries[i])
    }

    constructor ()
      ensures Valid() && entries == []
    {
      entries := [];
    }

    /** `ndf.size()`: the number of stored messages. */
    function Size(): (n: nat)
      reads this
      ensures n == 0 <==> entries == []
    {
      |entries|
    }

    /** What adding a data source contributes once its file is decoded. */
    method AddData(loaded: seq<Entry>)
      requires Valid()
      requires forall i | 0 <= i < |loaded| :: WellFormed(loaded[i])
      modifies this
      ensures Valid()
      ensures entries == old(entries) + loaded
      ensures Size() == old(Size()) + |loaded|
    {
      entries := entries + loaded;
    }

    /** `clear()`: the store is empty. */
    method Clear()
      requires Valid()
      modifies this
      ensures Valid()
      ensures entries == [] && Size() == 0
    {
      entries := [];
    }

    /** The one loop behind the three `edit` overloads. */
    method EditSelected(fromTime: real, toTime: real, sel: Selector)
      requires Valid()
      modifies this
      ensures Valid()
      ensures entries == Kept(old(entries), fromTime, toTime, sel)
      ensures Size() <= old(Size())
    {
      var kept: seq<Entry> := [];
      var i := 0;
      while i < |entries|
        invariant 0 <= i <= |entries|
        invariant kept == Kept(entries[..i], fromTime, toTime, sel)
      {
        assert entries[..i + 1][..i] == entries[..i];
        if !Removes(fromTime, toTime, sel, entries[i]) {
          kept := kept + [entries[i]];
        }
        i := i + 1;
      }
      assert entries[..i] == entries;
      KeptIsFilter(entries, fromTime, toTime, sel);
      forall j | 0 <= j < |kept|
        ensures WellFormed(kept[j])
      {
        assert kept[j] in entries;
      }
      entries := kept;
    }

    /** `edit(fromTime, toTime)`: removes every message transmitted in
        [fromTime, toTime). */
    method Edit(fromTime: real, toTime: real)
      requires Valid()
      modifies this
      ensures Valid()
      ensures entries == Kept(old(entries), fromTime, toTime, All)
    {
      EditSelected(fromTime, toTime, All);
    }

    /** `edit(fromTime, toTime, satID)`: only messages matching `sat`. */
    method EditSat(fromTime: real, toTime: real, sat: NavSatelliteID)
      requires Valid()
      modifies this
      ensures Valid()
      ensures entries == Kept(old(entries), fromTime, toTime, BySat(sat))
    {
      EditSelected(fromTime, toTime, BySat(sat));
    }

    /** `edit(fromTime, toTime, signal)`: only messages on `signal`. */
    method EditSignal(fromTime: real, toTime: real, signal: NavSignalID)
      requires Valid()
      modifies this
      ensures Valid()
      ensures entries == Kept(old(entries), fromTime, toTime, BySignal(signal))
    {
      EditSelected(fromTime, toTime, BySignal(signal));
    }

    /** The search behind `find`, `getHealth` and `getOffset`: the most
        recently transmitted entry that answers `q` and was available to
        the user at `when`; none if there is no such entry. */
    method Latest(q: Query, when: real) returns (r: Option<Entry>)
      ensures r.None? <==> forall i | 0 <= i < |entries| :: !Usable(entries[i], q, when)
      ensures r.Some? ==> IsLatest(entries, q, when, r.value)
    {
      r := None;
      var i := 0;
      while i < |entries|
        invariant 0 <= i <= |entries|
        invariant r.None? <==> forall k | 0 <= k < i :: !Usable(entries[k], q, when)
        invariant r.Some? ==> r.value in entries && Usable(r.value, q, when)
        invariant r.Some? ==> forall k | 0 <= k < i && Usable(entries[k], q, when) :: entries[k].xmitTime <= r.value.xmitTime
      {
        var e := entries[i];
        if Usable(e, q, when) && (r.None? || r.value.xmitTime < e.xmitTime) {
          r := Some(e);
        }
        i := i + 1;
      }
    }

    /** `find(nmid, when, SVHealth.Any, ..., User)`: the latest message of
        the requested category for a matching identity that the user had at
        `when`. */
    method Find(nmid: NavMessageID, when: real) returns (r: Option<Entry>)
      ensures r.None? <==> forall i | 0 <= i < |entries| :: !Usable(entries[i], Message(nmid), when)
      ensures r.Some? ==> IsLatest(entries, Message(nmid), when, r.value)
      // a corollary of IsLatest, spelled out: the category asked for, available by `when`
      ensures r.Some? ==> MessageType(r.value.payload) == nmid.messageType && r.value.userTime <= when
    {
      r := Latest(Message(nmid), when);
    }

    /** `getHealth(sat, when, SVHealth.Any)`: the health reported by the
        latest health message for `sat` available at `when`. */
    method GetHealth(sat: NavSatelliteID, when: real) returns (r: Option<SVHealth>)
      ensures r.None? <==> forall i | 0 <= i < |entries| :: !Usable(entries[i], Message(NavMessageID(sat, NMT.Health)), when)
      ensures r.Some? ==> exists e :: IsLatest(entries, Message(NavMessageID(sat, NMT.Health)), when, e) && e.payload == HealthData(r.value)
    {
      var found := Latest(Message(NavMessageID(sat, NMT.Health)), when);
      match found
      case None =>
        r := None;
      case Some(e) =>
        r := Some(e.payload.health);
    }

    /** `getOffset(fromSys, toSys, when)`: the latest UTC record offering
        the conversion that the user had at `when`, returned as stored. */
    method GetOffset(fromSys: TO.TimeSystem, toSys: TO.TimeSystem, when: real) returns (r: Option<TO.GPSLNavTimeOffset>)
      requires Valid()
      ensures r.None? <==> forall i | 0 <= i < |entries| :: !Usable(entries[i], Offset(fromSys, toSys), when)
      ensures r.Some? ==> exists e :: IsLatest(entries, Offset(fromSys, toSys), when, e) && e.payload == TimeOffsetData(r.value)
      ensures r.Some? ==> r.value.UserTime() <= when && (fromSys, toSys) in r.value.Conversions()
    {
      var found := Latest(Offset(fromSys, toSys), when);
      match found
      case None =>
        r := None;
      case Some(e) =>
        r := Some(e.payload.record);
    }
  }

  // ---------------------------------------------------------------------
  // The library tests, replayed on small stores.  Times are seconds of
  // 2015-07-19 GPS time unless a test uses its own epoch.
  // ---------------------------------------------------------------------

  function GpsLNav(prn: int): NavSatelliteID {
    FromIds(prn, prn, SatelliteSystem.GPS, CarrierBand.L1, TrackingCode.CA, NavType.GPSLNAV)
  }

  /** Health for PRN 10 is absent at 02:00:35 and 12:35:35 and present at
      12:35:36, the user time of a message transmitted at 12:35:30. */
  method HealthScenario() {
    var lib := new NavLibrary();
    var msg := Entry(GpsLNav(10), 45330.0, 45336.0, HealthData(SVHealth.Unhealthy));
    lib.AddData([msg]);
    assert lib.entries == [msg];
    var h := lib.GetHealth(GpsLNav(10), 7235.0);
    assert h.None?;
    h := lib.GetHealth(GpsLNav(10), 45335.0);
    assert h.None?;
    assert Usable(lib.entries[0], Message(NavMessageID(GpsLNav(10), NMT.Health)), 45336.0);
    h := lib.GetHealth(GpsLNav(10), 45336.0);
    assert h == Some(SVHealth.Unhealthy);
  }

  /** An ephemeris is found once available; an almanac for the same
      satellite and time is not, because none is stored. */
  method FindScenario() {
    var lib := new NavLibrary();
    var eph := Entry(GpsLNav(10), 45330.0, 45348.0, EphemerisData(64));
    lib.AddData([eph]);
    assert lib.entries == [eph];
    var r := lib.Find(NavMessageID(GpsLNav(10), NMT.Ephemeris), 7235.0);
    assert r.None?;
    assert Usable(lib.entries[0], Message(NavMessageID(GpsLNav(10), NMT.Ephemeris)), 45348.0);
    r := lib.Find(NavMessageID(GpsLNav(10), NMT.Ephemeris), 45348.0);
    assert r == Some(eph) && r.value.payload.iode == 64;
    r := lib.Find(NavMessageID(GpsLNav(10), NMT.Almanac), 45348.0);
    assert r.None?;
  }

  /** The UTC record is not found before its user time and is returned as
      stored afterwards. */
  method OffsetScenario() {
    var lib := new NavLibrary();
    var utc := TO.GPSLNavTimeOffset(1000.0, 13.0, 0.0, 0.0, 0.0, 0, 0, 0, 0.0);
    var msg := Entry(GpsLNav(1), 1000.0, 1006.0, TimeOffsetData(utc));
    lib.AddData([msg]);
    assert lib.entries == [msg];
    var r := lib.GetOffset(TO.TimeSystem.GPS, TO.TimeSystem.UTC, 500.0);
    assert r.None?;
    assert Usable(lib.entries[0], Offset(TO.TimeSystem.GPS, TO.TimeSystem.UTC), 2000.0);
    r := lib.GetOffset(TO.TimeSystem.GPS, TO.TimeSystem.UTC, 2000.0);
    assert r == Some(utc) && r.value.deltatLS == 13.0;
  }

  /** Clear empties the store; an edit of the early span removes the early
      messages of all satellites, of one satellite, or of one signal. */
  method EditClearScenario() {
    var early1 := Entry(GpsLNav(1), 100.0, 106.0, EphemerisData(1));
    var early2 := Entry(GpsLNav(2), 100.0, 106.0, EphemerisData(2));
    var late1 := Entry(GpsLNav(1), 500.0, 506.0, EphemerisData(3));
    var data := [early1, early2, late1];
    assert data[..2] == [early1, early2] && data[..2][..1] == [early1] && data[..2][..1][..0] == [];
    var lib := new NavLibrary();
    lib.AddData(data);
    assert lib.entries == data;
    assert lib.Size() == 3;
    lib.Clear();
    assert lib.Size() == 0;
    lib.AddData(data);
    assert lib.entries == data;
    assert Kept(data, 0.0, 200.0, All) == [late1] by {
      assert Kept(data[..2], 0.0, 200.0, All) == [] by {
        assert Kept(data[..2][..1], 0.0, 200.0, All) == [];
      }
    }
    lib.Edit(0.0, 200.0);
    assert lib.entries == [late1];
    lib.Clear();
    lib.AddData(data);
    assert lib.entries == data;
    assert !Selects(BySat(GpsLNav(1)), early2);
    assert Kept(data, 0.0, 200.0, BySat(GpsLNav(1))) == [early2, late1] by {
      assert Kept(data[..2], 0.0, 200.0, BySat(GpsLNav(1))) == [early2] by {
        assert Kept(data[..2][..1], 0.0, 200.0, BySat(GpsLNav(1))) == [];
      }
    }
    lib.EditSat(0.0, 200.0, GpsLNav(1));
    assert lib.entries == [early2, late1];
    lib.Clear();
    lib.AddData(data);
    assert lib.entries == data;
    var y := NavSignalID(SatelliteSystem.GPS, CarrierBand.L1, TrackingCode.Y, NavType.GPSLNAV);
    UnusedSignalEditKeepsAll(data, 0.0, 200.0, y);
    lib.EditSignal(0.0, 200.0, y);
    assert lib.Size() == 3;
    var ca := NavSignalID(SatelliteSystem.GPS, CarrierBand.L1, TrackingCode.CA, NavType.GPSLNAV);
    CommonSignalEditIsFullEdit(data, 0.0, 200.0, ca);
    lib.EditSignal(0.0, 200.0, ca);
    assert lib.entries == [late1];
  }
}
