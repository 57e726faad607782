/** The GLONASS FDMA satellite type carried in Word M of the navigation
    message, and the iteration over its enumerators. */
module GloFNavSatTypes {
  import opened Wrappers

  /** `Last` is a sentinel that bounds iteration, not a satellite type. */
  datatype GLOFNavSatType = Unknown | GLONASS | GLONASS_M | Last

  /** The underlying enum value: -1, 0, 1, and `Last` one past GLONASS_M. */
  function Code(t: GLOFNavSatType): (c: int)
    ensures -1 <= c <= 2
    ensures t == Last <==> c == 2
  {
    match t
    case Unknown => -1
    case GLONASS => 0
    case GLONASS_M => 1
    case Last => 2
  }

  /** The enumerator with underlying value `c`; Word M 0 is a legacy
      GLONASS satellite and 1 a GLONASS-M. */
  function OfCode(c: int): (r: Option<GLOFNavSatType>)
    ensures r.Some? <==> Code(Unknown) <= c <= Code(Last)
    ensures r.Some? ==> Code(r.value) == c
  {
    if c == -1 then Some(Unknown)
    else if c == 0 then Some(GLONASS)
    else if c == 1 then Some(GLONASS_M)
    else if c == 2 then Some(Last)
    else None
  }

  lemma CodeRoundTrip(t: GLOFNavSatType)
    ensures OfCode(Code(t)) == Some(t)
  {
  }

  /** `Last` immediately follows GLONASS_M, and the codes increase in
      declaration order. */
  lemma LastFollowsGlonassM()
    ensures Code(Last) == Code(GLONASS_M) + 1
    ensures Code(Unknown) < Code(GLONASS) < Code(GLONASS_M) < Code(Last)
  {
  }

  /** What an `EnumIterator` from `first` to `last` visits: every value
      from `first` up to, but not including, `last`, in increasing order. */
  function EnumRange(first: int, last: int): (r: seq<GLOFNavSatType>)
    requires Code(Unknown) <= first <= last <= Code(Last)
    decreases last - first
    ensures |r| == last - first
    ensures forall i :: 0 <= i < |r| ==> Code(r[i]) == first + i
  {
    if first == last then [] else [OfCode(first).value] + EnumRange(first + 1, last)
  }

  /** `GLOFNavSatTypeIterator`: from `Unknown` to the `Last` sentinel. */
  function Iterator(): (r: seq<GLOFNavSatType>)
    ensures r == [Unknown, GLONASS, GLONASS_M]
  {
    var it := EnumRange(Code(Unknown), Code(Last));
    assert Code(it[0]) == -1 && Code(it[1]) == 0 && Code(it[2]) == 1;
    CodeRoundTrip(it[0]);
    CodeRoundTrip(it[1]);
    CodeRoundTrip(it[2]);
    it
  }

  /** The iterator visits Unknown, GLONASS, GLONASS_M in increasing code
      order, stops before `Last`, and visits every other enumerator. */
  lemma IteratorVisitsEveryType()
    ensures forall i, j :: 0 <= i < j < |Iterator()| ==> Code(Iterator()[i]) < Code(Iterator()[j])
    ensures forall t :: t in Iterator() <==> t != Last
  {
  }
}
