/** Names of the navigation message categories, and the conversions
    between a category and its printable name. */
module NavMessageTypes {

  /** The six message categories.  `Unlisted` stands for any other value
      an enum variable of this type can hold (a sentinel or a cast integer). */
  datatype NavMessageType = Unknown | Almanac | Ephemeris | TimeOffset | Health | Clock | Unlisted(code: int)

  predicate IsEnumerator(e: NavMessageType) {
    !e.Unlisted?
  }

  /** The six printable names, one per enumerator. */
  const Names: seq<string> := ["Unknown", "Almanac", "Ephemeris", "TimeOffset", "Health", "Clock"]

  /** What `asString` prints for a value that is not an enumerator. */
  const Unprintable: string := "???"

  /** `asString(NavMessageType)`: total, never fails; the six enumerators
      get six names and everything else prints as "???". */
  function AsString(e: NavMessageType): (s: string)
    ensures s in Names <==> IsEnumerator(e)
    ensures !IsEnumerator(e) ==> s == Unprintable
  {
    match e
    case Unknown => "Unknown"
    case Almanac => "Almanac"
    case Ephemeris => "Ephemeris"
    case TimeOffset => "TimeOffset"
    case Health => "Health"
    case Clock => "Clock"
    case Unlisted(_) => "???"
  }

  /** `asNavMessageType(string)`: total, never fails; exact names map to
      their enumerator and every other string (any case variant, "???")
      falls back to `Unknown`. */
  function AsNavMessageType(s: string): (e: NavMessageType)
    ensures IsEnumerator(e)
    ensures s !in Names ==> e == Unknown
  {
    if s == "Unknown" then Unknown
    else if s == "Almanac" then Almanac
    else if s == "Ephemeris" then Ephemeris
    else if s == "TimeOffset" then TimeOffset
    else if s == "Health" then Health
    else if s == "Clock" then Clock
    else Unknown
  }

  /** Printing an enumerator and parsing the result gives it back. */
  lemma EnumeratorRoundTrip(e: NavMessageType)
    requires IsEnumerator(e)
    ensures AsNavMessageType(AsString(e)) == e
  {
  }

  /** Parsing one of the six names and printing the result gives it back. */
  lemma NameRoundTrip(s: string)
    requires s in Names
    ensures AsString(AsNavMessageType(s)) == s
  {
  }

  /** The six enumerators have six distinct names. */
  lemma {:induction false} NamesAreDistinct(e1: NavMessageType, e2: NavMessageType)
    requires IsEnumerator(e1) && IsEnumerator(e2)
    ensures AsString(e1) == AsString(e2) <==> e1 == e2
  {
    EnumeratorRoundTrip(e1);
    EnumeratorRoundTrip(e2);
  }

  /** A non-enumerator's "???" does not round-trip: it parses as `Unknown`. */
  lemma UnlistedParsesAsUnknown(e: NavMessageType)
    requires !IsEnumerator(e)
    ensures AsNavMessageType(AsString(e)) == Unknown
  {
  }
}
