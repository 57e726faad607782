/**
  The identity of a navigation message: which satellite it describes
  (`sat`), which satellite broadcast it (`xmitSat`), and the signal it
  came on (`system`, `carrier`, `code`, `nav`).  Every part may be a
  wildcard, so one value serves both as a stored key (no wildcards) and
  as a query pattern.  Equality (`Matches`) is wildcard-aware and the
  ordering (`Less`) skips any field where either side is a wildcard.
*/
module SatIdentity {

  // ---------------------------------------------------------------------
  // Enumerations.  Only the enumerators the identity tests use are
  // listed; their relative order is the order of declaration.
  // ---------------------------------------------------------------------

  datatype SatelliteSystem = Unknown | GPS | Transit | QZSS

  /** `Any` is the wildcard band. */
  datatype CarrierBand = Unknown | Any | L1 | L2 | L5

  /** `Any` is the wildcard ranging code. */
  datatype TrackingCode = Unknown | Any | CA | Y

  /** `Any` is the wildcard message format. */
  datatype NavType = Unknown | Any | GPSLNAV | GPSCNAV2 | GPSMNAV

  datatype ObservationType = Unknown | NavMsg

  /** The observation part of an `ObsID` that an identity takes its band and code from. */
  datatype ObsID = ObsID(obsType: ObservationType, band: CarrierBand, code: TrackingCode)

  /** The message-format part of a `NavID`. */
  datatype NavID = NavID(navType: NavType)

  function SystemRank(s: SatelliteSystem): nat {
    match s
    case Unknown => 0
    case GPS => 1
    case Transit => 2
    case QZSS => 3
  }

  function CarrierRank(c: CarrierBand): nat {
    match c
    case Unknown => 0
    case Any => 1
    case L1 => 2
    case L2 => 3
    case L5 => 4
  }

  function CodeRank(c: TrackingCode): nat {
    match c
    case Unknown => 0
    case Any => 1
    case CA => 2
    case Y => 3
  }

  function NavRank(n: NavType): nat {
    match n
    case Unknown => 0
    case Any => 1
    case GPSLNAV => 2
    case GPSCNAV2 => 3
    case GPSMNAV => 4
  }

  // ---------------------------------------------------------------------
  // Three-way comparison and its lexicographic combination
  // ---------------------------------------------------------------------

  datatype Ordering = Lt | Eq | Gt {
    function Flip(): Ordering {
      match this
      case Lt => Gt
      case Eq => Eq
      case Gt => Lt
    }
  }

  function CompareInt(a: int, b: int): Ordering {
    if a < b then Lt else if b < a then Gt else Eq
  }

  /** Lexicographic step: `next` decides only when `first` is a tie. */
  function Then(first: Ordering, next: Ordering): Ordering {
    if first == Eq then next else first
  }

  // ---------------------------------------------------------------------
  // SatID
  // ---------------------------------------------------------------------

  /** A satellite: a numeric id within a system, either of which may be
      a wildcard.  `extraMask` is carried but takes no part in comparisons. */
  datatype SatID = SatID(id: int, system: SatelliteSystem, wildId: bool, wildSys: bool, extraMask: int)

  /** `SatID(id, system)`: one concrete satellite. */
  function Sat(id: int, system: SatelliteSystem): SatID {
    SatID(id, system, false, false, 0)
  }

  /** `SatID(id)`: satellite `id` of any system (wildcard system). */
  function AnySystem(id: int): SatID {
    SatID(id, SatelliteSystem.Unknown, false, true, 0)
  }

  /** `SatID(system)`: any satellite of `system` (wildcard id). */
  function AnyId(system: SatelliteSystem): SatID {
    SatID(0, system, true, false, 0)
  }

  /** The fully wildcarded satellite: "transmitter unspecified". */
  const AnySat: SatID := SatID(0, SatelliteSystem.Unknown, true, true, 0)

  /** `SatID::operator==`: each part matches when either side is wild or both agree. */
  predicate SatMatches(a: SatID, b: SatID): (r: bool)
    // two concrete satellites are equal exactly when id and system agree; the extra mask is ignored
    ensures !a.wildId && !a.wildSys && !b.wildId && !b.wildSys ==> (r <==> a.(extraMask := 0) == b.(extraMask := 0))
    // the fully wild satellite equals every satellite
    ensures a.wildId && a.wildSys ==> r
  {
    && (a.wildId || b.wildId || a.id == b.id)
    && (a.wildSys || b.wildSys || a.system == b.system)
  }

  /** Id first, then system; a part where either side is wild is a tie. */
  function CompareSat(a: SatID, b: SatID): Ordering {
    Then(if a.wildId || b.wildId then Eq else CompareInt(a.id, b.id),
         if a.wildSys || b.wildSys then Eq else CompareInt(SystemRank(a.system), SystemRank(b.system)))
  }

  // ---------------------------------------------------------------------
  // NavSignalID and NavSatelliteID
  // ---------------------------------------------------------------------

  datatype NavSignalID = NavSignalID(system: SatelliteSystem, carrier: CarrierBand, code: TrackingCode, nav: NavType)

  datatype NavSatelliteID = NavSatelliteID(sat: SatID, xmitSat: SatID, system: SatelliteSystem,
                                           carrier: CarrierBand, code: TrackingCode, nav: NavType)
  {
    /** The signal part of the identity. */
    function Signal(): NavSignalID {
      NavSignalID(system, carrier, code, nav)
    }
  }

  /** The signal parts match: same system, and band, code and format each
      equal or `Any` on one side. */
  predicate SignalMatches(a: NavSignalID, b: NavSignalID) {
    && a.system == b.system
    && (a.carrier == CarrierBand.Any || b.carrier == CarrierBand.Any || a.carrier == b.carrier)
    && (a.code == TrackingCode.Any || b.code == TrackingCode.Any || a.code == b.code)
    && (a.nav == NavType.Any || b.nav == NavType.Any || a.nav == b.nav)
  }

  /** `NavSatelliteID::operator==`: every part matches. */
  predicate Matches(a: NavSatelliteID, b: NavSatelliteID): (r: bool)
    // between stored keys, equality is plain equality of every compared field
    ensures Concrete(a) && Concrete(b) ==> (r <==> Key(a) == Key(b))
    // the system is never a wildcard
    ensures r ==> a.system == b.system
  {
    SatMatches(a.sat, b.sat) && SatMatches(a.xmitSat, b.xmitSat) && SignalMatches(a.Signal(), b.Signal())
  }

  /** `operator!=` read field by field: some part has two concrete,
      different values, which is exactly the negation of `Matches`. */
  predicate Differs(a: NavSatelliteID, b: NavSatelliteID): (r: bool)
    ensures r <==> !Matches(a, b)
  {
    assert Matches(a, b) <==> SatMatches(a.sat, b.sat) && SatMatches(a.xmitSat, b.xmitSat) && SignalMatches(a.Signal(), b.Signal());
    || (!a.sat.wildId && !b.sat.wildId && a.sat.id != b.sat.id)
    || (!a.sat.wildSys && !b.sat.wildSys && a.sat.system != b.sat.system)
    || (!a.xmitSat.wildId && !b.xmitSat.wildId && a.xmitSat.id != b.xmitSat.id)
    || (!a.xmitSat.wildSys && !b.xmitSat.wildSys && a.xmitSat.system != b.xmitSat.system)
    || a.system != b.system
    || (a.carrier != CarrierBand.Any && b.carrier != CarrierBand.Any && a.carrier != b.carrier)
    || (a.code != TrackingCode.Any && b.code != TrackingCode.Any && a.code != b.code)
    || (a.nav != NavType.Any && b.nav != NavType.Any && a.nav != b.nav)
  }

  function CompareCarrier(a: CarrierBand, b: CarrierBand): Ordering {
    if a == CarrierBand.Any || b == CarrierBand.Any then Eq else CompareInt(CarrierRank(a), CarrierRank(b))
  }

  function CompareCode(a: TrackingCode, b: TrackingCode): Ordering {
    if a == TrackingCode.Any || b == TrackingCode.Any then Eq else CompareInt(CodeRank(a), CodeRank(b))
  }

  function CompareNav(a: NavType, b: NavType): Ordering {
    if a == NavType.Any || b == NavType.Any then Eq else CompareInt(NavRank(a), NavRank(b))
  }

  function CompareSignal(a: NavSignalID, b: NavSignalID): Ordering {
    Then(CompareInt(SystemRank(a.system), SystemRank(b.system)),
      Then(CompareCarrier(a.carrier, b.carrier),
        Then(CompareCode(a.code, b.code), CompareNav(a.nav, b.nav))))
  }

  /** Lexicographic over (sat, xmitSat, system, carrier, code, nav). */
  function Compare(a: NavSatelliteID, b: NavSatelliteID): (r: Ordering)
    ensures r == Eq <==> Matches(a, b)
  {
    Then(CompareSat(a.sat, b.sat),
      Then(CompareSat(a.xmitSat, b.xmitSat), CompareSignal(a.Signal(), b.Signal())))
  }

  /** `NavSatelliteID::operator<`. */
  predicate Less(a: NavSatelliteID, b: NavSatelliteID): (r: bool)
    ensures r ==> !Matches(a, b) && Compare(b, a) == Gt
  {
    CompareFlip(a, b);
    Compare(a, b) == Lt
  }

  /** No part of the identity is a wildcard: the form of a stored key. */
  predicate Concrete(n: NavSatelliteID) {
    && !n.sat.wildId && !n.sat.wildSys
    && !n.xmitSat.wildId && !n.xmitSat.wildSys
    && n.carrier != CarrierBand.Any && n.code != TrackingCode.Any && n.nav != NavType.Any
  }

  // ---------------------------------------------------------------------
  // Constructors
  // ---------------------------------------------------------------------

  /** Default constructor: both satellites are the concrete `SatID(0, Unknown)`. */
  function Default(): (n: NavSatelliteID)
    ensures n.sat == Sat(0, SatelliteSystem.Unknown) && n.xmitSat == n.sat
    ensures !SatMatches(n.sat, Sat(0, SatelliteSystem.GPS)) && !SatMatches(n.xmitSat, Sat(0, SatelliteSystem.GPS))
  {
    NavSatelliteID(Sat(0, SatelliteSystem.Unknown), Sat(0, SatelliteSystem.Unknown), SatelliteSystem.Unknown,
                   CarrierBand.Unknown, TrackingCode.Unknown, NavType.Unknown)
  }

  /** `NavSatelliteID(subj, xmit, sys, car, code, nav)`: both ids are placed in `sys`. */
  function FromIds(subj: int, xmit: int, sys: SatelliteSystem,
                   car: CarrierBand, code: TrackingCode, nav: NavType): (n: NavSatelliteID)
    ensures n.sat == Sat(subj, sys) && n.xmitSat == Sat(xmit, sys)
    // a corollary of the clause above, spelled out as the test checks it
    ensures forall other :: other != sys ==> !SatMatches(n.sat, Sat(subj, other)) && !SatMatches(n.xmitSat, Sat(xmit, other))
    ensures n.Signal() == NavSignalID(sys, car, code, nav)
    ensures Concrete(n) <==> car != CarrierBand.Any && code != TrackingCode.Any && nav != NavType.Any
  {
    NavSatelliteID(Sat(subj, sys), Sat(xmit, sys), sys, car, code, nav)
  }

  /** The "subframe 5 page 25" constructor: subject `subj` is taken to be
      in the transmitter's system, and so is the identity's `system`. */
  function FromSubframe(subj: int, xmitSat: SatID, oid: ObsID, nid: NavID): (n: NavSatelliteID)
    ensures n.sat == Sat(subj, xmitSat.system) && n.xmitSat == xmitSat
    ensures n.system == xmitSat.system == n.sat.system
    ensures n.carrier == oid.band && n.code == oid.code && n.nav == nid.navType
  {
    NavSatelliteID(Sat(subj, xmitSat.system), xmitSat, xmitSat.system, oid.band, oid.code, nid.navType)
  }

  /** `NavSatelliteID(sat, xmitSat, oid, nid)`: `system` comes from the
      transmitting satellite, which may differ from the subject's. */
  function FromSatIds(sat: SatID, xmitSat: SatID, oid: ObsID, nid: NavID): (n: NavSatelliteID)
    ensures n.sat == sat && n.xmitSat == xmitSat && n.system == xmitSat.system
    ensures n.carrier == oid.band && n.code == oid.code && n.nav == nid.navType
  {
    NavSatelliteID(sat, xmitSat, xmitSat.system, oid.band, oid.code, nid.navType)
  }

  /** `NavSatelliteID(sat, xmitSat, car, code, nav)`: like `FromSatIds` with
      the signal given field by field. */
  function FromSatIdsSignal(sat: SatID, xmitSat: SatID, car: CarrierBand, code: TrackingCode, nav: NavType): (n: NavSatelliteID)
    ensures n.sat == sat && n.xmitSat == xmitSat
    ensures n.Signal() == NavSignalID(xmitSat.system, car, code, nav)
  {
    NavSatelliteID(sat, xmitSat, xmitSat.system, car, code, nav)
  }

  /** `NavSatelliteID(sat)`: a pattern for everything about `sat`, from any
      transmitter and on any band, code and format. */
  function FromSat(sat: SatID): (n: NavSatelliteID)
    ensures n.sat == sat && n.system == sat.system
    ensures n.xmitSat.wildId && n.xmitSat.wildSys && n.xmitSat.extraMask == 0
    ensures n.carrier == CarrierBand.Any && n.code == TrackingCode.Any && n.nav == NavType.Any
    ensures forall b :: Matches(n, b) <==> SatMatches(sat, b.sat) && b.system == sat.system
  {
    NavSatelliteID(sat, AnySat, sat.system, CarrierBand.Any, TrackingCode.Any, NavType.Any)
  }

  // ---------------------------------------------------------------------
  // Equality
  // ---------------------------------------------------------------------

  /** The fields that equality and ordering look at (`extraMask` cleared). */
  function Key(n: NavSatelliteID): NavSatelliteID {
    n.(sat := n.sat.(extraMask := 0), xmitSat := n.xmitSat.(extraMask := 0))
  }

  lemma MatchesIsReflexiveAndSymmetric(a: NavSatelliteID, b: NavSatelliteID)
    ensures Matches(a, a)
    ensures Matches(a, b) <==> Matches(b, a)
  {
  }

  /** `Any` in band, code or format equals every value there: replacing a
      field by `Any` gives the same answer as copying the other side's value. */
  lemma AnyMatchesEveryValue(a: NavSatelliteID, b: NavSatelliteID)
    ensures Matches(a.(carrier := CarrierBand.Any), b) <==> Matches(a.(carrier := b.carrier), b)
    ensures Matches(a.(code := TrackingCode.Any), b) <==> Matches(a.(code := b.code), b)
    ensures Matches(a.(nav := NavType.Any), b) <==> Matches(a.(nav := b.nav), b)
  {
  }

  /** A wildcard-system `SatID(id)` matches exactly the satellites with that
      id; a wildcard-id `SatID(system)` exactly those of that system. */
  lemma SatWildcardsMatchPerPart(id: int, system: SatelliteSystem, s: SatID)
    requires !s.wildId && !s.wildSys
    ensures SatMatches(AnySystem(id), s) <==> s.id == id
    ensures SatMatches(AnyId(system), s) <==> s.system == system
    ensures SatMatches(AnySat, s)
  {
  }

  // ---------------------------------------------------------------------
  // Ordering
  // ---------------------------------------------------------------------

  lemma CompareIntFlip(x: int, y: int)
    ensures CompareInt(y, x) == CompareInt(x, y).Flip()
  {
  }

  /** Swapping the operands flips the comparison. */
  lemma {:induction false} CompareFlip(a: NavSatelliteID, b: NavSatelliteID)
    ensures Compare(b, a) == Compare(a, b).Flip()
  {
    CompareIntFlip(a.sat.id, b.sat.id);
    CompareIntFlip(SystemRank(a.sat.system), SystemRank(b.sat.system));
    CompareIntFlip(a.xmitSat.id, b.xmitSat.id);
    CompareIntFlip(SystemRank(a.xmitSat.system), SystemRank(b.xmitSat.system));
    CompareIntFlip(SystemRank(a.system), SystemRank(b.system));
    CompareIntFlip(CarrierRank(a.carrier), CarrierRank(b.carrier));
    CompareIntFlip(CodeRank(a.code), CodeRank(b.code));
    CompareIntFlip(NavRank(a.nav), NavRank(b.nav));
  }

  /** `<` is irreflexive and asymmetric, and `a == b` holds exactly when
      neither `a < b` nor `b < a`, wildcards or not. */
  lemma LessIsAsymmetric(a: NavSatelliteID, b: NavSatelliteID)
    ensures !Less(a, a)
    ensures Less(a, b) ==> !Less(b, a)
    ensures Matches(a, b) <==> !Less(a, b) && !Less(b, a)
  {
    CompareFlip(a, b);
  }

  /** What a strict weak order demands of three comparisons a?b, b?c, a?c:
      ties chain to ties, and a strict step next to a tie or a strict step
      stays strict. */
  predicate Chains(ab: Ordering, bc: Ordering, ac: Ordering) {
    && (ab == Eq && bc == Eq ==> ac == Eq)
    && (ab == Lt && bc == Lt ==> ac == Lt)
    && (ab == Lt && bc == Eq ==> ac == Lt)
    && (ab == Eq && bc == Lt ==> ac == Lt)
  }

  lemma ThenChains(xab: Ordering, xbc: Ordering, xac: Ordering, yab: Ordering, ybc: Ordering, yac: Ordering)
    requires Chains(xab, xbc, xac) && Chains(yab, ybc, yac)
    ensures Chains(Then(xab, yab), Then(xbc, ybc), Then(xac, yac))
  {
  }

  lemma CompareSatChains(a: SatID, b: SatID, c: SatID)
    requires !a.wildId && !a.wildSys && !b.wildId && !b.wildSys && !c.wildId && !c.wildSys
    ensures Chains(CompareSat(a, b), CompareSat(b, c), CompareSat(a, c))
  {
    ThenChains(CompareInt(a.id, b.id), CompareInt(b.id, c.id), CompareInt(a.id, c.id),
               CompareInt(SystemRank(a.system), SystemRank(b.system)),
               CompareInt(SystemRank(b.system), SystemRank(c.system)),
               CompareInt(SystemRank(a.system), SystemRank(c.system)));
  }

  lemma CompareSignalChains(a: NavSatelliteID, b: NavSatelliteID, c: NavSatelliteID)
    requires Concrete(a) && Concrete(b) && Concrete(c)
    ensures Chains(CompareSignal(a.Signal(), b.Signal()), CompareSignal(b.Signal(), c.Signal()),
                   CompareSignal(a.Signal(), c.Signal()))
  {
    var sa, sb, sc := a.Signal(), b.Signal(), c.Signal();
    ThenChains(CompareCode(sa.code, sb.code), CompareCode(sb.code, sc.code), CompareCode(sa.code, sc.code),
               CompareNav(sa.nav, sb.nav), CompareNav(sb.nav, sc.nav), CompareNav(sa.nav, sc.nav));
    ThenChains(CompareCarrier(sa.carrier, sb.carrier), CompareCarrier(sb.carrier, sc.carrier),
               CompareCarrier(sa.carrier, sc.carrier),
               Then(CompareCode(sa.code, sb.code), CompareNav(sa.nav, sb.nav)),
               Then(CompareCode(sb.code, sc.code), CompareNav(sb.nav, sc.nav)),
               Then(CompareCode(sa.code, sc.code), CompareNav(sa.nav, sc.nav)));
    ThenChains(CompareInt(SystemRank(sa.system), SystemRank(sb.system)),
               CompareInt(SystemRank(sb.system), SystemRank(sc.system)),
               CompareInt(SystemRank(sa.system), SystemRank(sc.system)),
               Then(CompareCarrier(sa.carrier, sb.carrier), Then(CompareCode(sa.code, sb.code), CompareNav(sa.nav, sb.nav))),
               Then(CompareCarrier(sb.carrier, sc.carrier), Then(CompareCode(sb.code, sc.code), CompareNav(sb.nav, sc.nav))),
               Then(CompareCarrier(sa.carrier, sc.carrier), Then(CompareCode(sa.code, sc.code), CompareNav(sa.nav, sc.nav))));
  }

  /** On wildcard-free identities `<` is a strict weak order: it is
      transitive, its incomparability (`==`) is transitive, and any two
      identities are either equal or ordered one way. */
  lemma {:induction false} ConcreteStrictWeakOrder(a: NavSatelliteID, b: NavSatelliteID, c: NavSatelliteID)
    requires Concrete(a) && Concrete(b) && Concrete(c)
    ensures Less(a, b) && Less(b, c) ==> Less(a, c)
    ensures Matches(a, b) && Matches(b, c) ==> Matches(a, c)
    ensures Less(a, b) || Less(b, a) || Matches(a, b)
  {
    CompareSatChains(a.xmitSat, b.xmitSat, c.xmitSat);
    CompareSignalChains(a, b, c);
    ThenChains(CompareSat(a.xmitSat, b.xmitSat), CompareSat(b.xmitSat, c.xmitSat), CompareSat(a.xmitSat, c.xmitSat),
               CompareSignal(a.Signal(), b.Signal()), CompareSignal(b.Signal(), c.Signal()),
               CompareSignal(a.Signal(), c.Signal()));
    CompareSatChains(a.sat, b.sat, c.sat);
    ThenChains(CompareSat(a.sat, b.sat), CompareSat(b.sat, c.sat), CompareSat(a.sat, c.sat),
               Then(CompareSat(a.xmitSat, b.xmitSat), CompareSignal(a.Signal(), b.Signal())),
               Then(CompareSat(b.xmitSat, c.xmitSat), CompareSignal(b.Signal(), c.Signal())),
               Then(CompareSat(a.xmitSat, c.xmitSat), CompareSignal(a.Signal(), c.Signal())));
    CompareFlip(a, b);
  }

  /** With wildcards the ordering is not a strict weak order: an identity
      with `Any` band ties with both an L1 and an L2 identity, which are
      themselves ordered. */
  lemma WildcardTiesDoNotChain()
    ensures exists a, p, b :: Matches(a, p) && Matches(p, b) && Less(a, b)
  {
    var a := FromIds(1, 2, SatelliteSystem.GPS, CarrierBand.L1, TrackingCode.CA, NavType.GPSLNAV);
    var p := a.(carrier := CarrierBand.Any);
    var b := a.(carrier := CarrierBand.L2);
    assert Matches(a, p) && Matches(p, b) && Less(a, b);
  }

  // ---------------------------------------------------------------------
  // The identities of the unit tests
  // ---------------------------------------------------------------------

  /** The reference identity of the equality and ordering tests: subject 1,
      transmitter 2, GPS, L1, C/A, LNAV.  Each case changes one field. */
  function Base(): NavSatelliteID {
    FromIds(1, 2, SatelliteSystem.GPS, CarrierBand.L1, TrackingCode.CA, NavType.GPSLNAV)
  }

  /** The constructor test's expectations, case by case. */
  lemma ConstructorCases()
    ensures var n := FromIds(23, 32, SatelliteSystem.Transit, CarrierBand.L5, TrackingCode.Y, NavType.GPSMNAV);
      && SatMatches(n.sat, Sat(23, SatelliteSystem.Transit)) && SatMatches(n.xmitSat, Sat(32, SatelliteSystem.Transit))
      && !SatMatches(n.sat, Sat(23, SatelliteSystem.GPS)) && !SatMatches(n.xmitSat, Sat(32, SatelliteSystem.GPS))
      && n.system == SatelliteSystem.Transit
    ensures var n := FromSubframe(17, Sat(23, SatelliteSystem.GPS), ObsID(ObservationType.NavMsg, CarrierBand.L5, TrackingCode.Y), NavID(NavType.GPSMNAV));
      n.sat == Sat(17, SatelliteSystem.GPS) && n.xmitSat == Sat(23, SatelliteSystem.GPS) && n.system == SatelliteSystem.GPS
    ensures var n := FromSatIds(Sat(17, SatelliteSystem.GPS), Sat(23, SatelliteSystem.QZSS), ObsID(ObservationType.NavMsg, CarrierBand.L5, TrackingCode.Y), NavID(NavType.GPSMNAV));
      n.system == SatelliteSystem.QZSS && n.carrier == CarrierBand.L5 && n.code == TrackingCode.Y && n.nav == NavType.GPSMNAV
  {
  }

  /** The equality test: which single-field changes keep `==`. */
  lemma EqualCases()
    ensures Matches(Base(), Base())
    ensures !Matches(Base(), Base().(xmitSat := Sat(1, SatelliteSystem.GPS)))
    ensures !Matches(Base(), Base().(sat := Sat(2, SatelliteSystem.GPS)))
    ensures !Matches(Base(), FromIds(1, 2, SatelliteSystem.QZSS, CarrierBand.L1, TrackingCode.CA, NavType.GPSLNAV))
    ensures !Matches(Base(), Base().(carrier := CarrierBand.L2))
    ensures !Matches(Base(), Base().(code := TrackingCode.Y))
    ensures !Matches(Base(), Base().(nav := NavType.GPSCNAV2))
    ensures Matches(Base(), Base().(carrier := CarrierBand.Any))
    ensures Matches(Base(), Base().(code := TrackingCode.Any))
    ensures Matches(Base(), Base().(nav := NavType.Any))
    ensures Matches(Base(), Base().(sat := AnySystem(1)))
    ensures !Matches(Base(), Base().(sat := AnySystem(2)))
    ensures Matches(Base(), Base().(sat := AnyId(SatelliteSystem.GPS)))
    ensures !Matches(Base(), Base().(sat := AnyId(SatelliteSystem.QZSS)))
    ensures !Matches(Base(), Base().(xmitSat := AnySystem(1)))
    ensures Matches(Base(), Base().(xmitSat := AnySystem(2)))
    ensures Matches(Base(), Base().(xmitSat := AnyId(SatelliteSystem.GPS)))
    ensures !Matches(Base(), Base().(xmitSat := AnyId(SatelliteSystem.QZSS)))
  {
  }

  /** The ordering test: the changed field decides, a wildcard ties. */
  lemma LessThanCases()
    ensures !Less(Base(), Base())
    ensures Less(Base().(xmitSat := Sat(1, SatelliteSystem.GPS)), Base()) && !Less(Base(), Base().(xmitSat := Sat(1, SatelliteSystem.GPS)))
    ensures Less(Base(), Base().(sat := Sat(2, SatelliteSystem.GPS))) && !Less(Base().(sat := Sat(2, SatelliteSystem.GPS)), Base())
    ensures var q := FromIds(1, 2, SatelliteSystem.QZSS, CarrierBand.L1, TrackingCode.CA, NavType.GPSLNAV);
      Less(Base(), q) && !Less(q, Base())
    ensures Less(Base(), Base().(carrier := CarrierBand.L2)) && !Less(Base().(carrier := CarrierBand.L2), Base())
    ensures Less(Base(), Base().(code := TrackingCode.Y)) && !Less(Base().(code := TrackingCode.Y), Base())
    ensures Less(Base(), Base().(nav := NavType.GPSCNAV2)) && !Less(Base().(nav := NavType.GPSCNAV2), Base())
    ensures !Less(Base(), Base().(carrier := CarrierBand.Any)) && !Less(Base().(carrier := CarrierBand.Any), Base())
    ensures !Less(Base(), Base().(code := TrackingCode.Any)) && !Less(Base().(code := TrackingCode.Any), Base())
    ensures !Less(Base(), Base().(nav := NavType.Any)) && !Less(Base().(nav := NavType.Any), Base())
    ensures !Less(Base(), Base().(sat := AnySystem(1))) && !Less(Base().(sat := AnySystem(1)), Base())
    ensures Less(Base(), Base().(sat := AnySystem(2))) && !Less(Base().(sat := AnySystem(2)), Base())
    ensures !Less(Base(), Base().(sat := AnyId(SatelliteSystem.GPS))) && !Less(Base().(sat := AnyId(SatelliteSystem.GPS)), Base())
    ensures Less(Base(), Base().(sat := AnyId(SatelliteSystem.QZSS))) && !Less(Base().(sat := AnyId(SatelliteSystem.QZSS)), Base())
    ensures Less(Base().(xmitSat := AnySystem(1)), Base()) && !Less(Base(), Base().(xmitSat := AnySystem(1)))
    ensures !Less(Base(), Base().(xmitSat := AnySystem(2))) && !Less(Base().(xmitSat := AnySystem(2)), Base())
    ensures !Less(Base(), Base().(xmitSat := AnyId(SatelliteSystem.GPS))) && !Less(Base().(xmitSat := AnyId(SatelliteSystem.GPS)), Base())
    ensures Less(Base(), Base().(xmitSat := AnyId(SatelliteSystem.QZSS))) && !Less(Base().(xmitSat := AnyId(SatelliteSystem.QZSS)), Base())
  {
  }
}
