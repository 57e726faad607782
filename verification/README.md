# Navigation-data identity, message types and store — a Dafny model

This project models five pieces of the GNSS toolkit's navigation-data layer
and proves properties of them:

- **Satellite identity** (`SatIdentity`, NavSatelliteID.dfy): a `SatID`
  (numeric id and satellite system, each of which may be a wildcard) and a
  `NavSatelliteID` (subject satellite `sat`, transmitting satellite
  `xmitSat`, `system`, `carrier`, `code`, `nav`, the last three with an
  `Any` wildcard).  Its constructors, wildcard-aware `==` (`Matches`),
  `!=` (`Differs`) and `<` (`Less`, via a three-way `Compare`) are
  modelled as the unit tests of the identity class pin them down.
- **Message-type names** (`NavMessageTypes`, NavMessageType.dfy):
  `asString` / `asNavMessageType` and their fallbacks.
- **GLONASS satellite type** (`GloFNavSatTypes`, GLOFNavSatType.dfy): the
  Word M enumerators with their underlying values, the `Last` sentinel, and
  what `GLOFNavSatTypeIterator` visits.
- **GPS LNAV UTC record** (`GpsLNavTimeOffset`, GPSLNavTimeOffset.dfy): the
  default constructor, user time = transmit time + 6 s, the conversions
  offered, and the availability contract of `getOffset`.
- **Navigation store** (`NavStore`, NavLibrary.dfy): a class `NavLibrary`
  over a sequence of abstract entries (identity, transmit time, user time,
  payload) with `clear`, the three `edit` overloads, `size`, `find`,
  `getHealth` and `getOffset`, every lookup gated on user time.  Four
  client methods (`HealthScenario`, `FindScenario`, `OffsetScenario`,
  `EditClearScenario`) replay the library tests on small stores using only
  the methods' contracts.

Modelling choices:

- Times are `real` seconds on one continuous time line.
- The identity's ordering is lexicographic over (sat id, sat system,
  xmit id, xmit system, system, carrier, code, nav), each in declaration
  order of its enumeration.  A part where either side is a wildcard is a
  tie.  The tests constrain only one field at a time; this order satisfies
  all of them (`LessThanCases`).
- The constructor from two `SatID`s, an ObsID and a NavID takes `system`
  from the transmitting satellite, not from the subject: with subject GPS
  and transmitter QZSS the identity's system is QZSS
  (core/tests/NewNav/NavSatelliteID_T.cpp:86-93).  So `system` need not
  equal `sat.system`.  The constructor from two `SatID`s and explicit
  band, code and format (`FromSatIdsSignal`) does the same for
  uniformity; its test gives both satellites the GPS system
  (core/tests/NewNav/NavSatelliteID_T.cpp:97-108), so there the choice is
  free.
- `edit(from, to[, sel])` removes the selected messages whose transmit time
  lies in [from, to) and keeps everything else.  The test data spans
  2015-07-19 00:00 to 2015-07-20 02:00 (swig/tests/test_NavLibrary.py:156-161).
  The edit span ends at GPS week 1854 second 28700, which is 2015-07-19
  07:58:20.  Removing the roughly 8 early hours fits the observed
  337 → 229.  So does an edit of PRN 1 removing only 2 messages.  Keeping
  only the early span would not fit.
- `getOffset`'s arithmetic is a caller-supplied `OffsetFormula` applied to
  the record's `UtcTerms` (ΔtLS, A0, A1, tot, WNt, the terms of IS-GPS-200
  section 20.3.3.5.2.4).  `getConversions()` is taken to offer GPS→UTC and
  UTC→GPS.
- A search returns the usable answer with the latest transmit time; among
  several with the same transmit time, the first in store order.
- `NavMessageType.Unlisted(code)` stands for a value of the enum type that
  is none of its six enumerators; it prints as "???".

## Model

| member | source | states |
|---|---|---|
| `SatIdentity.Default` | core/tests/NewNav/NavSatelliteID_T.cpp:46-54 | both satellites are the concrete SatID(0, Unknown) and neither equals SatID(0, GPS) |
| `SatIdentity.FromIds` | core/tests/NewNav/NavSatelliteID_T.cpp:56-71 | both ids are placed in the given system and match no satellite with that id in another system; carrier, code and nav are stored unchanged; the identity is wildcard-free exactly when none of them is Any |
| `SatIdentity.FromSubframe` | core/tests/NewNav/NavSatelliteID_T.cpp:72-85 | the subject id is put in the transmitter's system, the transmitter is kept, and band, code and format come from the ObsID and NavID |
| `SatIdentity.FromSatIds` | core/tests/NewNav/NavSatelliteID_T.cpp:86-96 | both SatIDs are kept and the identity's system is the transmitter's (GPS subject, QZSS transmitter gives QZSS) |
| `SatIdentity.FromSatIdsSignal` | core/tests/NewNav/NavSatelliteID_T.cpp:97-108 | both SatIDs are kept and the signal is (transmitter's system, carrier, code, nav) |
| `SatIdentity.FromSat` | core/tests/NewNav/NavSatelliteID_T.cpp:109-120 | sat and system come from the SatID, xmitSat is fully wild with extraMask 0, carrier/code/nav are Any, so the identity matches exactly the identities of that satellite in that system |
| `SatIdentity.SatMatches` | core/tests/NewNav/NavSatelliteID_T.cpp:50-54 | `SatID::operator==`: two concrete satellites are equal exactly when id and system agree (SatID(0, Unknown) differs from SatID(0, GPS)); the fully wild satellite equals every satellite |
| `SatIdentity.Matches` | core/tests/NewNav/NavSatelliteID_T.cpp:206-223 | `operator==`: between wildcard-free identities, equal exactly when every compared field is equal, so one differing sat id, xmit id, system, carrier, code or nav makes them unequal; equal identities always share their system |
| `SatIdentity.Differs` | core/tests/NewNav/NavSatelliteID_T.cpp:225-242 | `operator!=`, read as "some part holds two concrete, different values", is exactly the negation of == for all identities |
| `SatIdentity.Compare` | core/tests/NewNav/NavSatelliteID_T.cpp:327-362 | the three-way comparison behind `operator<` ties exactly when the identities are == |
| `SatIdentity.Less` | core/tests/NewNav/NavSatelliteID_T.cpp:327-362 | `operator<`: a < b only for unequal identities, and then the comparison of b with a is Gt |
| `SatIdentity.MatchesIsReflexiveAndSymmetric` | core/tests/NewNav/NavSatelliteID_T.cpp:206 | every identity equals itself, and equality does not depend on operand order |
| `SatIdentity.AnyMatchesEveryValue` | core/tests/NewNav/NavSatelliteID_T.cpp:213-215 | Any in carrier, code or nav behaves as if it held the other side's value |
| `SatIdentity.SatWildcardsMatchPerPart` | core/tests/NewNav/NavSatelliteID_T.cpp:216-223 | a wildcard-system SatID matches exactly the satellites with its id, a wildcard-id SatID exactly those of its system, the fully wild SatID every satellite |
| `SatIdentity.CompareFlip` | core/tests/NewNav/NavSatelliteID_T.cpp:327-362 | swapping the operands of the three-way comparison flips its result |
| `SatIdentity.LessIsAsymmetric` | core/tests/NewNav/NavSatelliteID_T.cpp:327-362 | < is irreflexive and asymmetric, and a == b holds exactly when neither a < b nor b < a, for all identities |
| `SatIdentity.ConcreteStrictWeakOrder` | core/tests/NewNav/NavSatelliteID_T.cpp:327-340 | on wildcard-free identities < is transitive, its incomparability (==) is transitive, and any two are == or ordered one way |
| `SatIdentity.WildcardTiesDoNotChain` | core/tests/NewNav/NavSatelliteID_T.cpp:341-346 | with wildcards, incomparability is not transitive: an Any-band identity ties with an L1 and an L2 identity that are ordered |
| `SatIdentity.ConstructorCases` | core/tests/NewNav/NavSatelliteID_T.cpp:56-96 | the constructor test's concrete expectations (Transit ids, subframe constructor in GPS, QZSS system from the transmitter) |
| `SatIdentity.EqualCases` | core/tests/NewNav/NavSatelliteID_T.cpp:198-223 | each of the equality test's eighteen cases |
| `SatIdentity.LessThanCases` | core/tests/NewNav/NavSatelliteID_T.cpp:319-362 | each of the ordering test's cases: id 1<2, GPS<QZSS, L1<L2, CA<Y, GPSLNAV<GPSCNAV2, wildcards tie |
| `NavMessageTypes.AsString` | core/lib/NewNav/NavMessageType.cpp:45-57 | the result is one of the six names exactly for the six enumerators; any other value prints as "???" |
| `NavMessageTypes.AsNavMessageType` | core/lib/NewNav/NavMessageType.cpp:60-75 | always yields an enumerator; any string that is not exactly one of the six names (case variants, "???") gives Unknown |
| `NavMessageTypes.EnumeratorRoundTrip` | core/lib/NewNav/NavMessageType.cpp:45-75 | parsing the name of an enumerator gives it back |
| `NavMessageTypes.NameRoundTrip` | core/lib/NewNav/NavMessageType.cpp:60-73 | printing the parse of one of the six names gives the name back |
| `NavMessageTypes.NamesAreDistinct` | core/lib/NewNav/NavMessageType.cpp:49-54 | two enumerators have the same name only if they are the same enumerator |
| `NavMessageTypes.UnlistedParsesAsUnknown` | core/lib/NewNav/NavMessageType.cpp:55-74 | a non-enumerator prints "???", which parses back as Unknown |
| `GloFNavSatTypes.Code` | core/lib/NewNav/GLOFNavSatType.hpp:51-57 | codes lie in -1..2 and only the Last sentinel has code 2 |
| `GloFNavSatTypes.OfCode` | core/lib/NewNav/GLOFNavSatType.hpp:50-56 | a value exists exactly for codes -1..2 and has that code (Word M 0 is GLONASS, 1 is GLONASS-M) |
| `GloFNavSatTypes.CodeRoundTrip` | core/lib/NewNav/GLOFNavSatType.hpp:51-57 | every enumerator is recovered from its code |
| `GloFNavSatTypes.LastFollowsGlonassM` | core/lib/NewNav/GLOFNavSatType.hpp:53-56 | Last is GLONASS_M plus one and the codes increase in declaration order |
| `GloFNavSatTypes.EnumRange` | core/lib/NewNav/GLOFNavSatType.hpp:59-61 | iterating from one code up to another visits one value per code, in increasing order, excluding the end |
| `GloFNavSatTypes.Iterator` | core/lib/NewNav/GLOFNavSatType.hpp:59-61 | `GLOFNavSatTypeIterator` visits exactly Unknown, GLONASS, GLONASS_M, in that order |
| `GloFNavSatTypes.IteratorVisitsEveryType` | core/lib/NewNav/GLOFNavSatType.hpp:59-61 | the iterator's codes strictly increase, and it visits every satellite type and never Last |
| `GpsLNavTimeOffset.Default` | core/lib/NewNav/GPSLNavTimeOffset.hpp:18-19 | every data field (the offset terms and the leap-second schedule) is 0 |
| `GpsLNavTimeOffset.GPSLNavTimeOffset.UserTime` | core/lib/NewNav/GPSLNavTimeOffset.hpp:27-35 | user time is transmit time + 6 s, never earlier than the transmit time |
| `GpsLNavTimeOffset.UserTimeFollowsTimeStamp` | core/lib/NewNav/GPSLNavTimeOffset.hpp:34-35 | shifting the transmit time shifts the user time by the same amount |
| `GpsLNavTimeOffset.GPSLNavTimeOffset.Conversions` | core/lib/NewNav/GPSLNavTimeOffset.hpp:57-59 | the conversions offered never convert a system to itself and come in both directions |
| `GpsLNavTimeOffset.GPSLNavTimeOffset.GetOffset` | core/lib/NewNav/GPSLNavTimeOffset.hpp:43-55 | an offset is available exactly for an offered (fromSys, toSys) pair, and is then the formula applied to the record's terms |
| `GpsLNavTimeOffset.OffsetDependsOnlyOnTerms` | core/lib/NewNav/GPSLNavTimeOffset.hpp:61-73 | records with equal ΔtLS, A0, A1, tot, WNt give equal offsets for every conversion, time and formula; wnLSF, dn, ΔtLSF and the time stamp never matter |
| `GpsLNavTimeOffset.ConversionsAreGpsUtc` | core/lib/NewNav/GPSLNavTimeOffset.hpp:43-59 | getOffset succeeds exactly for GPS→UTC and UTC→GPS |
| `NavStore.NavLibrary.Size` | swig/tests/test_NavLibrary.py:168-199 | `size()` is 0 exactly when the store holds no message, as after each `clear` |
| `NavStore.NavLibrary.AddData` | swig/tests/test_NavLibrary.py:167-168 | the decoded messages are appended and the size grows by their number |
| `NavStore.NavLibrary.Clear` | swig/tests/test_NavLibrary.py:169-170 | the store is empty, size 0 |
| `NavStore.NavLibrary.EditSelected` | swig/tests/test_NavLibrary.py:173-199 | the store becomes exactly the selected-edit filter of its old contents, in order, and never grows |
| `NavStore.NavLibrary.Edit` | swig/tests/test_NavLibrary.py:173-175 | removes every message transmitted in [from, to), keeps the rest in order |
| `NavStore.NavLibrary.EditSat` | swig/tests/test_NavLibrary.py:183-185 | removes only the in-span messages whose identity matches the satellite |
| `NavStore.NavLibrary.EditSignal` | swig/tests/test_NavLibrary.py:190-199 | removes only the in-span messages whose signal matches |
| `NavStore.KeptIsFilter` | swig/tests/test_NavLibrary.py:173-175 | an edit keeps exactly the messages it does not remove and never increases the size |
| `NavStore.NarrowerEditKeepsMore` | swig/tests/test_NavLibrary.py:176-185 | an edit selecting fewer messages keeps at least as many, including all the wider edit keeps |
| `NavStore.SatEditRemovesLess` | swig/tests/test_NavLibrary.py:183-185 | the per-satellite edit removes a subset of what the unrestricted edit removes (335 vs 229) |
| `NavStore.UnusedSignalEditKeepsAll` | swig/tests/test_NavLibrary.py:190-194 | editing a signal no message carries removes nothing |
| `NavStore.CommonSignalEditIsFullEdit` | swig/tests/test_NavLibrary.py:195-199 | editing a signal every message carries equals the unrestricted edit |
| `NavStore.EditIsIdempotent` | swig/tests/test_NavLibrary.py:173-175 | repeating an edit changes nothing |
| `NavStore.UsableFromUserTime` | swig/tests/test_NavLibrary.py:59-69 | a matching message is usable from its user time on, inclusively, and not before |
| `NavStore.NavLibrary.Latest` | swig/tests/test_NavLibrary.py:108-122 | finds nothing exactly when no message answers the query by `when`; otherwise a stored, usable answer transmitted no earlier than any other |
| `NavStore.NavLibrary.Find` | swig/tests/test_NavLibrary.py:96-133 | the latest usable message of the requested type for a matching identity, none before any is available; a wrong message type never matches |
| `NavStore.NavLibrary.GetHealth` | swig/tests/test_NavLibrary.py:49-77 | the health of the latest health message for the satellite available at `when`, none before |
| `NavStore.NavLibrary.GetOffset` | swig/tests/test_NavLibrary.py:79-94 | the latest UTC record offering the conversion and available at `when`, returned as stored, with user time ≤ `when`; none before |

## Left out

- Orbit and clock evaluation (`getXvt`) and its floating-point results: numerics outside this model.
- Reading RINEX files (`addDataSource`): file I/O; `AddData` takes the already-decoded messages.
- `validate()` and its ICD checks: the rules are not part of this model, so `ValidOnly` filtering is not modelled either.
- `dump()` and the stream printers, and `asString(GLOFNavSatType)`: printing; the latter's body is not part of this model.
- Health filters other than `SVHealth.Any`, search orders other than User, `setValidityFilter`, `setTypeFilter`: their behaviour is not part of this model.
- `getInitialTime` / `getFinalTime`: not part of the modelled operations.
- The GPS→UTC arithmetic itself: its body is not part of this model; it is a caller-supplied formula of the listed terms.
- Multi-hop time-system conversion and rejection of duplicate inserts: not part of the modelled code.
- Several factories behind one library: the model holds one factory's store.
- Per-message-class user times other than the UTC record's: stored as a given `userTime` no earlier than the transmit time.
- The enumerations of satellite systems, bands, codes and formats hold only the values the tests use. Their full lists are not part of this model.
- `extraMask` is carried in `SatID` but takes no part in comparisons. Its role is not part of this model.
- The inherited `timeStamp` of the UTC record starts at 0 in `Default`; the base class's initial value is not part of this model.
- Integer widths: `wnt`, `wnLSF` and `dn` are unsigned 32-bit in the source and unbounded `nat` here; no operation in the model does arithmetic on them.
- `getConversions()`: its body is not part of this model. `Conversions` is taken as {GPS→UTC, UTC→GPS}.
- In-place mutation of the UTC record's public fields: the record is a value, and a field update is a datatype update. So `validate`, `getUserTime` and `getConversions` leave it unchanged by construction.
