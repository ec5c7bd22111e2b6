# Highway link checks of atlas-checks, modelled in Dafny

This project models three checks of atlas-checks that validate OpenStreetMap roads held in an
Atlas: BadHighwayLinkCheck, RoadLinkCheck and HighwayAccessCheck. Each check is a class that
first decides whether an Atlas object is worth checking (`validCheckForObject`). It then marks
the object's OSM identifier as flagged and decides whether to raise a flag (`flag`), and with
which instruction.

- **BadHighwayLinkCheck** looks at main edges whose highway tag, lower-cased, is a configured
  link type (`motorway_link`, `trunk_link`, ...).
  - It reassembles the way, a sequence of edges sharing one OSM identifier.
  - It collects the "boundary" roads at both ends of the way: main edges of other ways whose
    highway tag does not contain `_link`.
  - It looks up the most important highway type among them in a priority list.
  - It flags the way when its total length exceeds 1000 metres.
- **RoadLinkCheck** looks at main link edges.
  - It sums the way's length.
  - It picks the most important non-link road at the start node and at the end node, and
    suggests the link type of the more important one when its classification differs from the
    current edge's.
  - It flags a way that is too long or that has a suggestion.
- **HighwayAccessCheck** flags a main edge whose `access` tag is `yes` or `permissive`.
  - A motorway-like highway type (`motorway`, `trunk`) gives instruction 0.
  - A footway-like type (`footway`, `path`, `track`, ...) gives instruction 1.

The model follows the code as written wherever it differs from the consolidated design these
checks aim at:

- There is no heading-based choice between neighbouring roads, and no verdict variants
  (too long, wrong class, both, no connection). The code only ever returns instruction 0, or
  instruction 0 or 1 for HighwayAccessCheck.
- The length threshold is not a configurable number of metres:
  - BadHighwayLinkCheck hard-codes 1000 metres.
  - RoadLinkCheck is configured in miles, with a default of one mile.
- RoadLinkCheck as written never reaches a verdict. Its length accumulator starts as `null`,
  so any non-empty way raises a `NullPointerException`. An empty way makes `get(0)` raise
  instead. `RoadLink.RoadLinkCheck.Flag` states exactly this. The decision the code would take
  otherwise is modelled separately, in `RoadLink.Combine` and `RoadLink.SuggestLink`.
- The RoadLinkCheck scan for the most important neighbour never visits the last candidate.
- RoadLinkCheck takes the "ending" neighbours at the end node of the *first* edge of the way,
  not of its last edge.
- An upper-case link tag such as `MOTORWAY_LINK` counts as a link for BadHighwayLinkCheck's
  `highwayIsLink`, which lower-cases. Yet it passes the case-sensitive `_link` boundary filter.

Java exceptions are modelled as values. `Atlas.Result` is either `Ok` or `Err(NullPointer)` /
`Err(IndexOutOfBounds)`. A member that can raise returns a `Result`, and its contract says
exactly when each exception is raised.

Modules:

- `Atlas` (atlas.dfy): edges and Atlas objects, the flagged-identifier registry every check
  inherits, and the length of a way.
- `JavaUtil` (java_util.dfy): the Java library operations the decisions rest on:
  `toLowerCase`, `String.contains`, `List.indexOf`, and sort-then-`get(0)` as a minimum.
- `BadHighwayLink` (bad_highway_link_check.dfy), `RoadLink` (road_link_check.dfy) and
  `HighwayAccess` (highway_access_check.dfy): one module per check, holding the check class
  and the pure functions its methods are proved against.

## Model

| member | source | states |
|---|---|---|
| Atlas.FlagRegistry.constructor | src/main/java/org/openstreetmap/atlas/checks/validation/tag/HighwayAccessCheck.java:46-49 | a freshly built check has flagged nothing |
| Atlas.FlagRegistry.MarkAsFlagged | src/main/java/org/openstreetmap/atlas/checks/validation/tag/HighwayAccessCheck.java:85 | marking adds exactly the given OSM identifier to the flagged set |
| Atlas.SumLengths | src/main/java/org/openstreetmap/atlas/checks/validation/tag/BadHighwayLinkCheck.java:167-175 | the total length of a way: the edge lengths added one by one, in order, starting from 0 |
| Atlas.SumLengthsNonNegative | src/main/java/org/openstreetmap/atlas/checks/validation/tag/BadHighwayLinkCheck.java:167-175 | the summed length of a way of non-negative edge lengths is non-negative |
| Atlas.SumLengthsPermutation | src/main/java/org/openstreetmap/atlas/checks/validation/tag/BadHighwayLinkCheck.java:169-172 | the summed length does not depend on the order in which the walker's edge set is iterated |
| JavaUtil.ToLowerCaseIdempotent | src/main/java/org/openstreetmap/atlas/checks/validation/tag/BadHighwayLinkCheck.java:161 | lower-casing an already lower-cased tag changes nothing |
| JavaUtil.StringContainsIff | src/main/java/org/openstreetmap/atlas/checks/validation/tag/BadHighwayLinkCheck.java:105 | `contains` holds exactly when the substring occurs at some position |
| JavaUtil.IndexOf | src/main/java/org/openstreetmap/atlas/checks/validation/tag/BadHighwayLinkCheck.java:110 | `indexOf` is -1 exactly for an absent value; otherwise it is the first position holding the value |
| JavaUtil.Minimum | src/main/java/org/openstreetmap/atlas/checks/validation/tag/BadHighwayLinkCheck.java:112-114 | the first index after an ascending sort is an element of the list and no larger than any element |
| JavaUtil.MinimumOfSameValues | src/main/java/org/openstreetmap/atlas/checks/validation/tag/BadHighwayLinkCheck.java:209-211 | the first index after the sort depends only on which indexes occur, not on their order or repetition |
| BadHighwayLink.DefaultCorrespondence | src/main/java/org/openstreetmap/atlas/checks/validation/tag/BadHighwayLinkCheck.java:23-29 | the default correspondence pairs each of the five most important highway types with the default link type at the same position |
| BadHighwayLink.HighwayIsLink | src/main/java/org/openstreetmap/atlas/checks/validation/tag/BadHighwayLinkCheck.java:158-165 | a tag is a link iff it is present and its lower-cased form is in the configured link list |
| BadHighwayLink.HighwayIsLinkIgnoresCase | src/main/java/org/openstreetmap/atlas/checks/validation/tag/BadHighwayLinkCheck.java:158-165 | the link test gives the same answer for a tag and its lower-cased form |
| BadHighwayLink.DefaultHighwayIsLink | src/main/java/org/openstreetmap/atlas/checks/validation/tag/BadHighwayLinkCheck.java:158-165 | with the default list, a tag is a link iff it is present and lower-cases to one of the five `*_link` values; its lower-cased form then contains `_link` |
| BadHighwayLink.BoundaryFilter | src/main/java/org/openstreetmap/atlas/checks/validation/tag/BadHighwayLinkCheck.java:102-106 | keeps exactly the connected main edges of other ways whose tag does not contain `_link`, and no more edges than there are |
| BadHighwayLink.BoundaryFilterAppend | src/main/java/org/openstreetmap/atlas/checks/validation/tag/BadHighwayLinkCheck.java:119-123 | the filter keeps the connected edges' order: filtering a concatenation gives the filtered first part followed by the filtered second part |
| BadHighwayLink.BoundaryCandidates | src/main/java/org/openstreetmap/atlas/checks/validation/tag/BadHighwayLinkCheck.java:102-106 | the stream raises a null-pointer failure iff a main edge of another way has no highway tag; otherwise it yields exactly the main edges of other ways whose tag does not contain `_link` |
| BadHighwayLink.UpperCaseLinkIsBoundaryCandidate | src/main/java/org/openstreetmap/atlas/checks/validation/tag/BadHighwayLinkCheck.java:119-123 | an edge tagged `MOTORWAY_LINK` is a link for `highwayIsLink` and still passes the case-sensitive `_link` filter |
| BadHighwayLink.StartHighestPriority | src/main/java/org/openstreetmap/atlas/checks/validation/tag/BadHighwayLinkCheck.java:108-114 | it fails with an index failure iff there are no candidates or some tag is not listed exactly; otherwise it returns some candidate's tag whose priority index is the smallest among the candidates |
| BadHighwayLink.HighestPriorityHighwayConnectingToTheLink | src/main/java/org/openstreetmap/atlas/checks/validation/tag/BadHighwayLinkCheck.java:199-217 | no candidates give null; it fails iff some candidate has no tag (null pointer) or a lower-cased tag missing from the list (index); otherwise it returns a listed type that is some candidate's lower-cased tag, with the smallest priority index |
| BadHighwayLink.HighestPriorityIgnoresOrder | src/main/java/org/openstreetmap/atlas/checks/validation/tag/BadHighwayLinkCheck.java:206-211 | two candidate lists with the same members give the same outcome, failures included |
| BadHighwayLink.BoundaryLookupFailure | src/main/java/org/openstreetmap/atlas/checks/validation/tag/BadHighwayLinkCheck.java:100-125 | the first exception of the steps before the length test: `get(0)` on an empty way, the start filter, the start look-up, the end filter, then the end look-up; none when all complete |
| BadHighwayLink.BoundaryLookupSucceedsIff | src/main/java/org/openstreetmap/atlas/checks/validation/tag/BadHighwayLinkCheck.java:100-125 | the look-ups before the length test complete iff the way is non-empty, all main edges of other ways at both boundary nodes have tags, the start node has a candidate, start tags are listed exactly and end tags are listed once lower-cased |
| BadHighwayLink.BadHighwayLinkCheck.constructor | src/main/java/org/openstreetmap/atlas/checks/validation/tag/BadHighwayLinkCheck.java:50-61 | the check keeps the three configured lists and has flagged nothing |
| BadHighwayLink.BadHighwayLinkCheck.ValidCheckForObject | src/main/java/org/openstreetmap/atlas/checks/validation/tag/BadHighwayLinkCheck.java:70-76 | only an unflagged main edge whose tag is a configured link type is checked; a flagged identifier is never checked again |
| BadHighwayLink.BadHighwayLinkCheck.HighwayLinkLength | src/main/java/org/openstreetmap/atlas/checks/validation/tag/BadHighwayLinkCheck.java:167-175 | the loop returns the sum of the way's edge lengths |
| BadHighwayLink.BadHighwayLinkCheck.Flag | src/main/java/org/openstreetmap/atlas/checks/validation/tag/BadHighwayLinkCheck.java:96-150 | marks the identifier so that no object with it is checked again; fails exactly when, and with the failure that, the boundary look-ups raise; otherwise flags with instruction 0 iff the way is longer than 1000 metres |
| RoadLink.ConnectionCandidates | src/main/java/org/openstreetmap/atlas/checks/validation/linear/edges/RoadLinkCheck.java:155-159 | keeps exactly the connected main edges of other ways that are not links |
| RoadLink.ConnectionCandidatesAppend | src/main/java/org/openstreetmap/atlas/checks/validation/linear/edges/RoadLinkCheck.java:175-179 | the filter keeps the connected edges' order: filtering a concatenation gives the filtered first part followed by the filtered second part |
| RoadLink.ConnectionCandidatesLast | src/main/java/org/openstreetmap/atlas/checks/validation/linear/edges/RoadLinkCheck.java:155-159 | when the last connected edge is a candidate, it is the last candidate, the one the scan does not visit |
| RoadLink.Scan | src/main/java/org/openstreetmap/atlas/checks/validation/linear/edges/RoadLinkCheck.java:161-168 | the running best after the loop has visited the first k candidates: it starts at the first one and moves to a visited candidate only when the best so far is strictly less important |
| RoadLink.RunningBest | src/main/java/org/openstreetmap/atlas/checks/validation/linear/edges/RoadLinkCheck.java:161-168 | the loop's result: the scan stopped after all candidates but the last |
| RoadLink.RunningBestIsMostImportantVisited | src/main/java/org/openstreetmap/atlas/checks/validation/linear/edges/RoadLinkCheck.java:161-168 | the scan returns one of the candidates, and no candidate it visits is more important than that one |
| RoadLink.RunningBestIgnoresLast | src/main/java/org/openstreetmap/atlas/checks/validation/linear/edges/RoadLinkCheck.java:162 | replacing the last of two or more candidates never changes the result |
| RoadLink.RunningBestCanMissMostImportant | src/main/java/org/openstreetmap/atlas/checks/validation/linear/edges/RoadLinkCheck.java:161-168 | with a minor road followed by a more important one, the less important road is returned |
| RoadLink.LinkFromHighway | src/main/java/org/openstreetmap/atlas/checks/validation/linear/edges/RoadLinkCheck.java:142 | the text of the `Optional` link type, never null; it is "Optional.empty" iff the highway has no link type |
| RoadLink.SuggestLink | src/main/java/org/openstreetmap/atlas/checks/validation/linear/edges/RoadLinkCheck.java:138-150 | the rule equals "take the more important end, the start on a tie; suggest the text of its link type unless it has the current edge's classification"; there is no suggestion (null) iff the dominant end has that classification |
| RoadLink.MissingLinkStillSuggests | src/main/java/org/openstreetmap/atlas/checks/validation/linear/edges/RoadLinkCheck.java:147 | a dominant end of another classification whose highway has no link type still gives a non-null suggestion, "Optional.empty" |
| RoadLink.Combine | src/main/java/org/openstreetmap/atlas/checks/validation/linear/edges/RoadLinkCheck.java:65-82 | a flag is raised iff the length is known and over the maximum, or a link is suggested; its instruction is always 0 |
| RoadLink.RoadLinkCheck.constructor | src/main/java/org/openstreetmap/atlas/checks/validation/linear/edges/RoadLinkCheck.java:32-37 | the check keeps the configured maximum length and has flagged nothing |
| RoadLink.RoadLinkCheck.ValidCheckForObject | src/main/java/org/openstreetmap/atlas/checks/validation/linear/edges/RoadLinkCheck.java:40-44 | only an unflagged main edge whose highway tag is a link is checked; a flagged identifier is never checked again |
| RoadLink.RoadLinkCheck.LinkLength | src/main/java/org/openstreetmap/atlas/checks/validation/linear/edges/RoadLinkCheck.java:118-128 | completes iff the way is empty, with a null length; any edge raises a null-pointer failure |
| RoadLink.RoadLinkCheck.MostImportantConnection | src/main/java/org/openstreetmap/atlas/checks/validation/linear/edges/RoadLinkCheck.java:161-170 | no candidates raise an index failure; otherwise the loop returns the running best over all candidates but the last |
| RoadLink.RoadLinkCheck.StartingNodeHighwayConnection | src/main/java/org/openstreetmap/atlas/checks/validation/linear/edges/RoadLinkCheck.java:153-171 | an index failure for an empty way or no candidates at the first edge's start node; otherwise the scan's result over those candidates |
| RoadLink.RoadLinkCheck.EndingNodeHighwayConnection | src/main/java/org/openstreetmap/atlas/checks/validation/linear/edges/RoadLinkCheck.java:173-191 | the same, over the candidates at the end node of the first edge |
| RoadLink.RoadLinkCheck.LinkProperConnectionNameSuggestion | src/main/java/org/openstreetmap/atlas/checks/validation/linear/edges/RoadLinkCheck.java:130-151 | an index failure if either end has no candidate; otherwise the suggestion rule applied to the two scan results |
| RoadLink.RoadLinkCheck.Flag | src/main/java/org/openstreetmap/atlas/checks/validation/linear/edges/RoadLinkCheck.java:57-83 | marks the identifier so that no object with it is checked again; then always fails: an index failure for an empty way, a null-pointer failure otherwise |
| HighwayAccess.AccessVerdict | src/main/java/org/openstreetmap/atlas/checks/validation/tag/HighwayAccessCheck.java:90-104 | a flag needs an access tag of `yes` or `permissive`; instruction 0 iff also a motorway-like type, instruction 1 iff also a footway-like type, no flag otherwise |
| HighwayAccess.HighwayListsDisjoint | src/main/java/org/openstreetmap/atlas/checks/validation/tag/HighwayAccessCheck.java:26-28 | no highway type is both motorway-like and footway-like, so the two instructions never compete |
| HighwayAccess.AccessMatchIsCaseSensitive | src/main/java/org/openstreetmap/atlas/checks/validation/tag/HighwayAccessCheck.java:91 | `YES` does not match `yes`: a motorway with access `YES` is not flagged, with `yes` it is |
| HighwayAccess.HighwayAccessCheck.constructor | src/main/java/org/openstreetmap/atlas/checks/validation/tag/HighwayAccessCheck.java:46-49 | a freshly built check has flagged nothing |
| HighwayAccess.HighwayAccessCheck.ValidCheckForObject | src/main/java/org/openstreetmap/atlas/checks/validation/tag/HighwayAccessCheck.java:59-63 | only an unflagged main edge is checked; a flagged identifier is never checked again |
| HighwayAccess.HighwayAccessCheck.Flag | src/main/java/org/openstreetmap/atlas/checks/validation/tag/HighwayAccessCheck.java:83-105 | marks the identifier whatever the verdict, so that no object with it is checked again; the verdict is `AccessVerdict` of the object's access and highway tags |

## Left out

- Way reassembly (`OsmWayWalker.collectEdges`) and the natural ordering of edges used by
  `sorted()` are not modelled. `flag` receives the way as a sequence of edges already in that
  order. The length is proved independent of order (`Atlas.SumLengthsPermutation`).
- Node adjacency (`start().connectedEdges()`, `end().connectedEdges()`) is a parameter
  `connectedEdges` from node to edges. Nothing constrains it, so every graph is covered.
- RoadLinkCheck relies on `HighwayTag`'s own methods: importance, classification, `isLink` and
  `getLinkFromHighway`. They are given as parameters in `RoadLink.HighwayTags`. Their
  definitions in the Atlas library are not part of this model. An unknown highway value
  (`highwayTag()` failing) is not modelled.
- Lengths are unbounded reals in metres, summed exactly. `Distance` objects, double rounding
  and the miles-to-metres conversion are not modelled; only the one-mile default and the
  metres-per-mile constant are recorded; their product is the constructor's default maximum.
- `JavaUtil.ToLowerCase` maps only the ASCII letters A-Z. Java's locale-dependent Unicode case
  mapping is not modelled.
- `createFlag`, the instruction strings, localization and `getFallbackInstructions` are not
  modelled. A verdict is the instruction index, or none.
- Configuration loading is not modelled: the constructors take the configured values directly.
- The `BaseCheck` lifecycle and its concurrency are not modelled. The flagged-identifier set
  is a plain set owned by the check.
- BadHighwayLinkCheck loads the highway-type-to-link correspondence but never reads it; the
  model stores it and uses it nowhere.
- BadHighwayLinkCheck's unused helpers (`highwayLinkConnectionsCheck`,
  `highwayStartingNodeHighwayConnections`, `highwayEndingNodeHighwayConnections`) are never
  called, and do nothing observable beyond returning null (one of them first builds a filtered
  list it discards). They, and all commented-out code, are not modelled.
- BadHighwayLink.BadHighwayLinkCheck.Flag, RoadLink.RoadLinkCheck.Flag: both require a main
  edge. The framework calls `flag` only on objects `validCheckForObject` accepted, all main
  edges, so the cast to `Edge` cannot fail and `getMainEdge()` returns the edge itself.
- RoadLink.SuggestLink, RoadLink.LinkFromHighway: `HighwayTag.getLinkFromHighway` is taken to
  return a Java `Optional` whose text is `Optional[<link type>]` or `Optional.empty`. The Atlas
  library's `HighwayTag` is not part of this model, so this is an assumption about it; under
  it a suggestion is never null once the classifications differ.
