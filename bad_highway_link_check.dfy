/** BadHighwayLinkCheck: flags a main edge tagged as a highway link (motorway_link, trunk_link, ...)
    whose whole way is longer than 1000 metres. On the way it looks up the boundary roads at
    both ends of the way and the most important highway type among them; those look-ups can
    raise, but their results never reach the verdict. */
module BadHighwayLink {
  import opened Atlas
  import opened JavaUtil

  const HighwayLinksDefault: seq<string> :=
    ["motorway_link", "trunk_link", "primary_link", "secondary_link", "tertiary_link"]

  const HighwayTypesPriorityDefault: seq<string> :=
    ["motorway", "trunk", "primary", "secondary", "tertiary", "unclassified", "residential"]

  const HighwayTypesAndLinksCorrespondenceDefault: map<string, string> :=
    map["motorway" := "motorway_link", "trunk" := "trunk_link", "primary" := "primary_link",
        "secondary" := "secondary_link", "tertiary" := "tertiary_link"]

  /** The fixed length, in metres, above which the way is flagged. */
  const MaximumLinkLength: real := 1000.0

  /** The default correspondence pairs each of the first five priority types with the
      default link type at the same position. */
  lemma DefaultCorrespondence()
    ensures forall i :: 0 <= i < 5 ==>
      HighwayTypesPriorityDefault[i] in HighwayTypesAndLinksCorrespondenceDefault &&
      HighwayTypesAndLinksCorrespondenceDefault[HighwayTypesPriorityDefault[i]] == HighwayLinksDefault[i]
  {
  }

  /** `highwayIsLink`: the tag is present and its lower-cased form is a configured link type. */
  predicate HighwayIsLink(tag: Option<string>, linkTypes: seq<string>)
  {
    tag.Some? && ToLowerCase(tag.value) in linkTypes
  }

  /** The test ignores case: a tag is a link exactly when its lower-cased form is. */
  lemma HighwayIsLinkIgnoresCase(tag: string, linkTypes: seq<string>)
    ensures HighwayIsLink(Some(tag), linkTypes) <==> HighwayIsLink(Some(ToLowerCase(tag)), linkTypes)
  {
    ToLowerCaseIdempotent(tag);
  }

  /** A tag ending in "_link" contains it. */
  lemma EndingInLinkContainsLink(t: string)
    requires |t| >= 5 && t[|t| - 5..] == "_link"
    ensures StringContains(t, "_link")
  {
    assert OccursAt(t, "_link", |t| - 5);
    StringContainsIff(t, "_link");
  }

  /** Under the default list, a tag is a link exactly when, lower-cased, it is one of the five
      `*_link` values, and then its lower-cased form contains "_link". */
  lemma DefaultHighwayIsLink(tag: Option<string>)
    ensures HighwayIsLink(tag, HighwayLinksDefault) <==>
      tag.Some? && ToLowerCase(tag.value) in {"motorway_link", "trunk_link", "primary_link", "secondary_link", "tertiary_link"}
    ensures HighwayIsLink(tag, HighwayLinksDefault) ==> StringContains(ToLowerCase(tag.value), "_link")
  {
    if HighwayIsLink(tag, HighwayLinksDefault) {
      var t := ToLowerCase(tag.value);
      if t == "motorway_link" {
        EndingInLinkContainsLink("motorway_link");
      } else if t == "trunk_link" {
        EndingInLinkContainsLink("trunk_link");
      } else if t == "primary_link" {
        EndingInLinkContainsLink("primary_link");
      } else if t == "secondary_link" {
        EndingInLinkContainsLink("secondary_link");
      } else {
        assert t == "tertiary_link";
        EndingInLinkContainsLink("tertiary_link");
      }
    }
  }

  /** The filter on `inEdges` and `outEdges` in `flag`: a main edge of another OSM way whose
      highway tag does not contain "_link". */
  predicate IsBoundaryCandidate(e: Edge, osmId: int)
  {
    e.isMain && e.osmId != osmId && e.highwayTag.Some? && !StringContains(e.highwayTag.value, "_link")
  }

  /** A main edge of another OSM way without a highway tag: `contains` is called on null. */
  predicate MissesHighwayTag(e: Edge, osmId: int)
  {
    e.isMain && e.osmId != osmId && e.highwayTag.None?
  }

  /** The boundary candidates among the edges connected at a node, in their order. */
  function BoundaryFilter(connected: seq<Edge>, osmId: int): (r: seq<Edge>)
    ensures forall e :: e in r <==> e in connected && IsBoundaryCandidate(e, osmId)
    ensures |r| <= |connected|
  {
    if |connected| == 0 then []
    else
      assert forall x :: x in connected <==> x == connected[0] || x in connected[1..];
      (if IsBoundaryCandidate(connected[0], osmId) then [connected[0]] else [])
      + BoundaryFilter(connected[1..], osmId)
  }

  /** Filtering keeps the connected edges' order: the candidates of a concatenation are those of
      its first part followed by those of its second part. */
  lemma {:induction false} BoundaryFilterAppend(a: seq<Edge>, b: seq<Edge>, osmId: int)
    ensures BoundaryFilter(a + b, osmId) == BoundaryFilter(a, osmId) + BoundaryFilter(b, osmId)
    decreases |a|
  {
    if |a| == 0 {
      assert a + b == b;
    } else {
      assert (a + b)[0] == a[0];
      assert (a + b)[1..] == a[1..] + b;
      BoundaryFilterAppend(a[1..], b, osmId);
    }
  }

  /** The `inEdges` and `outEdges` streams of `flag`: `contains` on the missing tag of a main edge
      of another way raises, and otherwise the boundary candidates are collected. */
  function BoundaryCandidates(connected: seq<Edge>, osmId: int): (r: Result<seq<Edge>>)
    ensures r.Err? <==> exists e :: e in connected && MissesHighwayTag(e, osmId)
    ensures r.Err? ==> r.error == NullPointer
    ensures r.Ok? ==> forall e :: e in r.value <==> e in connected && IsBoundaryCandidate(e, osmId)
    ensures r.Ok? ==> |r.value| <= |connected|
  {
    if exists e :: e in connected && MissesHighwayTag(e, osmId) then Err(NullPointer)
    else Ok(BoundaryFilter(connected, osmId))
  }

  /** A tag without a lower-case 'l' cannot contain "_link". */
  lemma NoLinkWithoutLowerL(t: string)
    requires forall j :: 0 <= j < |t| ==> t[j] != 'l'
    ensures !StringContains(t, "_link")
  {
    StringContainsIff(t, "_link");
    forall i | 0 <= i && i + 5 <= |t| ensures !OccursAt(t, "_link", i) {
      assert t[i..i + 5][1] == t[i + 1];
    }
  }

  /** An upper-case link tag is a link for `highwayIsLink` but passes the case-sensitive
      "_link" filter, so such an edge counts as a boundary road of another link. */
  lemma UpperCaseLinkIsBoundaryCandidate(e: Edge, osmId: int)
    requires e.isMain && e.osmId != osmId && e.highwayTag == Some("MOTORWAY_LINK")
    ensures HighwayIsLink(e.highwayTag, HighwayLinksDefault)
    ensures IsBoundaryCandidate(e, osmId)
  {
    var t := "MOTORWAY_LINK";
    assert ToLowerCase(t) == "motorway_link";
    assert forall j :: 0 <= j < |t| ==> t[j] != 'l';
    NoLinkWithoutLowerL(t);
  }

  /** The priority index of a tag as `highwayTypesPriorityList.indexOf(tag)` in `flag` computes it:
      exact match, and -1 for a tag that is
      absent or not listed. */
  function ExactPriorityIndex(priority: seq<string>, tag: Option<string>): int
  {
    match tag
    case None => -1
    case Some(t) => IndexOf(priority, t)
  }

  /** The tags of `edges` turned into priority indexes by `index`, in order. */
  function TagIndexes(edges: seq<Edge>, index: Edge -> int): (r: seq<int>)
    ensures |r| == |edges|
    ensures forall i :: 0 <= i < |edges| ==> r[i] == index(edges[i])
    ensures forall e :: e in edges ==> index(e) in r
  {
    if |edges| == 0 then []
    else
      assert forall e :: e in edges ==> e == edges[0] || e in edges[1..];
      [index(edges[0])] + TagIndexes(edges[1..], index)
  }

  /** `highestPriorityHighway` in `flag`: the priority type at the smallest index among the start
      candidates' tags.
      `get(0)` on an empty list and `get(-1)` for an unlisted tag both raise. */
  function StartHighestPriority(inEdges: seq<Edge>, priority: seq<string>): (r: Result<string>)
    ensures r.Err? <==> |inEdges| == 0 || exists e :: e in inEdges && ExactPriorityIndex(priority, e.highwayTag) == -1
    ensures r.Err? ==> r.error == IndexOutOfBounds
    ensures r.Ok? ==> exists e :: e in inEdges && e.highwayTag == Some(r.value)
    ensures r.Ok? ==> forall e :: e in inEdges ==> IndexOf(priority, r.value) <= ExactPriorityIndex(priority, e.highwayTag)
  {
    if |inEdges| == 0 then Err(IndexOutOfBounds)
    else
      var indexes := TagIndexes(inEdges, (e: Edge) => ExactPriorityIndex(priority, e.highwayTag));
      var m := Minimum(indexes);
      var k :| 0 <= k < |inEdges| && indexes[k] == m;
      if m < 0 then Err(IndexOutOfBounds)
      else
        assert inEdges[k].highwayTag == Some(priority[m]);
        Ok(priority[m])
  }

  /** The priority index of a candidate's tag as `highwayTypesPriorityList.indexOf(tag.toLowerCase())`
      computes it. */
  function LowerPriorityIndex(priority: seq<string>, e: Edge): int
  {
    match e.highwayTag
    case None => -1
    case Some(t) => IndexOf(priority, ToLowerCase(t))
  }

  /** An edge `highestPriorityHighwayConnectingToTheLink` cannot rank: no tag (null is lower-cased) or a
      lower-cased tag missing from the priority list (index -1, which `get` rejects). */
  predicate Unrankable(e: Edge, priority: seq<string>)
  {
    e.highwayTag.None? || ToLowerCase(e.highwayTag.value) !in priority
  }

  /** `highestPriorityHighwayConnectingToTheLink`: the priority type with the smallest index
      among the candidates' lower-cased tags; null (`None`) for no candidates. */
  function HighestPriorityHighwayConnectingToTheLink(boundary: seq<Edge>, priority: seq<string>): (r: Result<Option<string>>)
    ensures |boundary| == 0 ==> r == Ok(None)
    ensures r.Err? <==> exists e :: e in boundary && Unrankable(e, priority)
    ensures r.Err? ==> r.error == if exists e :: e in boundary && e.highwayTag.None? then NullPointer else IndexOutOfBounds
    ensures r.Ok? && |boundary| > 0 ==> r.value.Some? && r.value.value in priority
    ensures r.Ok? && |boundary| > 0 ==>
      exists e :: e in boundary && e.highwayTag.Some? && ToLowerCase(e.highwayTag.value) == r.value.value
    ensures r.Ok? && |boundary| > 0 ==>
      forall e :: e in boundary ==> IndexOf(priority, r.value.value) <= LowerPriorityIndex(priority, e)
  {
    if |boundary| == 0 then Ok(None)
    else if exists e :: e in boundary && e.highwayTag.None? then Err(NullPointer)
    else
      var indexes := TagIndexes(boundary, (e: Edge) => LowerPriorityIndex(priority, e));
      var m := Minimum(indexes);
      var k :| 0 <= k < |boundary| && indexes[k] == m;
      if m < 0 then
        assert Unrankable(boundary[k], priority);
        Err(IndexOutOfBounds)
      else
        assert ToLowerCase(boundary[k].highwayTag.value) == priority[m];
        Ok(Some(priority[m]))
  }

  /** The look-up does not depend on the order of the candidates (the indexes are sorted), nor
      on repeated candidates. */
  lemma HighestPriorityIgnoresOrder(a: seq<Edge>, b: seq<Edge>, priority: seq<string>)
    requires forall e :: e in a <==> e in b
    ensures HighestPriorityHighwayConnectingToTheLink(a, priority) == HighestPriorityHighwayConnectingToTheLink(b, priority)
  {
    if |a| > 0 { assert a[0] in a; }
    if |b| > 0 { assert b[0] in b; }
    if |a| > 0 {
      SameUnrankable(a, b, priority);
      SameUnrankable(b, a, priority);
      if forall e :: e in a ==> !Unrankable(e, priority) {
        SameHighestPriority(a, b, priority);
      }
    }
  }

  lemma SameUnrankable(a: seq<Edge>, b: seq<Edge>, priority: seq<string>)
    requires forall e :: e in a ==> e in b
    ensures (exists e :: e in a && Unrankable(e, priority)) ==> (exists e :: e in b && Unrankable(e, priority))
    ensures (exists e :: e in a && e.highwayTag.None?) ==> (exists e :: e in b && e.highwayTag.None?)
  {
    if exists e :: e in a && Unrankable(e, priority) {
      var e :| e in a && Unrankable(e, priority);
      assert e in b;
    }
    if exists e :: e in a && e.highwayTag.None? {
      var e :| e in a && e.highwayTag.None?;
      assert e in b;
    }
  }

  lemma SameHighestPriority(a: seq<Edge>, b: seq<Edge>, priority: seq<string>)
    requires forall e :: e in a <==> e in b
    requires |a| > 0
    requires forall e :: e in a ==> !Unrankable(e, priority)
    ensures HighestPriorityHighwayConnectingToTheLink(a, priority) == HighestPriorityHighwayConnectingToTheLink(b, priority)
  {
    assert a[0] in b;
    assert forall e :: e in b ==> !Unrankable(e, priority);
    var ra := HighestPriorityHighwayConnectingToTheLink(a, priority);
    var rb := HighestPriorityHighwayConnectingToTheLink(b, priority);
    var ta, tb := ra.value.value, rb.value.value;
    var ea :| ea in a && ea.highwayTag.Some? && ToLowerCase(ea.highwayTag.value) == ta;
    var eb :| eb in b && eb.highwayTag.Some? && ToLowerCase(eb.highwayTag.value) == tb;
    assert LowerPriorityIndex(priority, eb) == IndexOf(priority, tb);
    assert LowerPriorityIndex(priority, ea) == IndexOf(priority, ta);
    assert eb in a && ea in b;
    var ia, ib := IndexOf(priority, ta), IndexOf(priority, tb);
    assert ia <= ib && ib <= ia;
    assert ta == priority[ia] == priority[ib] == tb;
  }

  /** The steps of `flag` before its length test, from sorting the way to the look-up of
      `outHighestPriority`, as the exception they raise. */
  function BoundaryLookupFailure(osmId: int, way: seq<Edge>, connectedEdges: NodeId -> seq<Edge>, priority: seq<string>): Option<Failure>
  {
    if |way| == 0 then Some(IndexOutOfBounds)
    else
      match BoundaryCandidates(connectedEdges(way[0].startNode), osmId)
      case Err(f) => Some(f)
      case Ok(inEdges) =>
        match StartHighestPriority(inEdges, priority)
        case Err(f) => Some(f)
        case Ok(_) =>
          match BoundaryCandidates(connectedEdges(way[|way| - 1].endNode), osmId)
          case Err(f) => Some(f)
          case Ok(outEdges) =>
            match HighestPriorityHighwayConnectingToTheLink(outEdges, priority)
            case Err(f) => Some(f)
            case Ok(_) => None
  }

  /** `flag` completes exactly when the way is non-empty, every main edge of another way at
      both boundary nodes has a highway tag, the start node has a candidate, and every
      candidate tag is listed: exactly at the start, lower-cased at the end. */
  lemma BoundaryLookupSucceedsIff(osmId: int, way: seq<Edge>, connectedEdges: NodeId -> seq<Edge>, priority: seq<string>)
    ensures BoundaryLookupFailure(osmId, way, connectedEdges, priority).None? <==>
      |way| > 0 &&
      (forall e :: e in connectedEdges(way[0].startNode) ==> !MissesHighwayTag(e, osmId)) &&
      (exists e :: e in connectedEdges(way[0].startNode) && IsBoundaryCandidate(e, osmId)) &&
      (forall e :: e in connectedEdges(way[0].startNode) && IsBoundaryCandidate(e, osmId) ==>
         e.highwayTag.value in priority) &&
      (forall e :: e in connectedEdges(way[|way| - 1].endNode) ==> !MissesHighwayTag(e, osmId)) &&
      (forall e :: e in connectedEdges(way[|way| - 1].endNode) && IsBoundaryCandidate(e, osmId) ==>
         ToLowerCase(e.highwayTag.value) in priority)
  {
    if |way| > 0 {
      var ins := BoundaryCandidates(connectedEdges(way[0].startNode), osmId);
      var outs := BoundaryCandidates(connectedEdges(way[|way| - 1].endNode), osmId);
      if ins.Ok? && |ins.value| > 0 {
        assert ins.value[0] in ins.value;
      }
    }
  }

  class BadHighwayLinkCheck {
    const highwayLinksTypesList: seq<string>
    const highwayTypesPriorityList: seq<string>
    /** Loaded from the configuration but never read by the check. */
    const highwayTypesAndLinksCorrespondence: map<string, string>
    const flags: FlagRegistry

    constructor(linkTypes: seq<string>, priority: seq<string>, correspondence: map<string, string>)
      ensures highwayLinksTypesList == linkTypes && highwayTypesPriorityList == priority
      ensures highwayTypesAndLinksCorrespondence == correspondence
      ensures fresh(flags) && flags.ids == {}
    {
      highwayLinksTypesList := linkTypes;
      highwayTypesPriorityList := priority;
      highwayTypesAndLinksCorrespondence := correspondence;
      flags := new FlagRegistry();
    }

    /** `validCheckForObject`: an unflagged main edge whose highway tag is a link. */
    predicate ValidCheckForObject(obj: AtlasObject)
      reads flags
      ensures ValidCheckForObject(obj) ==>
        obj.EdgeObject? && obj.edge.isMain && HighwayIsLink(obj.edge.highwayTag, highwayLinksTypesList)
      ensures obj.OsmIdentifier() in flags.ids ==> !ValidCheckForObject(obj)
    {
      !flags.IsFlagged(obj.OsmIdentifier())
      && (obj.EdgeObject? && obj.edge.isMain)
      && HighwayIsLink(obj.edge.highwayTag, highwayLinksTypesList)
    }

    /** `highwayLinkLength`: the lengths of the way's edges added to 0.0. */
    method HighwayLinkLength(edges: seq<Edge>) returns (highwayLength: real)
      ensures highwayLength == SumLengths(edges)
    {
      highwayLength := 0.0;
      for i := 0 to |edges|
        invariant highwayLength == SumLengths(edges[..i])
      {
        assert edges[..i + 1][..i] == edges[..i];
        highwayLength := highwayLength + edges[i].length;
      }
      assert edges[..|edges|] == edges;
    }

    /** `flag` for a main edge, given its way (the walker's edges in sorted order) and the
        edges connected at each node. The OSM id is marked first; the boundary look-ups may
        raise; otherwise the verdict is instruction 0 exactly when the way is longer than
        1000 metres. */
    method Flag(edge: Edge, way: seq<Edge>, connectedEdges: NodeId -> seq<Edge>) returns (r: Result<Option<nat>>)
      requires edge.isMain
      modifies flags
      ensures flags.ids == old(flags.ids) + {edge.osmId}
      ensures forall o: AtlasObject :: o.OsmIdentifier() == edge.osmId ==> !ValidCheckForObject(o)
      ensures r.Err? <==> BoundaryLookupFailure(edge.osmId, way, connectedEdges, highwayTypesPriorityList).Some?
      ensures r.Err? ==> r.error == BoundaryLookupFailure(edge.osmId, way, connectedEdges, highwayTypesPriorityList).value
      ensures r.Ok? ==> r.value == if SumLengths(way) > MaximumLinkLength then Some(0) else None
    {
      flags.MarkAsFlagged(edge.osmId);
      if |way| == 0 {
        return Err(IndexOutOfBounds);
      }
      var inEdges := BoundaryCandidates(connectedEdges(way[0].startNode), edge.osmId);
      if inEdges.Err? {
        return Err(inEdges.error);
      }
      var highestPriorityHighway := StartHighestPriority(inEdges.value, highwayTypesPriorityList);
      if highestPriorityHighway.Err? {
        return Err(highestPriorityHighway.error);
      }
      var outEdges := BoundaryCandidates(connectedEdges(way[|way| - 1].endNode), edge.osmId);
      if outEdges.Err? {
        return Err(outEdges.error);
      }
      var outHighestPriority := HighestPriorityHighwayConnectingToTheLink(outEdges.value, highwayTypesPriorityList);
      if outHighestPriority.Err? {
        return Err(outHighestPriority.error);
      }
      var length := HighwayLinkLength(way);
      if length > MaximumLinkLength {
        return Ok(Some(0));
      }
      return Ok(None);
    }
  }
}
