/** RoadLinkCheck: meant to flag a main link edge whose way is too long, or whose highway class
    does not match the most important road it leaves from or joins. The highway-tag knowledge
    it relies on (importance, classification, link of a highway) is passed in as `HighwayTags`. */
module RoadLink {
  import opened Atlas

  /** The default maximum length: one mile. */
  const DistanceMilesDefault: real := 1.0

  /** Metres in a mile; lengths are compared in metres throughout. */
  const MetresPerMile: real := 1609.344

  /** The maximum length the check uses when none is configured, in metres. */
  const MaximumLengthDefault: real := DistanceMilesDefault * MetresPerMile

  /** What the `HighwayTag` of an edge's highway tag answers: its importance `rank` (a smaller rank
      is more important), its `classification` (equal values are of equal classification), whether
      it is a link, and the text of its link type where it has one (`getLinkFromHighway` is
      empty for the others). */
  datatype HighwayTags = HighwayTags(
    rank: Option<string> -> int,
    classification: Option<string> -> int,
    isLink: Option<string> -> bool,
    links: map<Option<string>, string>)
  {
    predicate IsLessImportantThan(a: Edge, b: Edge) {
      rank(a.highwayTag) > rank(b.highwayTag)
    }

    predicate IsMoreImportantThan(a: Edge, b: Edge) {
      rank(a.highwayTag) < rank(b.highwayTag)
    }

    predicate IsMoreImportantThanOrEqualTo(a: Edge, b: Edge) {
      rank(a.highwayTag) <= rank(b.highwayTag)
    }

    predicate IsOfEqualClassification(a: Edge, b: Edge) {
      classification(a.highwayTag) == classification(b.highwayTag)
    }
  }

  /** The `connectedEdges()` filter of both node scans: a main, non-link edge of another OSM way. */
  predicate IsConnectionCandidate(e: Edge, osmId: int, tags: HighwayTags)
  {
    e.isMain && e.osmId != osmId && !tags.isLink(e.highwayTag)
  }

  /** The connection candidates among the edges connected at a node, in their order. */
  function ConnectionCandidates(connected: seq<Edge>, osmId: int, tags: HighwayTags): (r: seq<Edge>)
    ensures forall e :: e in r <==> e in connected && IsConnectionCandidate(e, osmId, tags)
    ensures |r| <= |connected|
  {
    if |connected| == 0 then []
    else
      assert forall x :: x in connected <==> x == connected[0] || x in connected[1..];
      (if IsConnectionCandidate(connected[0], osmId, tags) then [connected[0]] else [])
      + ConnectionCandidates(connected[1..], osmId, tags)
  }

  /** Filtering keeps the connected edges' order: the candidates of a concatenation are those of
      its first part followed by those of its second part. */
  lemma {:induction false} ConnectionCandidatesAppend(a: seq<Edge>, b: seq<Edge>, osmId: int, tags: HighwayTags)
    ensures ConnectionCandidates(a + b, osmId, tags)
         == ConnectionCandidates(a, osmId, tags) + ConnectionCandidates(b, osmId, tags)
    decreases |a|
  {
    if |a| == 0 {
      assert a + b == b;
    } else {
      assert (a + b)[0] == a[0];
      assert (a + b)[1..] == a[1..] + b;
      ConnectionCandidatesAppend(a[1..], b, osmId, tags);
    }
  }

  /** So when the last connected edge is a candidate, it is the last candidate, the one the
      node scan never visits. */
  lemma ConnectionCandidatesLast(connected: seq<Edge>, osmId: int, tags: HighwayTags)
    requires |connected| > 0 && IsConnectionCandidate(connected[|connected| - 1], osmId, tags)
    ensures var r := ConnectionCandidates(connected, osmId, tags);
      |r| > 0 && r[|r| - 1] == connected[|connected| - 1]
  {
    var n := |connected| - 1;
    assert connected == connected[..n] + [connected[n]];
    ConnectionCandidatesAppend(connected[..n], [connected[n]], osmId, tags);
    assert ConnectionCandidates([connected[n]], osmId, tags) == [connected[n]] by {
      assert [connected[n]][1..] == [];
    }
  }

  /** The running best after the loop of a node scan has looked at indices 0 .. k-1: it starts
      at the first candidate and moves to a candidate only when the best so far is strictly less
      important. */
  function Scan(candidates: seq<Edge>, k: nat, tags: HighwayTags): Edge
    requires k < |candidates|
  {
    if k == 0 then candidates[0]
    else
      var best := Scan(candidates, k - 1, tags);
      if tags.IsLessImportantThan(best, candidates[k - 1]) then candidates[k - 1] else best
  }

  /** The result of the loop, whose bound `size() - 1` leaves the last candidate unvisited. */
  function RunningBest(candidates: seq<Edge>, tags: HighwayTags): Edge
    requires |candidates| > 0
  {
    Scan(candidates, |candidates| - 1, tags)
  }

  lemma {:induction false} ScanIsVisitedCandidate(candidates: seq<Edge>, k: nat, tags: HighwayTags)
    requires k < |candidates|
    ensures Scan(candidates, k, tags) == candidates[0] ||
      exists j :: 0 <= j < k && Scan(candidates, k, tags) == candidates[j]
    ensures forall j :: 0 <= j < k ==> !tags.IsMoreImportantThan(candidates[j], Scan(candidates, k, tags))
  {
    if k > 0 {
      ScanIsVisitedCandidate(candidates, k - 1, tags);
    }
  }

  /** The scan returns one of the candidates, and none of the candidates it visits (all but the
      last) is more important than what it returns. */
  lemma RunningBestIsMostImportantVisited(candidates: seq<Edge>, tags: HighwayTags)
    requires |candidates| > 0
    ensures RunningBest(candidates, tags) in candidates
    ensures forall j :: 0 <= j < |candidates| - 1 ==>
      !tags.IsMoreImportantThan(candidates[j], RunningBest(candidates, tags))
  {
    ScanIsVisitedCandidate(candidates, |candidates| - 1, tags);
  }

  lemma {:induction false} ScanReadsOnlyVisited(a: seq<Edge>, b: seq<Edge>, k: nat, tags: HighwayTags)
    requires k < |a| && k < |b| && a[..k + 1] == b[..k + 1]
    ensures Scan(a, k, tags) == Scan(b, k, tags)
  {
    assert a[0] == a[..k + 1][0] && b[0] == b[..k + 1][0];
    if k > 0 {
      assert a[..k] == a[..k + 1][..k] && b[..k] == b[..k + 1][..k];
      ScanReadsOnlyVisited(a, b, k - 1, tags);
      assert a[k - 1] == a[..k + 1][k - 1] && b[k - 1] == b[..k + 1][k - 1];
    }
  }

  /** The last of two or more candidates is never considered: replacing it changes nothing. */
  lemma RunningBestIgnoresLast(candidates: seq<Edge>, last: Edge, tags: HighwayTags)
    requires |candidates| >= 2
    ensures RunningBest(candidates[..|candidates| - 1] + [last], tags) == RunningBest(candidates, tags)
  {
    var other := candidates[..|candidates| - 1] + [last];
    var k := |candidates| - 1;
    assert other[..k] == candidates[..k];
    ScanReadsOnlyVisited(other, candidates, k - 1, tags);
    assert Scan(other, k, tags) == Scan(candidates, k, tags) by {
      assert other[k - 1] == candidates[k - 1];
    }
  }

  /** So the scan can return a less important candidate than the last one. */
  lemma RunningBestCanMissMostImportant(minor: Edge, major: Edge, tags: HighwayTags)
    requires tags.IsMoreImportantThan(major, minor)
    ensures RunningBest([minor, major], tags) == minor
  {
    assert Scan([minor, major], 1, tags) == minor;
  }

  /** The edge the suggestion is drawn from: the more important of the two, the start on a tie. */
  function Dominant(startingEdge: Edge, endingEdge: Edge, tags: HighwayTags): Edge
  {
    if tags.IsMoreImportantThanOrEqualTo(startingEdge, endingEdge) then startingEdge else endingEdge
  }

  /** `getLinkFromHighway().toString()`: the text of a Java `Optional` holding the link type,
      which is "Optional.empty" for a highway without one. It is never null. */
  function LinkFromHighway(e: Edge, tags: HighwayTags): (r: string)
    ensures r == "Optional.empty" <==> e.highwayTag !in tags.links
  {
    if e.highwayTag in tags.links then
      var text := "Optional[" + tags.links[e.highwayTag] + "]";
      assert text[8] == '[' != "Optional.empty"[8];
      text
    else "Optional.empty"
  }

  /** `linkProperConnectionNameSuggestion` once both ends are known: suggest the link of the start
      edge if it is at least as important as the end edge and differs in classification from the
      current edge, otherwise the link of the end edge if it is more important and differs;
      otherwise no suggestion (null). */
  function SuggestLink(startingEdge: Edge, endingEdge: Edge, currentEdge: Edge, tags: HighwayTags): (r: Option<string>)
    ensures r == if tags.IsOfEqualClassification(Dominant(startingEdge, endingEdge, tags), currentEdge) then None
                 else Some(LinkFromHighway(Dominant(startingEdge, endingEdge, tags), tags))
    ensures r.None? <==> tags.IsOfEqualClassification(Dominant(startingEdge, endingEdge, tags), currentEdge)
  {
    if tags.IsMoreImportantThanOrEqualTo(startingEdge, endingEdge)
       && !tags.IsOfEqualClassification(startingEdge, currentEdge) then
      Some(LinkFromHighway(startingEdge, tags))
    else if tags.IsMoreImportantThan(endingEdge, startingEdge)
       && !tags.IsOfEqualClassification(endingEdge, currentEdge) then
      Some(LinkFromHighway(endingEdge, tags))
    else
      None
  }

  /** A dominant end whose highway has no link type still yields a suggestion: the text of the
      empty `Optional`, which is not null. */
  lemma MissingLinkStillSuggests(startingEdge: Edge, endingEdge: Edge, currentEdge: Edge, tags: HighwayTags)
    requires !tags.IsOfEqualClassification(Dominant(startingEdge, endingEdge, tags), currentEdge)
    requires Dominant(startingEdge, endingEdge, tags).highwayTag !in tags.links
    ensures SuggestLink(startingEdge, endingEdge, currentEdge, tags) == Some("Optional.empty")
  {
  }

  /** The verdict branches of `flag`: instruction 0 when the length is known and over the maximum,
      or a link is suggested; no flag otherwise. */
  function Combine(linkLength: Option<real>, suggestedLinkName: Option<string>, maximumLength: real): (r: Option<nat>)
    ensures r.Some? <==> (linkLength.Some? && linkLength.value > maximumLength) || suggestedLinkName.Some?
    ensures r.Some? ==> r.value == 0
  {
    if linkLength.Some? && linkLength.value > maximumLength && suggestedLinkName.Some? then Some(0)
    else if linkLength.Some? && linkLength.value > maximumLength then Some(0)
    else if suggestedLinkName.Some? then Some(0)
    else None
  }

  class RoadLinkCheck {
    /** The maximum link length, in metres. */
    const maximumLength: real
    const flags: FlagRegistry

    constructor(maximumLength: real := MaximumLengthDefault)
      ensures this.maximumLength == maximumLength
      ensures fresh(flags) && flags.ids == {}
    {
      this.maximumLength := maximumLength;
      flags := new FlagRegistry();
    }

    /** `validCheckForObject`: an unflagged main edge whose highway tag is a link. */
    predicate ValidCheckForObject(obj: AtlasObject, tags: HighwayTags)
      reads flags
      ensures ValidCheckForObject(obj, tags) ==>
        obj.EdgeObject? && tags.isLink(obj.edge.highwayTag) && obj.edge.isMain
      ensures obj.OsmIdentifier() in flags.ids ==> !ValidCheckForObject(obj, tags)
    {
      obj.EdgeObject? && tags.isLink(obj.edge.highwayTag)
      && obj.edge.isMain && !flags.IsFlagged(obj.OsmIdentifier())
    }

    /** `linkLength`: the accumulator starts as null and `add` is called on it for every edge of
        the way (its result is dropped), so only an empty way gets through, with a null length. */
    method LinkLength(way: seq<Edge>) returns (r: Result<Option<real>>)
      ensures r.Ok? <==> |way| == 0
      ensures r.Ok? ==> r.value == None
      ensures r.Err? ==> r.error == NullPointer
    {
      var highwayLength: Option<real> := None;
      for i := 0 to |way|
        invariant i == 0
      {
        // `add` is called on the accumulator; were it not null, the sum it returns would be dropped.
        if highwayLength.None? {
          return Err(NullPointer);
        }
      }
      return Ok(highwayLength);
    }

    /** The loop shared by `startingNodeHighwayConnection` and `endingNodeHighwayConnection`:
        `get(0)` raises on no candidates; otherwise the running best over all but the last. */
    method MostImportantConnection(candidates: seq<Edge>, tags: HighwayTags) returns (r: Result<Edge>)
      ensures r.Err? <==> |candidates| == 0
      ensures r.Err? ==> r.error == IndexOutOfBounds
      ensures r.Ok? ==> r.value == RunningBest(candidates, tags)
    {
      if |candidates| == 0 {
        return Err(IndexOutOfBounds);
      }
      var highest := candidates[0];
      var i := 0;
      while i < |candidates| - 1
        invariant 0 <= i <= |candidates| - 1
        invariant highest == Scan(candidates, i, tags)
      {
        if tags.IsLessImportantThan(highest, candidates[i]) {
          highest := candidates[i];
        }
        i := i + 1;
      }
      return Ok(highest);
    }

    /** `startingNodeHighwayConnection`: the scan over the candidates at the start node of the
        first edge of the sorted way. */
    method StartingNodeHighwayConnection(way: seq<Edge>, currentEdge: Edge, connectedEdges: NodeId -> seq<Edge>, tags: HighwayTags)
      returns (r: Result<Edge>)
      ensures |way| == 0 ==> r == Err(IndexOutOfBounds)
      ensures |way| > 0 ==>
        var candidates := ConnectionCandidates(connectedEdges(way[0].startNode), currentEdge.osmId, tags);
        r == if |candidates| == 0 then Err(IndexOutOfBounds) else Ok(RunningBest(candidates, tags))
    {
      if |way| == 0 {
        return Err(IndexOutOfBounds);
      }
      var startConnections := ConnectionCandidates(connectedEdges(way[0].startNode), currentEdge.osmId, tags);
      r := MostImportantConnection(startConnections, tags);
    }

    /** `endingNodeHighwayConnection`: the same scan over the candidates at the END node of the
        FIRST edge of the sorted way, not of its last edge. */
    method EndingNodeHighwayConnection(way: seq<Edge>, currentEdge: Edge, connectedEdges: NodeId -> seq<Edge>, tags: HighwayTags)
      returns (r: Result<Edge>)
      ensures |way| == 0 ==> r == Err(IndexOutOfBounds)
      ensures |way| > 0 ==>
        var candidates := ConnectionCandidates(connectedEdges(way[0].endNode), currentEdge.osmId, tags);
        r == if |candidates| == 0 then Err(IndexOutOfBounds) else Ok(RunningBest(candidates, tags))
    {
      if |way| == 0 {
        return Err(IndexOutOfBounds);
      }
      var endConnections := ConnectionCandidates(connectedEdges(way[0].endNode), currentEdge.osmId, tags);
      r := MostImportantConnection(endConnections, tags);
    }

    /** `linkProperConnectionNameSuggestion`: both scans, then the suggestion rule. */
    method LinkProperConnectionNameSuggestion(currentEdge: Edge, way: seq<Edge>, connectedEdges: NodeId -> seq<Edge>, tags: HighwayTags)
      returns (r: Result<Option<string>>)
      ensures |way| == 0 ==> r == Err(IndexOutOfBounds)
      ensures |way| > 0 ==>
        var starts := ConnectionCandidates(connectedEdges(way[0].startNode), currentEdge.osmId, tags);
        var ends := ConnectionCandidates(connectedEdges(way[0].endNode), currentEdge.osmId, tags);
        r == if |starts| == 0 || |ends| == 0 then Err(IndexOutOfBounds)
             else Ok(SuggestLink(RunningBest(starts, tags), RunningBest(ends, tags), currentEdge, tags))
    {
      var startingEdge := StartingNodeHighwayConnection(way, currentEdge, connectedEdges, tags);
      if startingEdge.Err? {
        return Err(startingEdge.error);
      }
      var endingEdge := EndingNodeHighwayConnection(way, currentEdge, connectedEdges, tags);
      if endingEdge.Err? {
        return Err(endingEdge.error);
      }
      r := Ok(SuggestLink(startingEdge.value, endingEdge.value, currentEdge, tags));
    }

    /** `flag` for a main edge, given its way (the walker's edges in sorted order) and the edges
        connected at each node. The OSM id is marked first. As written it never returns a
        verdict: the length fails on every non-empty way, and the suggestion on an empty one. */
    method Flag(edge: Edge, way: seq<Edge>, connectedEdges: NodeId -> seq<Edge>, tags: HighwayTags)
      returns (r: Result<Option<nat>>)
      requires edge.isMain
      modifies flags
      ensures flags.ids == old(flags.ids) + {edge.osmId}
      ensures forall o: AtlasObject :: o.OsmIdentifier() == edge.osmId ==> !ValidCheckForObject(o, tags)
      ensures r == if |way| == 0 then Err(IndexOutOfBounds) else Err(NullPointer)
    {
      flags.MarkAsFlagged(edge.osmId);
      var linkLength := LinkLength(way);
      if linkLength.Err? {
        return Err(linkLength.error);
      }
      var length := linkLength.value;
      var suggestedLinkName := LinkProperConnectionNameSuggestion(edge, way, connectedEdges, tags);
      r := match suggestedLinkName
        case Err(f) => Err(f)
        case Ok(name) => Ok(Combine(length, name, maximumLength));
    }
  }
}
