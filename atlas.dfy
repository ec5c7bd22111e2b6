/** The Atlas entities the three checks read, the exceptions their code can raise, and the
    "already flagged" registry that every check shares through its base class. */
module Atlas {

  datatype Option<+T> = None | Some(value: T)

  /** The Java exceptions the modelled code can raise. */
  datatype Failure = NullPointer | IndexOutOfBounds

  /** A completed computation, or the exception that ended it. */
  datatype Result<+T> = Ok(value: T) | Err(error: Failure)

  type NodeId = int

  /** An Atlas edge as the checks see it: its identifiers, whether it is the main
      (positive-identifier) direction, its `highway` and `access` tags (absent tags are `None`),
      its length in metres and the nodes it starts and ends at. */
  datatype Edge = Edge(
    id: int,
    osmId: int,
    isMain: bool,
    highwayTag: Option<string>,
    accessTag: Option<string>,
    length: real,
    startNode: NodeId,
    endNode: NodeId)

  /** The object the framework hands to a check: an edge, or any other Atlas item. */
  datatype AtlasObject =
    | EdgeObject(edge: Edge)
    | OtherObject(otherOsmId: int, otherHighway: Option<string>, otherAccess: Option<string>)
  {
    function OsmIdentifier(): int {
      if EdgeObject? then edge.osmId else otherOsmId
    }

    function HighwayTag(): Option<string> {
      if EdgeObject? then edge.highwayTag else otherHighway
    }

    function AccessTag(): Option<string> {
      if EdgeObject? then edge.accessTag else otherAccess
    }
  }

  /** The set of OSM identifiers a check has already flagged. */
  class FlagRegistry {
    var ids: set<int>

    constructor()
      ensures ids == {}
    {
      ids := {};
    }

    predicate IsFlagged(osmId: int)
      reads this
    {
      osmId in ids
    }

    method MarkAsFlagged(osmId: int)
      modifies this
      ensures ids == old(ids) + {osmId}
    {
      ids := ids + {osmId};
    }
  }

  /** The lengths of `edges` added up from the front, as a loop over them does. */
  function SumLengths(edges: seq<Edge>): real
  {
    if |edges| == 0 then 0.0 else SumLengths(edges[..|edges| - 1]) + edges[|edges| - 1].length
  }

  lemma {:induction false} SumLengthsAppend(a: seq<Edge>, b: seq<Edge>)
    ensures SumLengths(a + b) == SumLengths(a) + SumLengths(b)
    decreases |b|
  {
    if |b| == 0 {
      assert a + b == a;
    } else {
      assert (a + b)[..|a + b| - 1] == a + b[..|b| - 1];
      SumLengthsAppend(a, b[..|b| - 1]);
    }
  }

  /** Edge lengths are distances, so the total of a way is never negative. */
  lemma {:induction false} SumLengthsNonNegative(edges: seq<Edge>)
    requires forall e :: e in edges ==> e.length >= 0.0
    ensures SumLengths(edges) >= 0.0
    decreases |edges|
  {
    if |edges| > 0 {
      assert forall e :: e in edges[..|edges| - 1] ==> e in edges;
      SumLengthsNonNegative(edges[..|edges| - 1]);
      assert edges[|edges| - 1] in edges;
    }
  }

  /** Taking one edge out of a sequence takes its length off the total. */
  lemma SumLengthsRemove(b: seq<Edge>, j: int)
    requires 0 <= j < |b|
    ensures SumLengths(b) == SumLengths(b[..j] + b[j + 1..]) + b[j].length
  {
    var upTo, back := b[..j + 1], b[j + 1..];
    assert b == upTo + back;
    SumLengthsAppend(upTo, back);
    assert upTo[..j] == b[..j];
    assert SumLengths(upTo) == SumLengths(b[..j]) + b[j].length;
    SumLengthsAppend(b[..j], back);
  }

  /** The total does not depend on the order the edges are visited in: the walker hands
      the edges over as a set, whose iteration order is unspecified. */
  lemma {:induction false} SumLengthsPermutation(a: seq<Edge>, b: seq<Edge>)
    requires multiset(a) == multiset(b)
    ensures SumLengths(a) == SumLengths(b)
    decreases |a|
  {
    if |a| == 0 {
      assert |b| == |multiset(b)| == 0;
    } else {
      var n := |a| - 1;
      var x := a[n];
      assert a == a[..n] + [x];
      assert x in multiset(b);
      var j :| 0 <= j < |b| && b[j] == x;
      var rest := b[..j] + b[j + 1..];
      assert multiset(a[..n]) == multiset(rest) by {
        assert b == b[..j] + [x] + b[j + 1..];
        assert multiset(b) == multiset(b[..j]) + multiset{x} + multiset(b[j + 1..]);
        assert multiset(rest) == multiset(b[..j]) + multiset(b[j + 1..]);
        assert multiset(a) == multiset(a[..n]) + multiset{x};
        assert multiset(a[..n]) == multiset(a) - multiset{x};
        assert multiset(rest) == multiset(b) - multiset{x};
      }
      SumLengthsPermutation(a[..n], rest);
      SumLengthsRemove(b, j);
    }
  }
}
