/** The few Java library operations the checks' decisions rest on: `String.toLowerCase`,
    `String.contains`, `List.indexOf`, and the smallest element that `Collections.sort`
    followed by `get(0)` yields. */
module JavaUtil {

  /** Lower-cases one character; only the ASCII letters A-Z are mapped. */
  function LowerChar(c: char): char
  {
    if 'A' <= c <= 'Z' then (c as int + 32) as char else c
  }

  function ToLowerCase(s: string): string
  {
    seq(|s|, i requires 0 <= i < |s| => LowerChar(s[i]))
  }

  /** Lower-casing twice is lower-casing once. */
  lemma ToLowerCaseIdempotent(s: string)
    ensures ToLowerCase(ToLowerCase(s)) == ToLowerCase(s)
  {
  }

  /** `sub` occurs in `s` starting at position `i`. */
  ghost predicate OccursAt(s: string, sub: string, i: int)
  {
    0 <= i && i + |sub| <= |s| && s[i..i + |sub|] == sub
  }

  /** `String.contains`: tries every starting position from the left. */
  function StringContains(s: string, sub: string): bool
    decreases |s|
  {
    if sub <= s then true
    else if |s| == 0 then false
    else StringContains(s[1..], sub)
  }

  /** `StringContains` holds exactly when `sub` occurs somewhere in `s`. */
  lemma {:induction false} StringContainsIff(s: string, sub: string)
    ensures StringContains(s, sub) <==> exists i :: OccursAt(s, sub, i)
    decreases |s|
  {
    if sub <= s {
      assert OccursAt(s, sub, 0);
    } else if |s| > 0 {
      StringContainsIff(s[1..], sub);
      if StringContains(s[1..], sub) {
        var i :| OccursAt(s[1..], sub, i);
        assert s[1..][i..i + |sub|] == s[i + 1..i + 1 + |sub|];
        assert OccursAt(s, sub, i + 1);
      } else {
        forall i | 0 < i && i + |sub| <= |s| ensures !OccursAt(s, sub, i) {
          assert !OccursAt(s[1..], sub, i - 1);
          assert s[1..][i - 1..i - 1 + |sub|] == s[i..i + |sub|];
        }
        assert !OccursAt(s, sub, 0);
      }
    }
  }

  /** `List.indexOf`: the first position holding `x`, or -1 when there is none. */
  function IndexOf<T(==)>(list: seq<T>, x: T): (r: int)
    ensures -1 <= r < |list|
    ensures r == -1 <==> x !in list
    ensures r >= 0 ==> list[r] == x && forall j :: 0 <= j < r ==> list[j] != x
  {
    if |list| == 0 then -1
    else if list[0] == x then 0
    else
      var k := IndexOf(list[1..], x);
      if k == -1 then -1 else k + 1
  }

  /** The element a sort in ascending order puts first. */
  function Minimum(s: seq<int>): (r: int)
    requires |s| > 0
    ensures r in s
    ensures forall x :: x in s ==> r <= x
  {
    if |s| == 1 then s[0]
    else
      var m := Minimum(s[1..]);
      assert forall x :: x in s ==> x == s[0] || x in s[1..];
      if s[0] <= m then s[0] else m
  }

  /** The minimum depends only on which values occur, not on their order or multiplicity. */
  lemma MinimumOfSameValues(a: seq<int>, b: seq<int>)
    requires |a| > 0
    requires forall x :: x in a <==> x in b
    ensures |b| > 0 && Minimum(a) == Minimum(b)
  {
    assert a[0] in a;
    assert Minimum(a) in b && Minimum(b) in a;
  }
}
