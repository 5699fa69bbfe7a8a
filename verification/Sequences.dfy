/** The few facts about vectors that the tracker relies on: `std::find`, swap-and-pop,
    `std::sort` and `std::max_element`, each with what it promises. */
module Sequences {

  ghost predicate NoDup<T>(s: seq<T>) {
    forall i, j :: 0 <= i < j < |s| ==> s[i] != s[j]
  }

  /** Strictly ascending. */
  ghost predicate Ascending(s: seq<nat>) {
    forall i, j :: 0 <= i < j < |s| ==> s[i] < s[j]
  }

  ghost function Elems<T>(s: seq<T>): set<T> {
    set x | x in s
  }

  /** `std::find`: the first position of `x`, or the length when there is none. */
  function IndexOf<T(==)>(s: seq<T>, x: T): (i: nat)
    ensures i <= |s|
    ensures i == |s| <==> x !in s
    ensures i < |s| ==> s[i] == x
    ensures forall k :: 0 <= k < i ==> s[k] != x
  {
    if s == [] || s[0] == x then 0 else 1 + IndexOf(s[1..], x)
  }

  /** Erase one occurrence of `x` by moving the last element into its place. */
  function SwapPop<T(==)>(s: seq<T>, x: T): seq<T> {
    var i := IndexOf(s, x);
    if i == |s| then s else s[i := s[|s| - 1]][..|s| - 1]
  }

  lemma SwapPopRemoves<T>(s: seq<T>, x: T)
    requires NoDup(s)
    ensures NoDup(SwapPop(s, x)) && Elems(SwapPop(s, x)) == Elems(s) - {x}
  {
    var i := IndexOf(s, x);
    var r := SwapPop(s, x);
    if i < |s| {
      forall y | y in s && y != x ensures y in r {
        var k :| 0 <= k < |s| && s[k] == y;
        assert r[if k == |s| - 1 then i else k] == y;
      }
      forall y | y in r ensures y in s && y != x {
        var k :| 0 <= k < |r| && r[k] == y;
        assert y == s[if k == i then |s| - 1 else k];
      }
    }
  }

  /** The last element moves into the place of `x`, and all others stay where they are. */
  lemma SwapPopMovesLast<T>(s: seq<T>, x: T)
    requires NoDup(s) && x in s
    ensures var r := SwapPop(s, x);
      && |r| == |s| - 1
      && forall k :: 0 <= k < |r| ==> r[k] == if s[k] == x then s[|s| - 1] else s[k]
  {
    assert s[IndexOf(s, x)] == x;
  }

  /** `*std::max_element`; the C++ call is undefined on an empty range. */
  function Max(s: seq<nat>): (r: nat)
    requires s != []
    ensures r in s
    ensures forall x :: x in s ==> x <= r
  {
    if |s| == 1 then s[0]
    else
      var rest := Max(s[1..]);
      assert forall x :: x in s ==> x == s[0] || x in s[1..];
      if s[0] > rest then s[0] else rest
  }

  function Insert(x: nat, s: seq<nat>): (r: seq<nat>)
    ensures Elems(r) == Elems(s) + {x}
    ensures Ascending(s) && x !in s ==> Ascending(r)
  {
    if s == [] || x <= s[0] then
      [x] + s
    else
      var rest := Insert(x, s[1..]);
      InsertSteps(x, s, rest);
      [s[0]] + rest
  }

  lemma InsertSteps(x: nat, s: seq<nat>, rest: seq<nat>)
    requires s != [] && x > s[0] && Elems(rest) == Elems(s[1..]) + {x}
    requires Ascending(s[1..]) && x !in s[1..] ==> Ascending(rest)
    ensures Elems([s[0]] + rest) == Elems(s) + {x}
    ensures Ascending(s) && x !in s ==> Ascending([s[0]] + rest)
  {
    assert forall y :: y in [s[0]] + rest <==> y == s[0] || y in Elems(rest);
    assert forall y :: y in s <==> y == s[0] || y in Elems(s[1..]);
    assert forall k :: 0 <= k < |rest| ==> rest[k] in Elems(rest);
  }

  /** `std::sort`. */
  function Sort(s: seq<nat>): (r: seq<nat>)
    ensures Elems(r) == Elems(s)
    ensures NoDup(s) ==> Ascending(r)
  {
    if s == [] then []
    else
      assert s == [s[0]] + s[1..];
      assert s[0] in Elems(s[1..]) ==> s[0] in s[1..];
      var rest := Sort(s[1..]);
      assert NoDup(s) ==> s[0] !in Elems(rest);
      Insert(s[0], rest)
  }

  /** The one strictly ascending enumeration of a set. */
  ghost function Enumerate(s: set<nat>): (r: seq<nat>)
    ensures Elems(r) == s && Ascending(r)
  {
    if s == {} then []
    else
      var x :| x in s;
      var rest := Enumerate(s - {x});
      assert x !in Elems(rest);
      Insert(x, rest)
  }

  /** A strictly ascending sequence is determined by its elements. */
  lemma {:induction false} AscendingUnique(a: seq<nat>, b: seq<nat>)
    requires Ascending(a) && Ascending(b) && Elems(a) == Elems(b)
    ensures a == b
  {
    assert forall x :: x in a ==> x in Elems(b);
    assert forall x :: x in b ==> x in Elems(a);
    assert (a != [] ==> a[0] in a) && (b != [] ==> b[0] in b);
    if a != [] && b != [] {
      assert a[0] in b && b[0] in a;
      forall x ensures x in Elems(a[1..]) <==> x in Elems(b[1..]) {
        assert x in a[1..] <==> x in Elems(a) && x != a[0];
        assert x in b[1..] <==> x in Elems(b) && x != b[0];
      }
      AscendingUnique(a[1..], b[1..]);
    }
  }
}
