/** The two orderings the connectors rely on: the ascending listing of a set of
    identifiers, and a stable sort of a list by a key. */
module Sorting {

  ghost predicate Ascending(s: seq<nat>) {
    forall i, j | 0 <= i < j < |s| :: s[i] < s[j]
  }

  lemma AscendingIsDistinct(s: seq<nat>)
    requires Ascending(s)
    ensures forall i, j | 0 <= i < j < |s| :: s[i] != s[j]
  {
  }

  lemma LeastExists(s: set<nat>)
    requires s != {}
    ensures exists m :: IsLeast(m, s)
    decreases |s|
  {
    var x :| x in s;
    if s == {x} {
      assert IsLeast(x, s);
    } else {
      var rest := s - {x};
      LeastExists(rest);
      var m :| IsLeast(m, rest);
      assert forall y | y in s :: y == x || y in rest;
      assert IsLeast(if x <= m then x else m, s);
    }
  }

  predicate IsLeast(m: nat, s: set<nat>) {
    m in s && forall y | y in s :: m <= y
  }

  function Least(s: set<nat>): (m: nat)
    requires s != {}
    ensures IsLeast(m, s)
  {
    LeastExists(s);
    assert forall a, b | IsLeast(a, s) && IsLeast(b, s) :: a <= b && b <= a;
    var m :| IsLeast(m, s);
    m
  }

  /** The members of a set, each once, in ascending order. */
  function Listed(s: set<nat>): (r: seq<nat>)
    ensures Ascending(r)
    ensures forall x :: x in r <==> x in s
  {
    if s == {} then [] else
      var m := Least(s);
      var rest := Listed(s - {m});
      assert forall i | 0 <= i < |rest| :: rest[i] in s - {m};
      [m] + rest
  }

  // ---- a stable sort ---------------------------------------------------------

  ghost predicate Orders<T(!new)>(le: (T, T) -> bool) {
    && (forall x, y :: le(x, y) || le(y, x))
    && (forall x, y, z :: le(x, y) && le(y, z) ==> le(x, z))
  }

  ghost predicate SortedBy<T>(xs: seq<T>, le: (T, T) -> bool) {
    forall i, j | 0 <= i < j < |xs| :: le(xs[i], xs[j])
  }

  function Insert<T>(x: T, xs: seq<T>, le: (T, T) -> bool): seq<T> {
    if xs == [] || le(x, xs[0]) then [x] + xs else [xs[0]] + Insert(x, xs[1..], le)
  }

  function Sort<T>(xs: seq<T>, le: (T, T) -> bool): seq<T> {
    if xs == [] then [] else Insert(xs[0], Sort(xs[1..], le), le)
  }

  /** The members satisfying p, in their order. */
  function Keep<T>(xs: seq<T>, p: T -> bool): seq<T> {
    if xs == [] then [] else if p(xs[0]) then [xs[0]] + Keep(xs[1..], p) else Keep(xs[1..], p)
  }

  lemma {:induction false} KeepMembers<T(!new)>(xs: seq<T>, p: T -> bool)
    ensures forall x :: x in Keep(xs, p) <==> x in xs && p(x)
    ensures |Keep(xs, p)| <= |xs|
  {
    if xs != [] {
      KeepMembers(xs[1..], p);
      assert xs == [xs[0]] + xs[1..];
    }
  }

  lemma {:induction false} InsertKeeps<T>(x: T, xs: seq<T>, le: (T, T) -> bool)
    ensures multiset(Insert(x, xs, le)) == multiset(xs) + multiset{x}
    ensures |Insert(x, xs, le)| == |xs| + 1
    ensures forall y :: y in Insert(x, xs, le) <==> y == x || y in xs
  {
    if xs == [] || le(x, xs[0]) {
      assert Insert(x, xs, le) == [x] + xs;
    } else {
      InsertKeeps(x, xs[1..], le);
      assert xs == [xs[0]] + xs[1..];
    }
  }

  lemma {:induction false} SortKeeps<T>(xs: seq<T>, le: (T, T) -> bool)
    ensures multiset(Sort(xs, le)) == multiset(xs)
    ensures |Sort(xs, le)| == |xs|
    ensures forall y :: y in Sort(xs, le) <==> y in xs
  {
    if xs != [] {
      SortKeeps(xs[1..], le);
      InsertKeeps(xs[0], Sort(xs[1..], le), le);
      assert xs == [xs[0]] + xs[1..];
    }
  }

  lemma {:induction false} InsertSorts<T(!new)>(x: T, xs: seq<T>, le: (T, T) -> bool)
    requires Orders(le) && SortedBy(xs, le)
    ensures SortedBy(Insert(x, xs, le), le)
  {
    if xs == [] || le(x, xs[0]) {
    } else {
      InsertSorts(x, xs[1..], le);
      InsertKeeps(x, xs[1..], le);
      var tail := Insert(x, xs[1..], le);
      assert forall y | y in tail :: le(xs[0], y);
    }
  }

  lemma {:induction false} SortSorts<T(!new)>(xs: seq<T>, le: (T, T) -> bool)
    requires Orders(le)
    ensures SortedBy(Sort(xs, le), le)
  {
    if xs != [] {
      SortSorts(xs[1..], le);
      InsertSorts(xs[0], Sort(xs[1..], le), le);
    }
  }

  lemma {:induction false} InsertThenKeep<T(!new)>(x: T, xs: seq<T>, le: (T, T) -> bool, p: T -> bool)
    requires Orders(le) && SortedBy(xs, le)
    ensures Keep(Insert(x, xs, le), p) == if p(x) then Insert(x, Keep(xs, p), le) else Keep(xs, p)
  {
    if xs == [] {
    } else if le(x, xs[0]) {
      assert Insert(x, xs, le) == [x] + xs;
      assert ([x] + xs)[1..] == xs;
      var kept := Keep(xs, p);
      KeepMembers(xs, p);
      if kept != [] {
        assert kept[0] in xs;
        assert le(x, kept[0]);
      }
    } else {
      var tail := Insert(x, xs[1..], le);
      InsertThenKeep(x, xs[1..], le, p);
      assert ([xs[0]] + tail)[1..] == tail;
      var kept := Keep(xs[1..], p);
      assert Keep([xs[0]] + tail, p) == if p(xs[0]) then [xs[0]] + Keep(tail, p) else Keep(tail, p);
      if p(x) && p(xs[0]) {
        assert ([xs[0]] + kept)[1..] == kept;
        assert Insert(x, [xs[0]] + kept, le) == [xs[0]] + Insert(x, kept, le);
      }
    }
  }

  /** Sorting and filtering commute, so selecting before or after the sort is the same. */
  lemma {:induction false} SortThenKeep<T(!new)>(xs: seq<T>, le: (T, T) -> bool, p: T -> bool)
    requires Orders(le)
    ensures Sort(Keep(xs, p), le) == Keep(Sort(xs, le), p)
  {
    if xs != [] {
      var kept := Keep(xs[1..], p);
      SortThenKeep(xs[1..], le, p);
      SortSorts(xs[1..], le);
      InsertThenKeep(xs[0], Sort(xs[1..], le), le, p);
      if p(xs[0]) {
        assert ([xs[0]] + kept)[1..] == kept;
        assert Sort([xs[0]] + kept, le) == Insert(xs[0], Sort(kept, le), le);
      } else {
        assert Keep(xs, p) == kept;
      }
    }
  }
}
