/** Finite dependency graphs: cycles, and ranks that witness that there are none. */
module Graphs {
  type Graph<!T> = map<T, set<T>>

  ghost predicate Closed<T>(g: Graph<T>) {
    forall x :: x in g ==> g[x] <= g.Keys
  }

  /** A walk that follows dependencies. */
  ghost predicate Walk<T>(g: Graph<T>, w: seq<T>) {
    && |w| > 0
    && (forall i :: 0 <= i < |w| ==> w[i] in g)
    && (forall i :: 0 <= i < |w| - 1 ==> w[i + 1] in g[w[i]])
  }

  ghost predicate Cycle<T>(g: Graph<T>, w: seq<T>) {
    |w| >= 2 && Walk(g, w) && w[0] == w[|w| - 1]
  }

  ghost predicate Acyclic<T(!new)>(g: Graph<T>) {
    !exists w :: Cycle(g, w)
  }

  /** No member of `s` is without dependencies in `s`. */
  ghost predicate Stuck<T>(g: Graph<T>, s: set<T>) {
    s <= g.Keys && forall x {:trigger DependsOn(g, s, x)} :: x in s ==> DependsOn(g, s, x)
  }

  ghost predicate DependsOn<T>(g: Graph<T>, s: set<T>, x: T)
    requires x in g
  {
    exists y :: y in s && y in g[x]
  }

  function Elements<T>(w: seq<T>): set<T> {
    set x | x in w
  }

  lemma {:induction false} DistinctSize<T>(w: seq<T>)
    requires forall i, j :: 0 <= i < j < |w| ==> w[i] != w[j]
    ensures |Elements(w)| == |w|
  {
    if w != [] {
      var front := w[..|w| - 1];
      DistinctSize(front);
      assert Elements(w) == Elements(front) + {w[|w| - 1]};
    }
  }

  lemma {:induction false} SubsetSize<T>(a: set<T>, b: set<T>)
    requires a <= b
    ensures |a| <= |b|
  {
    assert b == a + (b - a);
  }

  /** In a stuck set one can walk as far as one likes. */
  lemma {:induction false} LongWalk<T>(g: Graph<T>, s: set<T>, n: nat) returns (w: seq<T>)
    requires Stuck(g, s) && s != {} && n > 0
    ensures Walk(g, w) && |w| == n && Elements(w) <= s
  {
    if n == 1 {
      var x :| x in s;
      w := [x];
    } else {
      var v := LongWalk(g, s, n - 1);
      var last := v[|v| - 1];
      assert last in Elements(v);
      assert DependsOn(g, s, last);
      var y :| y in s && y in g[last];
      w := v + [y];
      assert Elements(w) == Elements(v) + {y};
    }
  }

  /** So a stuck set contains a cycle. */
  lemma {:induction false} StuckHasCycle<T>(g: Graph<T>, s: set<T>) returns (w: seq<T>)
    requires Stuck(g, s) && s != {}
    ensures Cycle(g, w) && Elements(w) <= s
  {
    var v := LongWalk(g, s, |s| + 1);
    if forall i, j :: 0 <= i < j < |v| ==> v[i] != v[j] {
      DistinctSize(v);
      SubsetSize(Elements(v), s);
      assert false;
    }
    var i, j :| 0 <= i < j < |v| && v[i] == v[j];
    w := v[i..j + 1];
    forall x | x in Elements(w) ensures x in s { assert x in Elements(v); }
  }

  /** And the members of a cycle are stuck. */
  lemma {:induction false} CycleIsStuck<T>(g: Graph<T>, w: seq<T>)
    requires Cycle(g, w)
    ensures Stuck(g, Elements(w)) && Elements(w) != {}
  {
    var s := Elements(w);
    assert w[0] in s;
    forall x | x in s ensures DependsOn(g, s, x) {
      var i :| 0 <= i < |w| && w[i] == x;
      var j := if i == |w| - 1 then 1 else i + 1;
      assert w[j] in s && w[j] in g[x];
    }
  }

  /** Dependencies inside `s` have smaller ranks. */
  ghost predicate Ranked<T>(g: Graph<T>, s: set<T>, rank: map<T, nat>) {
    s <= g.Keys && rank.Keys == s && forall x, y :: x in s && y in s && y in g[x] ==> rank[y] < rank[x]
  }

  lemma {:induction false} RankExists<T(!new)>(g: Graph<T>, s: set<T>) returns (rank: map<T, nat>)
    requires Acyclic(g) && s <= g.Keys
    ensures Ranked(g, s, rank)
    decreases |s|
  {
    if s == {} {
      rank := map[];
    } else {
      if Stuck(g, s) {
        var w := StuckHasCycle(g, s);
        assert false;
      }
      var x :| x in s && !DependsOn(g, s, x);
      var above := RankExists(g, s - {x});
      rank := map y | y in s :: if y == x then 0 else above[y] + 1;
    }
  }
}
