/**
  Document order in Sizzle (resources/js/jquery.js): the fallback comparator `sortOrder` with `siblingCheck`, which only
  follows parent and sibling pointers, and `Sizzle.uniqueSort`.
 */
module SizzleSort {
  import opened Options
  import opened Dom

  datatype Tree = Node(children: seq<Tree>)

  /** The path leads to a node of the tree. */
  predicate In(t: Tree, p: Path)
    decreases p
  {
    p == [] || (p[0] < |t.children| && In(t.children[p[0]], p[1..]))
  }

  // ---------------------------------------------------------------- pre-order

  function Under(i: nat, paths: seq<Path>): (r: seq<Path>)
    ensures |r| == |paths|
    ensures forall k :: 0 <= k < |r| ==> r[k] == [i] + paths[k]
  {
    if paths == [] then [] else [[i] + paths[0]] + Under(i, paths[1..])
  }

  /** All nodes of the tree, each before its children, and the children from first to last. */
  function Preorder(t: Tree): seq<Path>
    decreases t, |t.children| + 1
  {
    [[]] + PreorderFrom(t, 0)
  }

  function PreorderFrom(t: Tree, i: nat): seq<Path>
    requires i <= |t.children|
    decreases t, |t.children| - i
  {
    if i == |t.children| then [] else Under(i, Preorder(t.children[i])) + PreorderFrom(t, i + 1)
  }

  /** Document order on paths. */
  predicate Before(p: Path, q: Path)
    decreases p
  {
    q != [] && (p == [] || p[0] < q[0] || (p[0] == q[0] && Before(p[1..], q[1..])))
  }

  lemma {:induction false} BeforeTotal(p: Path, q: Path)
    ensures p == q || Before(p, q) || Before(q, p)
    ensures !(Before(p, q) && Before(q, p)) && !Before(p, p)
    decreases p
  {
    if p != [] && q != [] && p[0] == q[0] {
      BeforeTotal(p[1..], q[1..]);
      assert p == [p[0]] + p[1..] && q == [q[0]] + q[1..];
    }
    if p != [] { BeforeTotal(p[1..], p[1..]); }
  }

  lemma {:induction false} BeforeTransitive(p: Path, q: Path, r: Path)
    requires Before(p, q) && Before(q, r)
    ensures Before(p, r)
    decreases p
  {
    if p != [] && p[0] == q[0] == r[0] { BeforeTransitive(p[1..], q[1..], r[1..]); }
  }

  /** What distinguishes two paths is the first place where they differ. */
  lemma {:induction false} BeforeAt(p: Path, q: Path, k: nat)
    requires k <= |p| && k < |q| && p[..k] == q[..k] && (k < |p| ==> p[k] < q[k])
    ensures Before(p, q)
    decreases k
  {
    if k > 0 {
      assert p[0] == p[..k][0] == q[..k][0] == q[0];
      assert p[1..][..k - 1] == p[..k][1..] == q[1..][..k - 1];
      BeforeAt(p[1..], q[1..], k - 1);
    }
  }

  ghost predicate Increasing(s: seq<Path>) {
    forall i, j :: 0 <= i < j < |s| ==> Before(s[i], s[j])
  }

  lemma {:induction false} IncreasingConcat(a: seq<Path>, b: seq<Path>)
    requires Increasing(a) && Increasing(b) && forall p, q :: p in a && q in b ==> Before(p, q)
    ensures Increasing(a + b)
  {
    forall i, j | 0 <= i < j < |a + b| ensures Before((a + b)[i], (a + b)[j]) {
      if i < |a| <= j { assert (a + b)[i] in a && (a + b)[j] in b; }
    }
  }

  lemma {:induction false} UnderIncreasing(i: nat, paths: seq<Path>)
    requires Increasing(paths)
    ensures Increasing(Under(i, paths))
  {
    var r := Under(i, paths);
    forall k, l | 0 <= k < l < |r| ensures Before(r[k], r[l]) {
      assert r[k][1..] == paths[k] && r[l][1..] == paths[l];
    }
  }

  lemma {:induction false} UnderMembers(i: nat, paths: seq<Path>)
    ensures forall p :: p in Under(i, paths) <==> p != [] && p[0] == i && p[1..] in paths
  {
    var r := Under(i, paths);
    forall p ensures p in r <==> p != [] && p[0] == i && p[1..] in paths {
      if p in r {
        var k :| 0 <= k < |r| && r[k] == p;
        assert p[1..] == paths[k];
      }
      if p != [] && p[0] == i && p[1..] in paths {
        var k :| 0 <= k < |paths| && paths[k] == p[1..];
        assert r[k] == [i] + p[1..] == p;
      }
    }
  }

  lemma {:induction false} PreorderIncreasing(t: Tree)
    ensures Increasing(Preorder(t))
    ensures forall p :: p in Preorder(t) <==> In(t, p)
    decreases t, |t.children| + 1
  {
    PreorderFromIncreasing(t, 0);
    forall p, q | p in [[]] && q in PreorderFrom(t, 0) ensures Before(p, q) {}
    var root: seq<Path> := [[]];
    IncreasingConcat(root, PreorderFrom(t, 0));
  }

  lemma {:induction false} PreorderFromIncreasing(t: Tree, i: nat)
    requires i <= |t.children|
    ensures Increasing(PreorderFrom(t, i))
    ensures forall p :: p in PreorderFrom(t, i) <==> p != [] && i <= p[0] && In(t, p)
    decreases t, |t.children| - i
  {
    if i < |t.children| {
      var first, rest := Under(i, Preorder(t.children[i])), PreorderFrom(t, i + 1);
      PreorderIncreasing(t.children[i]);
      UnderIncreasing(i, Preorder(t.children[i]));
      PreorderFromIncreasing(t, i + 1);
      UnderMembers(i, Preorder(t.children[i]));
      IncreasingConcat(first, rest);
    }
  }

  // ---------------------------------------------------------------- the pointers

  function Subtree(t: Tree, p: Path): Tree
    requires In(t, p)
    decreases p
  {
    if p == [] then t else Subtree(t.children[p[0]], p[1..])
  }

  lemma {:induction false} PrefixIn(t: Tree, p: Path, k: nat)
    requires In(t, p) && k <= |p|
    ensures In(t, p[..k])
    ensures k < |p| ==> p[k] < |Subtree(t, p[..k]).children|
    decreases p
  {
    if k > 0 {
      PrefixIn(t.children[p[0]], p[1..], k - 1);
      assert p[..k][1..] == p[1..][..k - 1];
    }
  }

  function NextSibling(t: Tree, p: Path): Option<Path>
    requires In(t, p)
  {
    if p == [] then None
    else
      PrefixIn(t, p, |p| - 1);
      if p[|p| - 1] + 1 < |Subtree(t, p[..|p| - 1]).children| then Some(p[|p| - 1 := p[|p| - 1] + 1]) else None
  }

  lemma {:induction false} ChildIn(t: Tree, p: Path, i: nat)
    requires In(t, p)
    ensures In(t, p + [i]) <==> i < |Subtree(t, p).children|
    decreases p
  {
    if p == [] {
      assert (p + [i])[1..] == [];
    } else {
      assert (p + [i])[1..] == p[1..] + [i];
      ChildIn(t.children[p[0]], p[1..], i);
    }
  }

  lemma {:induction false} NextSiblingIn(t: Tree, p: Path)
    requires In(t, p)
    ensures NextSibling(t, p).Some? ==>
              In(t, NextSibling(t, p).value) && NextSibling(t, p).value == p[..|p| - 1] + [p[|p| - 1] + 1]
  {
    if p != [] {
      PrefixIn(t, p, |p| - 1);
      ChildIn(t, p[..|p| - 1], p[|p| - 1] + 1);
      assert p[|p| - 1 := p[|p| - 1] + 1] == p[..|p| - 1] + [p[|p| - 1] + 1];
    }
  }

  // ---------------------------------------------------------------- comparing and sorting

  /** What the comparator should answer. */
  function Order(a: Path, b: Path): int {
    if a == b then 0 else if Before(a, b) then -1 else 1
  }

  predicate Siblings(a: Path, b: Path) {
    |a| == |b| > 0 && a[..|a| - 1] == b[..|b| - 1]
  }

  class Sorter {
    const tree: Tree
    const baseHasDuplicate: bool
    var hasDuplicate: bool

    constructor (tree: Tree, baseHasDuplicate: bool)
      ensures this.tree == tree && this.baseHasDuplicate == baseHasDuplicate
    {
      this.tree := tree;
      this.baseHasDuplicate := baseHasDuplicate;
      hasDuplicate := false;
    }

    method SiblingCheck(a: Path, b: Path, ret: int) returns (r: int)
      requires In(tree, a) && In(tree, b) && (a == b || Siblings(a, b))
      ensures r == if a == b then ret else if a[|a| - 1] < b[|b| - 1] then -1 else 1
    {
      if a == b {
        return ret;
      }
      assert b == a[..|a| - 1] + [b[|b| - 1]];
      assert a == a[..|a| - 1] + [a[|a| - 1]];
      PrefixIn(tree, b, |b| - 1);
      ghost var width := |Subtree(tree, a[..|a| - 1]).children|;
      NextSiblingIn(tree, a);
      var cur := NextSibling(tree, a);
      ghost var k := a[|a| - 1] + 1;
      while cur.Some?
        invariant a[|a| - 1] < k
        invariant b[|b| - 1] <= a[|a| - 1] || k <= b[|b| - 1]
        invariant cur.Some? ==> In(tree, cur.value) && cur.value == a[..|a| - 1] + [k] && k < width
        invariant cur.None? ==> k >= width
        decreases width - k
      {
        if cur.value == b {
          return -1;
        }
        NextSiblingIn(tree, cur.value);
        assert cur.value[..|a| - 1] == a[..|a| - 1];
        assert k != b[|b| - 1];
        cur := NextSibling(tree, cur.value);
        k := k + 1;
      }
      return 1;
    }

    /** The list of ancestors that `sortOrder` builds with `unshift`. */
    method Ancestors(a: Path) returns (ap: seq<Path>)
      requires a != []
      ensures |ap| == |a| && forall k :: 0 <= k < |ap| ==> ap[k] == a[..k]
    {
      ap := [];
      var cur := ParentNode(a);
      while cur.Some?
        invariant |ap| == |a| - if cur.Some? then |cur.value| + 1 else 0
        invariant cur.Some? ==> |cur.value| < |a| && cur.value == a[..|cur.value|]
        invariant forall k :: 0 <= k < |ap| ==> ap[k] == a[..|a| - |ap| + k]
        decreases if cur.Some? then |cur.value| + 1 else 0
      {
        ap := [cur.value] + ap;
        cur := ParentNode(cur.value);
      }
    }

    method SortOrder(a: Path, b: Path) returns (r: int)
      requires In(tree, a) && In(tree, b)
      modifies this
      ensures r == Order(a, b)
      ensures hasDuplicate == (old(hasDuplicate) || a == b)
    {
      var aup, bup := ParentNode(a), ParentNode(b);
      BeforeTotal(a, b);
      if a == b {
        hasDuplicate := true;
        return 0;
      } else if aup == bup {
        SiblingsOrder(a, b);
        r := SiblingCheck(a, b, 0);
        return;
      } else if aup.None? {
        return -1;
      } else if bup.None? {
        return 1;
      }
      var ap := Ancestors(a);
      var bp := Ancestors(b);
      r := CompareAncestors(a, b, ap, bp);
    }

    /** The walk down the two lists of ancestors to the first discrepancy. */
    method CompareAncestors(a: Path, b: Path, ap: seq<Path>, bp: seq<Path>) returns (r: int)
      requires In(tree, a) && In(tree, b) && a != [] && b != [] && ParentNode(a) != ParentNode(b)
      requires |ap| == |a| && forall k :: 0 <= k < |ap| ==> ap[k] == a[..k]
      requires |bp| == |b| && forall k :: 0 <= k < |bp| ==> bp[k] == b[..k]
      ensures r == Order(a, b)
    {
      var al, bl := |ap|, |bp|;
      var i := 0;
      while i < al && i < bl
        invariant 0 <= i <= al && i <= bl
        invariant i > 0 ==> a[..i - 1] == b[..i - 1]
      {
        if ap[i] != bp[i] {
          Discrepancy(a, b, i);
          PrefixIn(tree, a, i);
          PrefixIn(tree, b, i);
          r := SiblingCheck(ap[i], bp[i], 0);
          return;
        }
        i := i + 1;
      }
      if i == al {
        assert a[..|a|] == a;
        if a == b[..i] { PrefixBefore(a, b); } else { Discrepancy(a, b, i); }
        PrefixIn(tree, b, i);
        r := SiblingCheck(a, bp[i], -1);
      } else {
        assert b[..|b|] == b;
        if a[..i] == b { PrefixBefore(b, a); } else { Discrepancy(a, b, i); }
        PrefixIn(tree, a, i);
        r := SiblingCheck(ap[i], b, 1);
      }
    }

    /** One insertion of the comparison sort that stands for the built-in one. */
    method Insert(sorted: seq<Path>, x: Path) returns (r: seq<Path>)
      requires Sorted(sorted) && In(tree, x) && forall p :: p in sorted ==> In(tree, p)
      modifies this
      ensures Sorted(r) && forall p :: p in r <==> p in sorted || p == x
      ensures hasDuplicate == (old(hasDuplicate) || x in sorted)
      ensures Distinct(r) <==> Distinct(sorted) && x !in sorted
    {
      var j := |sorted|;
      while j > 0
        invariant 0 <= j <= |sorted| && hasDuplicate == old(hasDuplicate)
        invariant forall k :: j <= k < |sorted| ==> Before(x, sorted[k])
        decreases j
      {
        BeforeTotal(sorted[j - 1], x);
        var c := SortOrder(sorted[j - 1], x);
        if c <= 0 {
          break;
        }
        j := j - 1;
      }
      InsertSorted(sorted, x, j);
      r := sorted[..j] + [x] + sorted[j..];
    }

    method Sort(results: seq<Path>) returns (sorted: seq<Path>)
      requires forall p :: p in results ==> In(tree, p)
      modifies this
      ensures Sorted(sorted) && forall p :: p in sorted <==> p in results
      ensures hasDuplicate == (old(hasDuplicate) || !Distinct(sorted))
    {
      sorted := [];
      for i := 0 to |results|
        invariant Sorted(sorted) && forall p :: p in sorted <==> p in results[..i]
        invariant hasDuplicate == (old(hasDuplicate) || !Distinct(sorted))
      {
        assert results[..i + 1] == results[..i] + [results[i]];
        sorted := Insert(sorted, results[i]);
      }
      assert results[..|results|] == results;
    }

    /** `Sizzle.uniqueSort`. */
    method UniqueSort(input: seq<Path>) returns (results: seq<Path>)
      requires forall p :: p in input ==> In(tree, p)
      modifies this
      ensures Increasing(results) && forall p :: p in results <==> p in input
    {
      hasDuplicate := baseHasDuplicate;
      results := Sort(input);
      if hasDuplicate {
        var i := 1;
        while i < |results|
          invariant 1 <= i && Sorted(results)
          invariant forall p :: p in results <==> p in input
          invariant forall k, l :: 0 <= k < l < i && l < |results| ==> Before(results[k], results[l])
          decreases |results| - i
        {
          if results[i] == results[i - 1] {
            SpliceSame(results, i);
            results := results[..i] + results[i + 1..];
            i := i - 1;
          } else {
            Extends(results, i);
          }
          i := i + 1;
        }
      }
    }
  }

  ghost predicate Sorted(s: seq<Path>) {
    forall i, j :: 0 <= i < j < |s| ==> s[i] == s[j] || Before(s[i], s[j])
  }

  ghost predicate Distinct(s: seq<Path>) {
    forall i, j :: 0 <= i < j < |s| ==> s[i] != s[j]
  }

  lemma {:induction false} SiblingsOrder(a: Path, b: Path)
    requires a != b && ParentNode(a) == ParentNode(b)
    ensures Siblings(a, b) && Order(a, b) == if a[|a| - 1] < b[|b| - 1] then -1 else 1
  {
    assert |ParentNode(a).value| == |ParentNode(b).value|;
    assert a[..|a|] == a && b[..|b|] == b;
    Discrepancy(a, b, |a|);
  }

  /** The first place where two paths differ decides their order. */
  lemma {:induction false} Discrepancy(a: Path, b: Path, i: nat)
    requires 0 < i <= |a| && i <= |b| && a[..i - 1] == b[..i - 1] && a[..i] != b[..i]
    ensures Siblings(a[..i], b[..i]) && Order(a, b) == if a[i - 1] < b[i - 1] then -1 else 1
  {
    assert a[..i] == a[..i - 1] + [a[i - 1]] && b[..i] == b[..i - 1] + [b[i - 1]];
    assert a[..i][..i - 1] == a[..i - 1] && b[..i][..i - 1] == b[..i - 1];
    if a[i - 1] < b[i - 1] { BeforeAt(a, b, i - 1); } else { BeforeAt(b, a, i - 1); }
    BeforeTotal(a, b);
  }

  lemma {:induction false} PrefixBefore(a: Path, b: Path)
    requires |a| < |b| && b[..|a|] == a
    ensures Order(a, b) == -1 && Order(b, a) == 1
  {
    assert a[..|a|] == a;
    BeforeAt(a, b, |a|);
    BeforeTotal(a, b);
  }

  lemma {:induction false} InsertSorted(s: seq<Path>, x: Path, j: nat)
    requires Sorted(s) && j <= |s| && forall k :: j <= k < |s| ==> Before(x, s[k])
    requires j > 0 ==> s[j - 1] == x || Before(s[j - 1], x)
    ensures var r := s[..j] + [x] + s[j..];
            Sorted(r) && (forall p :: p in r <==> p in s || p == x) && (Distinct(r) <==> Distinct(s) && x !in s)
    ensures x in s <==> j > 0 && s[j - 1] == x
  {
    BelowInsertion(s, x, j);
    var r := s[..j] + [x] + s[j..];
    forall k, l | 0 <= k < l < |r| ensures r[k] == r[l] || Before(r[k], r[l]) {
      if l < j {
        assert r[k] == s[k] && r[l] == s[l];
      } else if k == j {
        assert r[l] == s[l - 1];
      } else if l == j {
        assert r[k] == s[k];
      } else {
        assert r[l] == s[l - 1] && r[k] == s[if k < j then k else k - 1];
      }
    }
    forall p ensures p in r <==> p in s || p == x {
      assert p in s <==> p in s[..j] || p in s[j..] by { assert s == s[..j] + s[j..]; }
    }
    InsertDistinct(s, x, j);
  }

  lemma {:induction false} BelowInsertion(s: seq<Path>, x: Path, j: nat)
    requires Sorted(s) && j <= |s| && forall k :: j <= k < |s| ==> Before(x, s[k])
    requires j > 0 ==> s[j - 1] == x || Before(s[j - 1], x)
    ensures forall k :: 0 <= k < j ==> s[k] == x || Before(s[k], x)
    ensures x in s <==> j > 0 && s[j - 1] == x
  {
    forall k | 0 <= k < j ensures s[k] == x || Before(s[k], x) {
      if k < j - 1 && s[k] != s[j - 1] && s[j - 1] != x { BeforeTransitive(s[k], s[j - 1], x); }
    }
    BeforeTotal(x, x);
    if j > 0 && s[j - 1] != x {
      forall k | 0 <= k < j ensures s[k] != x {
        BeforeTotal(s[j - 1], x);
      }
    }
  }

  lemma {:induction false} InsertDistinct(s: seq<Path>, x: Path, j: nat)
    requires j <= |s|
    ensures Distinct(s[..j] + [x] + s[j..]) <==> Distinct(s) && x !in s
  {
    var r := s[..j] + [x] + s[j..];
    assert forall k :: 0 <= k < |s| ==> s[k] == r[if k < j then k else k + 1];
    assert r[j] == x;
    if Distinct(s) && x !in s {
      assert forall k :: 0 <= k < |r| && k != j ==> r[k] == s[if k < j then k else k - 1];
    }
  }

  lemma {:induction false} SpliceSame(s: seq<Path>, i: nat)
    requires 0 < i < |s| && s[i] == s[i - 1] && Sorted(s)
    ensures var r := s[..i] + s[i + 1..]; Sorted(r) && forall p :: p in r <==> p in s
  {
    var r := s[..i] + s[i + 1..];
    assert forall k :: 0 <= k < |r| ==> r[k] == s[if k < i then k else k + 1];
    forall p | p in s ensures p in r {
      var k :| 0 <= k < |s| && s[k] == p;
      assert p == r[if k < i then k else k - 1];
    }
  }

  lemma {:induction false} Extends(s: seq<Path>, i: nat)
    requires 0 < i < |s| && s[i] != s[i - 1] && Sorted(s)
    requires forall k, l :: 0 <= k < l < i ==> Before(s[k], s[l])
    ensures forall k, l :: 0 <= k < l < i + 1 ==> Before(s[k], s[l])
  {
    forall k | 0 <= k < i ensures Before(s[k], s[i]) {
      if k < i - 1 { BeforeTransitive(s[k], s[i - 1], s[i]); }
    }
  }

  // ---------------------------------------------------------------- the theorem

  /** Every node of the tree occurs in the pre-order listing exactly once. */
  lemma {:induction false} PreorderIndex(t: Tree, p: Path) returns (i: nat)
    requires In(t, p)
    ensures i < |Preorder(t)| && Preorder(t)[i] == p
    ensures forall j :: 0 <= j < |Preorder(t)| && Preorder(t)[j] == p ==> j == i
  {
    PreorderIncreasing(t);
    i :| 0 <= i < |Preorder(t)| && Preorder(t)[i] == p;
    BeforeTotal(p, p);
  }

  /** The order that the comparator answers with is the order of the pre-order listing, so it is a strict total
      order. */
  lemma {:induction false} DocumentOrderTheorem(t: Tree, i: nat, j: nat)
    requires i < |Preorder(t)| && j < |Preorder(t)|
    ensures Order(Preorder(t)[i], Preorder(t)[j]) == if i < j then -1 else if i == j then 0 else 1
  {
    PreorderIncreasing(t);
    var a, b := Preorder(t)[i], Preorder(t)[j];
    BeforeTotal(a, b);
  }
}
