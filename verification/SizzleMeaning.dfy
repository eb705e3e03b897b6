/**
  What right-to-left matching without backtracking is worth: it never keeps a node that does not match, for any
  selector, and the selectors for which it never drops a node that does are characterised exactly.
 */
module SizzleMeaning {
  import opened Dom
  import opened SizzleWalk
  import opened SizzleMatch

  lemma {:induction false} RelativeMeans(elements: Path -> bool, link: Link, p: Path) returns (q: Path)
    ensures var e := Relative(elements, link, Elem(p));
            if e == False then forall r :: Related(elements, link.combinator, r, p) ==> !Hit(elements, link.part, r)
            else Related(elements, link.combinator, q, p) && Hit(elements, link.part, q) && e == Found(link.part, q)
    ensures link.combinator == Descendant && Relative(elements, link, Elem(p)) != False ==>
              forall r :: IsAncestor(r, p) && Hit(elements, link.part, r) ==> r == q || IsAncestor(r, q)
    ensures link.combinator == Sibling && Relative(elements, link, Elem(p)) != False ==>
              forall r :: IsEarlierSibling(r, p) && Hit(elements, link.part, r) ==> r == q || IsEarlierSibling(r, q)
  {
    var e := Relative(elements, link, Elem(p));
    q := [];
    match link.combinator
    case Descendant =>
      NearestMeans(elements, Up, link.part, p);
      if e != False {
        q :| Beyond(Up, q, p) && Hit(elements, link.part, q) && e == Found(link.part, q) &&
             forall r :: Beyond(Up, r, p) && Hit(elements, link.part, r) ==> r == q || Beyond(Up, r, q);
        assert forall r :: IsAncestor(r, p) ==> Beyond(Up, r, p);
      } else {
        assert forall r :: IsAncestor(r, p) ==> Beyond(Up, r, p);
      }
    case Sibling =>
      NearestMeans(elements, Back, link.part, p);
      if e != False {
        q :| Beyond(Back, q, p) && Hit(elements, link.part, q) && e == Found(link.part, q) &&
             forall r :: Beyond(Back, r, p) && Hit(elements, link.part, r) ==> r == q || Beyond(Back, r, q);
        assert forall r :: IsEarlierSibling(r, p) ==> Beyond(Back, r, p);
      } else {
        assert forall r :: IsEarlierSibling(r, p) ==> Beyond(Back, r, p);
      }
    case Child =>
      if e != False { q := ParentNode(p).value; }
    case Adjacent =>
      PreviousIsElement(elements, p);
      if e != False { q := PreviousElement(elements, p).value; }
      if PreviousElement(elements, p).Some? {
        forall r | IsPreviousElement(elements, r, p) ensures r == PreviousElement(elements, p).value {
          SiblingOrder(r, PreviousElement(elements, p).value, p);
        }
      }
  }

  /** Two earlier siblings of one node are the same or one is earlier than the other. */
  lemma {:induction false} SiblingOrder(q: Path, r: Path, p: Path)
    requires IsEarlierSibling(q, p) && IsEarlierSibling(r, p)
    ensures q == r || IsEarlierSibling(q, r) || IsEarlierSibling(r, q)
  {
    if q[|q| - 1] == r[|r| - 1] {
      assert q == q[..|q| - 1] + [q[|q| - 1]];
      assert r == r[..|r| - 1] + [r[|r| - 1]];
    }
  }

  lemma {:induction false} GreedyFalse(elements: Path -> bool, chain: Chain)
    ensures Greedy(elements, chain, False) == False
    decreases chain
  {
    if chain != [] { GreedyFalse(elements, chain[1..]); }
  }

  /** Soundness, for every selector: a node that is kept has a full chain of witnesses. */
  lemma {:induction false} GreedySound(elements: Path -> bool, chain: Chain, p: Path)
    requires WellFormed(elements, chain) && Greedy(elements, chain, Elem(p)) != False
    ensures Satisfied(elements, chain, p)
    decreases chain
  {
    if chain != [] {
      var e := Relative(elements, chain[0], Elem(p));
      if e == False { GreedyFalse(elements, chain[1..]); }
      var q := RelativeMeans(elements, chain[0], p);
      if chain[0].part.Context? {
        assert chain[1..] == [];
      } else {
        GreedySound(elements, chain[1..], q);
      }
      assert Satisfied(elements, chain[1..], q);
    }
  }

  // ---------------------------------------------------------------- completeness

  /** The combinator choices on which committing to the nearest node cannot go wrong: to the left of a descendant
      combinator only descendant combinators, and no adjacent combinator directly to the left of a sibling one. */
  predicate SafePair(right: Combinator, left: Combinator) {
    (right == Descendant ==> left == Descendant) && (right == Sibling ==> left != Adjacent)
  }

  predicate Safe(combinators: seq<Combinator>) {
    forall i :: 0 <= i < |combinators| - 1 ==> SafePair(combinators[i], combinators[i + 1])
  }

  function Combinators(chain: Chain): (r: seq<Combinator>)
    ensures |r| == |chain|
    ensures forall i :: 0 <= i < |r| ==> r[i] == chain[i].combinator
  {
    if chain == [] then [] else [chain[0].combinator] + Combinators(chain[1..])
  }

  lemma {:induction false} AncestorTransitive(a: Path, b: Path, c: Path)
    requires IsAncestor(a, b) && IsAncestor(b, c)
    ensures IsAncestor(a, c)
  {
    assert c[..|a|] == b[..|a|];
  }

  /** A nearer choice for a descendant or sibling combinator satisfies whatever a farther one does. */
  lemma {:induction false} NearerSuffices(elements: Path -> bool, right: Combinator, chain: Chain, near: Path,
                                          far: Path)
    requires right == Descendant || right == Sibling
    requires chain != [] ==> SafePair(right, chain[0].combinator)
    requires if right == Descendant then IsAncestor(far, near) else IsEarlierSibling(far, near)
    requires Satisfied(elements, chain, far)
    ensures Satisfied(elements, chain, near)
  {
    if chain != [] {
      var r :| Related(elements, chain[0].combinator, r, far) && Hit(elements, chain[0].part, r) &&
               Satisfied(elements, chain[1..], r);
      match chain[0].combinator {
        case Descendant =>
          if right == Descendant {
            AncestorTransitive(r, far, near);
          } else {
            assert near[..|r|] == near[..|near| - 1][..|r|] == far[..|r|];
          }
        case Child =>
          assert far[..|far| - 1] == near[..|near| - 1];
        case Sibling =>
        case Adjacent => assert false;
      }
      assert Related(elements, chain[0].combinator, r, near);
    }
  }

  lemma {:induction false} GreedyComplete(elements: Path -> bool, chain: Chain, p: Path)
    requires WellFormed(elements, chain) && Safe(Combinators(chain)) && Satisfied(elements, chain, p)
    ensures Greedy(elements, chain, Elem(p)) != False
    decreases chain
  {
    if chain != [] {
      var link, rest := chain[0], chain[1..];
      var far :| Related(elements, link.combinator, far, p) && Hit(elements, link.part, far) &&
                 Satisfied(elements, rest, far);
      var near := RelativeMeans(elements, link, p);
      if link.part.Context? {
        assert rest == [];
      } else {
        if near != far {
          if link.combinator == Adjacent { OnePrevious(elements, near, far, p); }
          if rest != [] { assert SafePair(Combinators(chain)[0], Combinators(chain)[1]); }
          NearerSuffices(elements, link.combinator, rest, near, far);
        }
        SafeTail(chain);
        GreedyComplete(elements, rest, near);
      }
    }
  }

  lemma {:induction false} SafeTail(chain: Chain)
    requires chain != [] && Safe(Combinators(chain))
    ensures Safe(Combinators(chain[1..]))
  {
    var cs, ds := Combinators(chain), Combinators(chain[1..]);
    forall i | 0 <= i < |ds| - 1 ensures SafePair(ds[i], ds[i + 1]) {
      assert SafePair(cs[i + 1], cs[i + 2]);
    }
  }

  lemma {:induction false} OnePrevious(elements: Path -> bool, q: Path, r: Path, p: Path)
    requires IsPreviousElement(elements, q, p) && IsPreviousElement(elements, r, p)
    ensures q == r
  {
    SiblingOrder(q, r, p);
  }

  /** For the safe selectors, matching decides exactly what the selector means. */
  lemma {:induction false} GreedyExact(elements: Path -> bool, chain: Chain, p: Path)
    requires WellFormed(elements, chain) && Safe(Combinators(chain))
    ensures Greedy(elements, chain, Elem(p)) != False <==> Satisfied(elements, chain, p)
  {
    if Greedy(elements, chain, Elem(p)) != False { GreedySound(elements, chain, p); }
    if Satisfied(elements, chain, p) { GreedyComplete(elements, chain, p); }
  }

  // ---------------------------------------------------------------- incompleteness of the others

  function Body(): Path -> bool {
    q => q != []
  }

  function Only(w: Path): Part {
    Filter(q => q == w)
  }

  function Either(v: Path, w: Path): Part {
    Filter(q => q == v || q == w)
  }

  /** One step in the direction of the combinator. */
  function Next(combinator: Combinator, p: Path): Path
    requires p != [] && p[|p| - 1] > 0
  {
    if combinator == Descendant || combinator == Child then p[..|p| - 1] else p[|p| - 1 := p[|p| - 1] - 1]
  }

  /** At least `n` steps can be made from `p` in any direction without reaching the root. */
  predicate Room(p: Path, n: nat) {
    |p| > n && forall i :: 0 <= i < |p| ==> p[i] >= n
  }

  lemma {:induction false} NextRoom(combinator: Combinator, p: Path, n: nat)
    requires n > 0 && Room(p, n)
    ensures Room(Next(combinator, p), n - 1)
  {
  }

  lemma {:induction false} NextRelated(combinator: Combinator, p: Path)
    requires Room(p, 1)
    ensures Related(Body(), combinator, Next(combinator, p), p)
  {
    var w := Next(combinator, p);
    if combinator == Sibling || combinator == Adjacent {
      assert w[..|p| - 1] == p[..|p| - 1];
    }
  }

  lemma {:induction false} LinkSane(w: Path, v: Path)
    requires w != [] && v != []
    ensures Sane(Body(), Only(w)) && Sane(Body(), Either(v, w))
  {
  }

  lemma {:induction false} WellFormedCons(link: Link, chain: Chain)
    requires Sane(Body(), link.part) && !link.part.Context? && WellFormed(Body(), chain)
    ensures WellFormed(Body(), [link] + chain) && ([link] + chain)[1..] == chain
    ensures Combinators([link] + chain) == [link.combinator] + Combinators(chain)
  {
    assert ([link] + chain)[1..] == chain;
  }

  /** Any combinators can be satisfied from a node with enough room, one step at a time. */
  lemma {:induction false} StraightChain(combinators: seq<Combinator>, p: Path) returns (chain: Chain)
    requires Room(p, |combinators|)
    ensures WellFormed(Body(), chain) && Combinators(chain) == combinators && Satisfied(Body(), chain, p)
  {
    if combinators == [] {
      chain := [];
    } else {
      var w := Next(combinators[0], p);
      NextRoom(combinators[0], p, |combinators|);
      var rest := StraightChain(combinators[1..], w);
      LinkSane(w, w);
      WellFormedCons(Link(combinators[0], Only(w)), rest);
      NextRelated(combinators[0], p);
      chain := [Link(combinators[0], Only(w))] + rest;
      assert Hit(Body(), chain[0].part, w);
    }
  }

  /** Two steps in the direction of a descendant or sibling combinator still satisfy it. */
  lemma {:induction false} TwoStepsRelated(combinator: Combinator, p: Path)
    requires Room(p, 2) && (combinator == Descendant || combinator == Sibling)
    ensures Room(Next(combinator, p), 1)
    ensures Related(Body(), combinator, Next(combinator, Next(combinator, p)), p)
  {
    NextRoom(combinator, p, 2);
    var near := Next(combinator, p);
    NextRoom(combinator, near, 1);
    NextRelated(combinator, p);
    NextRelated(combinator, near);
    if combinator == Descendant {
      AncestorTransitive(Next(combinator, near), near, p);
    }
  }

  /** The engine takes the nearer of the two nodes that the right link of an unsafe pair accepts, and from there the
      left link finds nothing. */
  lemma {:induction false} UnsafePairFails(right: Combinator, left: Combinator, p: Path)
    requires Room(p, 3) && !SafePair(right, left)
    requires var near := Next(right, p);
             Room(near, 2) && Room(Next(right, near), 1)
    ensures var near := Next(right, p); var far := Next(right, near);
            && Relative(Body(), Link(right, Either(near, far)), Elem(p)) == Elem(near)
            && Relative(Body(), Link(left, Only(Next(left, far))), Elem(near)) == False
  {
    var near := Next(right, p);
    var far := Next(right, near);
    var w := Next(left, far);
    var q := RelativeMeans(Body(), Link(left, Only(w)), near);
    NextRelated(right, near);
    NextRelated(left, far);
  }

  /** A chain that begins with an unsafe pair. */
  lemma {:induction false} UnsafeHere(combinators: seq<Combinator>, p: Path) returns (chain: Chain)
    requires |combinators| >= 2 && Room(p, |combinators| + 1) && !SafePair(combinators[0], combinators[1])
    ensures WellFormed(Body(), chain) && Combinators(chain) == combinators
    ensures Satisfied(Body(), chain, p) && Greedy(Body(), chain, Elem(p)) == False
  {
    var c, left, n := combinators[0], combinators[1], |combinators| + 1;
    NextRoom(c, p, n);
    var near := Next(c, p);
    NextRoom(c, near, n - 1);
    var far := Next(c, near);
    NextRoom(left, far, n - 2);
    var w := Next(left, far);
    var rest := StraightChain(combinators[2..], w);
    LinkSane(w, w);
    LinkSane(near, far);
    var l0, l1 := Link(c, Either(near, far)), Link(left, Only(w));
    WellFormedCons(l1, rest);
    WellFormedCons(l0, [l1] + rest);
    assert combinators == [c] + ([left] + combinators[2..]);
    NextRelated(left, far);
    SatisfiedCons(l1, rest, w, far);
    TwoStepsRelated(c, p);
    SatisfiedCons(l0, [l1] + rest, far, p);
    UnsafePairFails(c, left, p);
    GreedyFalse(Body(), rest);
    GreedyCons(l1, rest, Elem(near));
    GreedyCons(l0, [l1] + rest, Elem(p));
    chain := [l0] + ([l1] + rest);
  }

  lemma {:induction false} SatisfiedCons(link: Link, chain: Chain, q: Path, p: Path)
    requires Related(Body(), link.combinator, q, p) && Hit(Body(), link.part, q) && Satisfied(Body(), chain, q)
    ensures Satisfied(Body(), [link] + chain, p)
  {
    assert ([link] + chain)[1..] == chain;
  }

  lemma {:induction false} GreedyCons(link: Link, chain: Chain, e: Entry)
    ensures Greedy(Body(), [link] + chain, e) == Greedy(Body(), chain, Relative(Body(), link, e))
  {
    assert ([link] + chain)[1..] == chain;
  }

  lemma {:induction false} UnsafeChain(combinators: seq<Combinator>, p: Path) returns (chain: Chain)
    requires Room(p, |combinators| + 1) && !Safe(combinators)
    ensures WellFormed(Body(), chain) && Combinators(chain) == combinators
    ensures Satisfied(Body(), chain, p) && Greedy(Body(), chain, Elem(p)) == False
  {
    if SafePair(combinators[0], combinators[1]) {
      UnsafeTail(combinators);
      NextRoom(combinators[0], p, |combinators| + 1);
      var near := Next(combinators[0], p);
      var rest := UnsafeChain(combinators[1..], near);
      var link := Link(combinators[0], Only(near));
      LinkSane(near, near);
      WellFormedCons(link, rest);
      NextRelated(combinators[0], p);
      SatisfiedCons(link, rest, near, p);
      OnlyStep(combinators[0], p);
      GreedyCons(link, rest, Elem(p));
      chain := [link] + rest;
    } else {
      chain := UnsafeHere(combinators, p);
    }
  }

  lemma {:induction false} UnsafeTail(combinators: seq<Combinator>)
    requires |combinators| >= 2 && !Safe(combinators) && SafePair(combinators[0], combinators[1])
    ensures !Safe(combinators[1..])
  {
    var i :| 0 <= i < |combinators| - 1 && !SafePair(combinators[i], combinators[i + 1]);
    assert combinators[1..][i - 1] == combinators[i] && combinators[1..][i] == combinators[i + 1];
  }

  lemma {:induction false} OnlyStep(combinator: Combinator, p: Path)
    requires Room(p, 1)
    ensures Relative(Body(), Link(combinator, Only(Next(combinator, p))), Elem(p)) == Elem(Next(combinator, p))
  {
    NextRoom(combinator, p, 1);
  }

  ghost predicate Exact(combinators: seq<Combinator>) {
    forall elements, chain: Chain, p :: WellFormed(elements, chain) && Combinators(chain) == combinators ==>
      (Greedy(elements, chain, Elem(p)) != False <==> Satisfied(elements, chain, p))
  }

  /** Matching without backtracking decides the selectors with the given combinators correctly, for all documents,
      simple selectors and nodes, if and only if the combinators are safe. */
  lemma {:induction false} ExactnessTheorem(combinators: seq<Combinator>)
    ensures Exact(combinators) <==> Safe(combinators)
  {
    if Safe(combinators) {
      forall elements, chain: Chain, p | WellFormed(elements, chain) && Combinators(chain) == combinators
        ensures Greedy(elements, chain, Elem(p)) != False <==> Satisfied(elements, chain, p)
      {
        GreedyExact(elements, chain, p);
      }
    } else {
      var n := |combinators| + 2;
      var p: Path := seq(n, i => n);
      var chain := UnsafeChain(combinators, p);
      assert WellFormed(Body(), chain) && Combinators(chain) == combinators;
    }
  }
}
