/**
  Right-to-left matching in Sizzle (resources/js/jquery.js): the four relative combinators, applied one after the
  other to `checkSet` without ever going back on a choice.
 */
module SizzleMatch {
  import opened Options
  import opened Dom
  import opened SizzleWalk

  datatype Combinator = Descendant | Child | Sibling | Adjacent
  datatype Link = Link(combinator: Combinator, part: Part)

  /** The links of a selector from right to left, without the rightmost simple selector. */
  type Chain = seq<Link>

  // ---------------------------------------------------------------- what the selector means

  ghost predicate IsPreviousElement(elements: Path -> bool, q: Path, p: Path) {
    IsEarlierSibling(q, p) && elements(q) &&
    forall r :: IsEarlierSibling(r, p) && IsEarlierSibling(q, r) ==> !elements(r)
  }

  /** `q` stands to `p` as the left side of the combinator stands to its right side. */
  ghost predicate Related(elements: Path -> bool, combinator: Combinator, q: Path, p: Path) {
    match combinator
    case Descendant => IsAncestor(q, p)
    case Child => ParentNode(p) == Some(q)
    case Sibling => IsEarlierSibling(q, p)
    case Adjacent => IsPreviousElement(elements, q, p)
  }

  /** Some chain of nodes witnesses the selector. */
  ghost predicate Satisfied(elements: Path -> bool, chain: Chain, p: Path) {
    chain == [] ||
    exists q :: Related(elements, chain[0].combinator, q, p) && Hit(elements, chain[0].part, q) &&
                Satisfied(elements, chain[1..], q)
  }

  // ---------------------------------------------------------------- what the engine computes

  function PreviousElement(elements: Path -> bool, p: Path): Option<Path>
    decreases Distance(Back, p)
  {
    match PreviousSibling(p)
    case None => None
    case Some(q) => if elements(q) then Some(q) else (AlongShortens(Back, p); PreviousElement(elements, q))
  }

  function Tested(elements: Path -> bool, part: Part, q: Option<Path>): Entry {
    if q.Some? && Hit(elements, part, q.value) then Found(part, q.value) else False
  }

  function Relative(elements: Path -> bool, link: Link, e: Entry): Entry {
    match link.combinator
    case Descendant => Walked(elements, Up, link.part, e)
    case Sibling => Walked(elements, Back, link.part, e)
    case Child => if e.Elem? then Tested(elements, link.part, ParentNode(e.node)) else False
    case Adjacent => if e.Elem? then Tested(elements, link.part, PreviousElement(elements, e.node)) else False
  }

  function Greedy(elements: Path -> bool, chain: Chain, e: Entry): Entry
    decreases chain
  {
    if chain == [] then e else Greedy(elements, chain[1..], Relative(elements, chain[0], e))
  }

  /** Simple selectors accept elements only; the context node can only be the leftmost part. */
  ghost predicate WellFormed(elements: Path -> bool, chain: Chain) {
    forall i :: 0 <= i < |chain| ==> Sane(elements, chain[i].part) && (chain[i].part.Context? ==> i == |chain| - 1)
  }

  // ---------------------------------------------------------------- the engine itself

  class Sizzle {
    var done: nat
    const marks: Marks

    ghost predicate Valid()
      reads this, marks
    {
      forall q :: q in marks.sizcache ==> marks.sizcache[q] < done
    }

    constructor ()
      ensures Valid() && fresh(marks)
    {
      done := 0;
      marks := new Marks();
    }

    /** `Sizzle.filter(part, checkSet, true)`: entries that do not match become false. */
    method FilterInPlace(accepts: Path -> bool, checkSet: array<Entry>)
      modifies checkSet
      ensures forall i :: 0 <= i < checkSet.Length ==>
                checkSet[i] == if old(checkSet[i]).Elem? && !accepts(old(checkSet[i]).node) then False
                               else old(checkSet[i])
    {
      for i := 0 to checkSet.Length
        invariant forall j :: i <= j < checkSet.Length ==> checkSet[j] == old(checkSet[j])
        invariant forall j :: 0 <= j < i ==>
                    checkSet[j] == if old(checkSet[j]).Elem? && !accepts(old(checkSet[j]).node) then False
                                   else old(checkSet[j])
      {
        if checkSet[i].Elem? && !accepts(checkSet[i].node) {
          checkSet[i] := False;
        }
      }
    }

    /** The loop that looks for the previous element. */
    method FindPreviousElement(elements: Path -> bool, start: Path) returns (elem: Option<Path>)
      ensures elem == PreviousElement(elements, start)
    {
      elem := PreviousSibling(start);
      while elem.Some? && !elements(elem.value)
        invariant PreviousElement(elements, start) ==
                  if elem.Some? && !elements(elem.value) then PreviousElement(elements, elem.value) else elem
        decreases if elem.Some? then 1 + Distance(Back, elem.value) else 0
      {
        AlongShortens(Back, elem.value);
        elem := PreviousSibling(elem.value);
      }
    }

    /** `Expr.relative["+"]`. */
    method AdjacentStep(elements: Path -> bool, part: Part, checkSet: array<Entry>)
      requires Sane(elements, part) && forall i :: 0 <= i < checkSet.Length ==> checkSet[i] != True
      modifies checkSet
      ensures forall i :: 0 <= i < checkSet.Length ==>
                checkSet[i] == Relative(elements, Link(Adjacent, part), old(checkSet[i]))
    {
      for i := 0 to checkSet.Length
        invariant forall j :: i <= j < checkSet.Length ==> checkSet[j] == old(checkSet[j])
        invariant forall j :: 0 <= j < i ==>
                    checkSet[j] == if old(checkSet[j]).Elem?
                                   then Unfiltered(part, PreviousElement(elements, old(checkSet[j]).node)) else False
      {
        if checkSet[i].Elem? {
          var elem := FindPreviousElement(elements, checkSet[i].node);
          checkSet[i] := Unfiltered(part, elem);
        }
      }
      forall p | PreviousElement(elements, p).Some? ensures elements(PreviousElement(elements, p).value) {
        PreviousIsElement(elements, p);
      }
      if part.Filter? {
        FilterInPlace(part.accepts, checkSet);
      }
    }

    /** `Expr.relative[">"]`. */
    method ChildStep(elements: Path -> bool, part: Part, checkSet: array<Entry>)
      requires Sane(elements, part) && forall i :: 0 <= i < checkSet.Length ==> checkSet[i] != True
      requires forall i :: 0 <= i < checkSet.Length && checkSet[i].Elem? ==> checkSet[i].node != []
      modifies checkSet
      ensures forall i :: 0 <= i < checkSet.Length ==>
                checkSet[i] == Relative(elements, Link(Child, part), old(checkSet[i]))
    {
      for i := 0 to checkSet.Length
        invariant forall j :: i <= j < checkSet.Length ==> checkSet[j] == old(checkSet[j])
        invariant forall j :: 0 <= j < i ==>
                    checkSet[j] == if old(checkSet[j]).Elem?
                                   then Unfiltered(part, ParentNode(old(checkSet[j]).node)) else False
      {
        if checkSet[i].Elem? {
          checkSet[i] := Unfiltered(part, ParentNode(checkSet[i].node));
        }
      }
      if part.Filter? {
        FilterInPlace(part.accepts, checkSet);
      }
    }

    /** `Expr.relative[""]` and `Expr.relative["~"]`, each under a fresh mark. */
    method WalkStep(elements: Path -> bool, dir: Direction, part: Part, checkSet: array<Entry>, isXML: bool)
      requires Valid()
      modifies this, marks, checkSet
      ensures Valid()
      ensures forall i :: 0 <= i < checkSet.Length ==>
                checkSet[i] == Walked(elements, dir, part, old(checkSet[i]))
    {
      var doneName := done;
      done := done + 1;
      if part.Tag? {
        marks.DirNodeCheck(elements, dir, part.accepts, doneName, checkSet, isXML);
      } else {
        marks.DirCheck(elements, dir, part, doneName, checkSet, isXML);
      }
    }

    /** The loop over the parts of the selector, from right to left. */
    method Match(elements: Path -> bool, chain: Chain, checkSet: array<Entry>, isXML: bool)
      requires Valid() && WellFormed(elements, chain) && !elements([])
      requires forall i :: 0 <= i < checkSet.Length ==> Element(elements, checkSet[i])
      modifies this, marks, checkSet
      ensures Valid()
      ensures forall i :: 0 <= i < checkSet.Length ==> checkSet[i] == Greedy(elements, chain, old(checkSet[i]))
    {
      for k := 0 to |chain|
        invariant Valid()
        invariant forall i :: 0 <= i < checkSet.Length ==>
                    Greedy(elements, chain[k..], checkSet[i]) == Greedy(elements, chain, old(checkSet[i]))
        invariant k < |chain| ==> forall i :: 0 <= i < checkSet.Length ==> Element(elements, checkSet[i])
      {
        ghost var before := checkSet[..];
        var part := chain[k].part;
        match chain[k].combinator {
          case Descendant => WalkStep(elements, Up, part, checkSet, isXML);
          case Sibling => WalkStep(elements, Back, part, checkSet, isXML);
          case Child => ChildStep(elements, part, checkSet);
          case Adjacent => AdjacentStep(elements, part, checkSet);
        }
        forall i | 0 <= i < checkSet.Length
          ensures Greedy(elements, chain[k + 1..], checkSet[i]) == Greedy(elements, chain[k..], before[i])
          ensures k + 1 < |chain| ==> Element(elements, checkSet[i])
        {
          assert chain[k..][1..] == chain[k + 1..];
          assert checkSet[i] == Relative(elements, chain[k], before[i]);
          if k + 1 < |chain| { RelativeElement(elements, chain[k], before[i]); }
        }
      }
    }
  }

  /** A simple selector that accepts elements only. */
  ghost predicate Sane(elements: Path -> bool, part: Part) {
    if part.Context? then elements(part.node) else forall q :: part.accepts(q) ==> elements(q)
  }

  predicate Element(elements: Path -> bool, e: Entry) {
    e == False || (e.Elem? && elements(e.node))
  }

  /** What "+" and ">" write before the filter runs: tag names and the context node are compared at once. */
  function Unfiltered(part: Part, elem: Option<Path>): Entry {
    if elem.None? then False
    else
      match part
      case Tag(accepts) => if accepts(elem.value) then Elem(elem.value) else False
      case Filter(_) => Elem(elem.value)
      case Context(node) => if elem.value == node then True else False
  }

  lemma {:induction false} PreviousIsElement(elements: Path -> bool, p: Path)
    ensures var q := PreviousElement(elements, p);
            if q.Some? then IsPreviousElement(elements, q.value, p)
            else forall r :: IsEarlierSibling(r, p) ==> !elements(r)
    decreases Distance(Back, p)
  {
    var next := PreviousSibling(p);
    forall r ensures IsEarlierSibling(r, p) <==> next.Some? && (r == next.value || IsEarlierSibling(r, next.value)) {
      BeyondStep(Back, r, p);
    }
    if next.Some? && !elements(next.value) {
      AlongShortens(Back, p);
      PreviousIsElement(elements, next.value);
    }
  }

  lemma {:induction false} RelativeElement(elements: Path -> bool, link: Link, e: Entry)
    requires Sane(elements, link.part) && !link.part.Context? && e != True
    ensures Element(elements, Relative(elements, link, e))
  {
    if e.Elem? {
      NearestMeans(elements, Up, link.part, e.node);
      NearestMeans(elements, Back, link.part, e.node);
    }
  }
}
