/**
  The ancestor and sibling walks of Sizzle (resources/js/jquery.js): `dirNodeCheck` and `dirCheck` replace each entry
  of `checkSet` by the nearest matching node, leaving marks on the elements they pass so that later entries can read
  the answer out of the array that is being overwritten.
 */
module SizzleWalk {
  import opened Dom

  /** An entry of `checkSet`. */
  datatype Entry = False | True | Elem(node: Path)

  /** What a combinator has on its left: a tag name, any other simple selector, or the context node. */
  datatype Part = Tag(accepts: Path -> bool) | Filter(accepts: Path -> bool) | Context(node: Path)

  predicate Hit(elements: Path -> bool, part: Part, p: Path) {
    match part
    case Tag(accepts) => accepts(p)
    case Filter(accepts) => elements(p) && accepts(p)
    case Context(node) => elements(p) && p == node
  }

  function Found(part: Part, p: Path): Entry {
    if part.Context? then True else Elem(p)
  }

  /** The plain search: the nearest node strictly beyond `p` that matches. */
  function Nearest(elements: Path -> bool, dir: Direction, part: Part, p: Path): Entry
    decreases Distance(dir, p)
  {
    match Along(dir, p)
    case None => False
    case Some(q) =>
      AlongShortens(dir, p);
      if Hit(elements, part, q) then Found(part, q) else Nearest(elements, dir, part, q)
  }

  /** The plain search from `p` on, `p` included. */
  function NearestFrom(elements: Path -> bool, dir: Direction, part: Part, p: Path): Entry {
    if Hit(elements, part, p) then Found(part, p) else Nearest(elements, dir, part, p)
  }

  /** The plain search finds the nearest match beyond `p`, and fails only when there is none. */
  lemma {:induction false} NearestMeans(elements: Path -> bool, dir: Direction, part: Part, p: Path)
    ensures Nearest(elements, dir, part, p) == False <==> forall r :: Beyond(dir, r, p) ==> !Hit(elements, part, r)
    ensures Nearest(elements, dir, part, p) != False ==>
              exists q :: Beyond(dir, q, p) && Hit(elements, part, q) &&
                          Nearest(elements, dir, part, p) == Found(part, q) &&
                          forall r :: Beyond(dir, r, p) && Hit(elements, part, r) ==> r == q || Beyond(dir, r, q)
    decreases Distance(dir, p)
  {
    var next := Along(dir, p);
    forall r ensures Beyond(dir, r, p) <==> next.Some? && (r == next.value || Beyond(dir, r, next.value)) {
      BeyondStep(dir, r, p);
    }
    if next.Some? {
      AlongShortens(dir, p);
      if Hit(elements, part, next.value) {
        assert Beyond(dir, next.value, p);
      } else {
        NearestMeans(elements, dir, part, next.value);
      }
    }
  }

  /** What a walk should leave in an entry. */
  function Walked(elements: Path -> bool, dir: Direction, part: Part, e: Entry): Entry {
    if e.Elem? then Nearest(elements, dir, part, e.node) else False
  }

  class Marks {
    var sizcache: map<Path, nat>
    var sizset: map<Path, nat>
    ghost var evaluated: seq<Path>

    constructor ()
      ensures sizcache == map[] && sizset == map[]
    {
      sizcache, sizset, evaluated := map[], map[], [];
    }

    /** Every mark of this round leads to a finished entry that holds what a search from the node would find. */
    ghost predicate Answers(elements: Path -> bool, dir: Direction, part: Part, doneName: nat,
                            finished: seq<Entry>)
      reads this
    {
      forall q :: q in sizcache && sizcache[q] == doneName ==>
        q in sizset && sizset[q] < |finished| && finished[sizset[q]] == NearestFrom(elements, dir, part, q)
    }

    /** The same while entry `|finished|` is being worked out: its own marks lie behind `elem` and await `answer`. */
    ghost predicate Awaits(elements: Path -> bool, dir: Direction, part: Part, doneName: nat,
                           finished: seq<Entry>, answer: Entry, distance: int)
      reads this
    {
      forall q :: q in sizcache && sizcache[q] == doneName ==>
        q in sizset &&
        if sizset[q] < |finished| then finished[sizset[q]] == NearestFrom(elements, dir, part, q)
        else sizset[q] == |finished| && answer == NearestFrom(elements, dir, part, q) && distance < Distance(dir, q)
    }

    /** In an HTML document the predicate has been tried at most once on each element, and only on marked ones. */
    ghost predicate TriedOnce(elements: Path -> bool, doneName: nat, from: nat)
      reads this
    {
      && from <= |evaluated|
      && (forall k :: from <= k < |evaluated| && elements(evaluated[k]) ==>
            evaluated[k] in sizcache && sizcache[evaluated[k]] == doneName)
      && (forall k, l :: from <= k < l < |evaluated| && elements(evaluated[k]) ==> evaluated[k] != evaluated[l])
    }

    /** Marks an element that has not been marked in this round, and tries the predicate on it. */
    method Visit(elements: Path -> bool, dir: Direction, ghost part: Part, doneName: nat, ghost finished: seq<Entry>,
                 ghost answer: Entry, node: Path, i: nat, isXML: bool, ghost from: nat)
      requires i == |finished| && answer == NearestFrom(elements, dir, part, node)
      requires node in sizcache ==> sizcache[node] != doneName
      requires Awaits(elements, dir, part, doneName, finished, answer, Distance(dir, node))
      requires forall q :: q in sizcache ==> sizcache[q] <= doneName
      requires from <= |evaluated| && (!isXML ==> TriedOnce(elements, doneName, from))
      modifies this
      ensures Awaits(elements, dir, part, doneName, finished, answer, Distance(dir, node) - 1)
      ensures forall q :: q in sizcache ==> sizcache[q] <= doneName
      ensures from <= |evaluated| && (!isXML ==> TriedOnce(elements, doneName, from))
    {
      if elements(node) && !isXML {
        sizcache := sizcache[node := doneName];
        sizset := sizset[node := i];
      }
      evaluated := evaluated + [node];
    }

    /** The inner loop of `dirNodeCheck`, for entry `i` starting at `start`. */
    method WalkNode(elements: Path -> bool, dir: Direction, accepts: Path -> bool, doneName: nat,
                    checkSet: array<Entry>, i: nat, start: Path, isXML: bool, ghost from: nat) returns (found: Entry)
      requires i < checkSet.Length
      requires Answers(elements, dir, Tag(accepts), doneName, checkSet[..i])
      requires forall q :: q in sizcache ==> sizcache[q] <= doneName
      requires from <= |evaluated| && (!isXML ==> TriedOnce(elements, doneName, from))
      modifies this
      ensures found == Nearest(elements, dir, Tag(accepts), start)
      ensures Answers(elements, dir, Tag(accepts), doneName, checkSet[..i] + [found])
      ensures forall q :: q in sizcache ==> sizcache[q] <= doneName
      ensures from <= |evaluated| && (!isXML ==> TriedOnce(elements, doneName, from))
    {
      ghost var answer, finished := Nearest(elements, dir, Tag(accepts), start), checkSet[..i];
      found := False;
      var elem := Along(dir, start);
      while elem.Some?
        invariant found == False && from <= |evaluated|
        invariant answer == if elem.Some? then NearestFrom(elements, dir, Tag(accepts), elem.value) else False
        invariant Awaits(elements, dir, Tag(accepts), doneName, finished, answer,
                         if elem.Some? then Distance(dir, elem.value) else -1)
        invariant forall q :: q in sizcache ==> sizcache[q] <= doneName
        invariant !isXML ==> TriedOnce(elements, doneName, from)
        decreases if elem.Some? then 1 + Distance(dir, elem.value) else 0
      {
        var node := elem.value;
        AlongShortens(dir, node);
        if node in sizcache && sizcache[node] == doneName {
          found := checkSet[sizset[node]];
          break;
        }
        Visit(elements, dir, Tag(accepts), doneName, finished, answer, node, i, isXML, from);
        if accepts(node) {
          found := Elem(node);
          break;
        }
        elem := Along(dir, node);
      }
    }

    /** `dirNodeCheck`: the walk by tag name, which looks at the name of every node. */
    method DirNodeCheck(elements: Path -> bool, dir: Direction, accepts: Path -> bool, doneName: nat,
                        checkSet: array<Entry>, isXML: bool)
      requires forall q :: q in sizcache ==> sizcache[q] < doneName
      modifies this, checkSet
      ensures forall i :: 0 <= i < checkSet.Length ==>
                checkSet[i] == Walked(elements, dir, Tag(accepts), old(checkSet[i]))
      ensures forall q :: q in sizcache ==> sizcache[q] <= doneName
      ensures !isXML ==> TriedOnce(elements, doneName, |old(evaluated)|)
    {
      for i := 0 to checkSet.Length
        invariant forall j :: 0 <= j < i ==> checkSet[j] == Walked(elements, dir, Tag(accepts), old(checkSet[j]))
        invariant forall j :: i <= j < checkSet.Length ==> checkSet[j] == old(checkSet[j])
        invariant Answers(elements, dir, Tag(accepts), doneName, checkSet[..i])
        invariant forall q :: q in sizcache ==> sizcache[q] <= doneName
        invariant |old(evaluated)| <= |evaluated|
        invariant !isXML ==> TriedOnce(elements, doneName, |old(evaluated)|)
      {
        ghost var finished := checkSet[..i];
        var found := False;
        if checkSet[i].Elem? {
          found := WalkNode(elements, dir, accepts, doneName, checkSet, i, checkSet[i].node, isXML, |old(evaluated)|);
        }
        // `true` has neither parent nor sibling, and `false` is left alone
        checkSet[i] := found;
        assert checkSet[..i + 1] == finished + [found];
      }
    }

    /** The part of that loop that concerns elements: marks the node and tries the context node or the filter on it. */
    method TryElement(elements: Path -> bool, dir: Direction, part: Part, doneName: nat, ghost finished: seq<Entry>,
                      ghost answer: Entry, node: Path, i: nat, isXML: bool, ghost from: nat) returns (found: Entry)
      requires !part.Tag? && i == |finished| && answer == NearestFrom(elements, dir, part, node)
      requires node in sizcache ==> sizcache[node] != doneName
      requires Awaits(elements, dir, part, doneName, finished, answer, Distance(dir, node))
      requires forall q :: q in sizcache ==> sizcache[q] <= doneName
      requires from <= |evaluated| && (!isXML ==> TriedOnce(elements, doneName, from))
      modifies this
      ensures found == if Hit(elements, part, node) then Found(part, node) else False
      ensures Awaits(elements, dir, part, doneName, finished, answer, Distance(dir, node) - 1)
      ensures forall q :: q in sizcache ==> sizcache[q] <= doneName
      ensures from <= |evaluated| && (!isXML ==> TriedOnce(elements, doneName, from))
    {
      found := False;
      if elements(node) {
        Visit(elements, dir, part, doneName, finished, answer, node, i, isXML, from);
        if part.Context? {
          if node == part.node {
            found := True;
          }
        } else if part.accepts(node) {
          found := Elem(node);
        }
      }
    }

    /** The inner loop of `dirCheck`, for entry `i` starting at `start`. */
    method WalkCheck(elements: Path -> bool, dir: Direction, part: Part, doneName: nat, checkSet: array<Entry>,
                     i: nat, start: Path, isXML: bool, ghost from: nat) returns (found: Entry)
      requires i < checkSet.Length && !part.Tag?
      requires Answers(elements, dir, part, doneName, checkSet[..i])
      requires forall q :: q in sizcache ==> sizcache[q] <= doneName
      requires from <= |evaluated| && (!isXML ==> TriedOnce(elements, doneName, from))
      modifies this
      ensures found == Nearest(elements, dir, part, start)
      ensures Answers(elements, dir, part, doneName, checkSet[..i] + [found])
      ensures forall q :: q in sizcache ==> sizcache[q] <= doneName
      ensures from <= |evaluated| && (!isXML ==> TriedOnce(elements, doneName, from))
    {
      ghost var answer, finished := Nearest(elements, dir, part, start), checkSet[..i];
      found := False;
      var elem := Along(dir, start);
      while elem.Some?
        invariant found == False && from <= |evaluated|
        invariant answer == if elem.Some? then NearestFrom(elements, dir, part, elem.value) else False
        invariant Awaits(elements, dir, part, doneName, finished, answer,
                         if elem.Some? then Distance(dir, elem.value) else -1)
        invariant forall q :: q in sizcache ==> sizcache[q] <= doneName
        invariant !isXML ==> TriedOnce(elements, doneName, from)
        decreases if elem.Some? then 1 + Distance(dir, elem.value) else 0
      {
        var node := elem.value;
        AlongShortens(dir, node);
        if node in sizcache && sizcache[node] == doneName {
          found := checkSet[sizset[node]];
          break;
        }
        found := TryElement(elements, dir, part, doneName, finished, answer, node, i, isXML, from);
        if found != False {
          break;
        }
        elem := Along(dir, node);
      }
    }

    /** `dirCheck`: the walk by any other selector or by the context node, which looks at elements only. */
    method DirCheck(elements: Path -> bool, dir: Direction, part: Part, doneName: nat, checkSet: array<Entry>,
                    isXML: bool)
      requires !part.Tag? && forall q :: q in sizcache ==> sizcache[q] < doneName
      modifies this, checkSet
      ensures forall i :: 0 <= i < checkSet.Length ==>
                checkSet[i] == Walked(elements, dir, part, old(checkSet[i]))
      ensures forall q :: q in sizcache ==> sizcache[q] <= doneName
      ensures !isXML ==> TriedOnce(elements, doneName, |old(evaluated)|)
    {
      for i := 0 to checkSet.Length
        invariant forall j :: 0 <= j < i ==> checkSet[j] == Walked(elements, dir, part, old(checkSet[j]))
        invariant forall j :: i <= j < checkSet.Length ==> checkSet[j] == old(checkSet[j])
        invariant Answers(elements, dir, part, doneName, checkSet[..i])
        invariant forall q :: q in sizcache ==> sizcache[q] <= doneName
        invariant |old(evaluated)| <= |evaluated|
        invariant !isXML ==> TriedOnce(elements, doneName, |old(evaluated)|)
      {
        ghost var finished := checkSet[..i];
        var found := False;
        if checkSet[i].Elem? {
          found := WalkCheck(elements, dir, part, doneName, checkSet, i, checkSet[i].node, isXML, |old(evaluated)|);
        }
        // `true` has neither parent nor sibling, and `false` is left alone
        checkSet[i] := found;
        assert checkSet[..i + 1] == finished + [found];
      }
    }
  }
}
