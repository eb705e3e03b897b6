/** Nodes of a document, named by their position: the child indices on the way down from the root. */
module Dom {
  import opened Options

  type Path = seq<nat>

  function ParentNode(p: Path): Option<Path> {
    if p == [] then None else Some(p[..|p| - 1])
  }

  function PreviousSibling(p: Path): Option<Path> {
    if p == [] || p[|p| - 1] == 0 then None else Some(p[|p| - 1 := p[|p| - 1] - 1])
  }

  datatype Direction = Up | Back

  function Along(dir: Direction, p: Path): Option<Path> {
    if dir == Up then ParentNode(p) else PreviousSibling(p)
  }

  /** How far the end of the chain is. */
  function Distance(dir: Direction, p: Path): nat {
    if dir == Up then |p| else if p == [] then 0 else p[|p| - 1]
  }

  lemma {:induction false} AlongShortens(dir: Direction, p: Path)
    ensures Along(dir, p).Some? ==> Distance(dir, Along(dir, p).value) < Distance(dir, p)
  {
  }

  predicate IsAncestor(a: Path, p: Path) {
    |a| < |p| && p[..|a|] == a
  }

  predicate IsEarlierSibling(s: Path, p: Path) {
    |s| == |p| > 0 && s[..|p| - 1] == p[..|p| - 1] && s[|p| - 1] < p[|p| - 1]
  }

  /** Strictly beyond `p` along the direction. */
  predicate Beyond(dir: Direction, q: Path, p: Path) {
    if dir == Up then IsAncestor(q, p) else IsEarlierSibling(q, p)
  }

  lemma {:induction false} BeyondStep(dir: Direction, q: Path, p: Path)
    ensures Beyond(dir, q, p) <==>
            Along(dir, p).Some? && (q == Along(dir, p).value || Beyond(dir, q, Along(dir, p).value))
  {
    if dir == Up && p != [] {
      var u := p[..|p| - 1];
      if IsAncestor(q, p) {
        assert u[..|q|] == p[..|q|];
      }
      if IsAncestor(q, u) {
        assert u[..|q|] == p[..|q|];
      }
    } else if dir == Back && p != [] && p[|p| - 1] > 0 {
      var s := p[|p| - 1 := p[|p| - 1] - 1];
      assert s[..|p| - 1] == p[..|p| - 1];
      if |q| == |p| && q[..|p| - 1] == p[..|p| - 1] && q[|p| - 1] == p[|p| - 1] - 1 {
        assert q == q[..|p| - 1] + [q[|p| - 1]] == s;
      }
    }
  }
}
