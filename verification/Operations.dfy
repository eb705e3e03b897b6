/**
  Memoised execution of operations with dependencies, src/net/vurs/entity/Operation.java: what `execute`,
  `processDependencies` and `getState` do to the states of all operations and to the transaction's log.
 */
module Operations {
  import D = Graphs

  datatype State = Pending | Preprocessing | Postprocessing | Success | Failure

  /** The two dependency lists of an operation and whether its own `op()` returns true. */
  datatype Node<T> = Node(pre: seq<T>, post: seq<T>, ok: bool)
  type Graph<!T> = map<T, Node<T>>

  /** What the transaction is told, and the calls of `op()` in between. */
  datatype Note<T> = Begin(op: T) | Ran(op: T) | Succeeded(op: T) | Failed(op: T)

  datatype World<!T> = World(state: map<T, State>, log: seq<Note<T>>)

  ghost predicate Within<T>(s: seq<T>, keys: set<T>) {
    forall i :: 0 <= i < |s| ==> s[i] in keys
  }

  ghost predicate Closed<T>(g: Graph<T>) {
    forall x :: x in g ==> Within(g[x].pre, g.Keys) && Within(g[x].post, g.Keys)
  }

  ghost predicate Fits<T>(g: Graph<T>, w: World<T>) {
    Closed(g) && w.state.Keys == g.Keys
  }

  /** The operations that the transaction has been told of. */
  function Told<T(==)>(log: seq<Note<T>>): set<T> {
    if log == [] then {} else Told(log[..|log| - 1]) + {log[|log| - 1].op}
  }

  function PendingIn<T>(state: map<T, State>): set<T> {
    set x | x in state && state[x] == Pending
  }

  lemma {:induction false} PendingUpdate<T>(state: map<T, State>, o: T, s: State)
    requires s != Pending
    ensures PendingIn(state[o := s]) == PendingIn(state) - {o}
  {
  }

  function Enter<T>(w: World<T>, o: T, s: State): World<T> {
    w.(state := w.state[o := s])
  }

  /** `execute` has begun and is about to look at the pre-dependencies. */
  function Opened<T>(w: World<T>, o: T): World<T> {
    Enter(w.(log := w.log + [Begin(o)]), o, Preprocessing)
  }

  /** `op()` has been called and the post-dependencies come next. */
  function Turned<T>(w: World<T>, o: T): World<T> {
    Enter(w.(log := w.log + [Ran(o)]), o, Postprocessing)
  }

  function Finish<T>(w: World<T>, o: T, ok: bool): World<T> {
    World(w.state[o := if ok then Success else Failure], w.log + [if ok then Succeeded(o) else Failed(o)])
  }

  /** `getState(true)`. */
  ghost function Visit<T>(g: Graph<T>, w: World<T>, o: T): (r: World<T>)
    requires Fits(g, w) && o in g
    ensures Fits(g, r) && PendingIn(r.state) <= PendingIn(w.state)
    decreases PendingIn(w.state), 1, 0
  {
    if w.state[o] == Pending then Execute(g, w, o) else w
  }

  /** The loop of `processDependencies` from one dependency on; the second part is its answer. */
  ghost function Process<T>(g: Graph<T>, w: World<T>, o: T, deps: seq<T>): (r: (World<T>, bool))
    requires Fits(g, w) && o in g && Within(deps, g.Keys) && w.state[o] != Pending
    ensures Fits(g, r.0) && PendingIn(r.0.state) <= PendingIn(w.state) && r.0.state[o] != Pending
    decreases PendingIn(w.state), 2, |deps|
  {
    assert o !in PendingIn(w.state);
    if deps == [] then (w, true)
    else
      var w1 := Visit(g, w, deps[0]);
      if w1.state[deps[0]] == Failure then
        PendingUpdate(w1.state, o, Failure);
        (Finish(w1, o, false), false)
      else
        assert o !in PendingIn(w1.state);
        Process(g, w1, o, deps[1..])
  }

  ghost function Execute<T>(g: Graph<T>, w: World<T>, o: T): (r: World<T>)
    requires Fits(g, w) && o in g
    ensures Fits(g, r) && PendingIn(r.state) <= PendingIn(w.state) - {o}
    decreases PendingIn(w.state), if w.state[o] == Pending then 0 else 3, 0
  {
    PendingUpdate(w.state, o, Preprocessing);
    assert w.state[o] == Pending ==> o in PendingIn(w.state);
    var (w2, go) := Process(g, Opened(w, o), o, g[o].pre);
    if !go then w2
    else
      PendingUpdate(w2.state, o, Postprocessing);
      assert o !in PendingIn(w2.state);
      var (w4, done) := Process(g, Turned(w2, o), o, g[o].post);
      PendingUpdate(w4.state, o, if g[o].ok then Success else Failure);
      if done then Finish(w4, o, g[o].ok) else w4
  }

  /** `execute` from its pre-dependencies on. */
  ghost function FromPreprocessing<T>(g: Graph<T>, w: World<T>, o: T): World<T>
    requires Fits(g, w) && o in g && w.state[o] != Pending
  {
    var (w2, go) := Process(g, w, o, g[o].pre);
    if go then FromPostprocessing(g, Turned(w2, o), o) else w2
  }

  /** `execute` from its post-dependencies on. */
  ghost function FromPostprocessing<T>(g: Graph<T>, w: World<T>, o: T): World<T>
    requires Fits(g, w) && o in g && w.state[o] != Pending
  {
    var (w4, done) := Process(g, w, o, g[o].post);
    if done then Finish(w4, o, g[o].ok) else w4
  }

  /** The stages of `execute`. */
  lemma {:induction false} ExecuteCases<T>(g: Graph<T>, w: World<T>, o: T)
    requires Fits(g, w) && o in g
    ensures PendingIn(Opened(w, o).state) == PendingIn(w.state) - {o}
    ensures w.state[o] == Pending ==> PendingIn(Opened(w, o).state) < PendingIn(w.state)
    ensures Execute(g, w, o) == FromPreprocessing(g, Opened(w, o), o)
  {
    PendingUpdate(w.state, o, Preprocessing);
    assert w.state[o] == Pending ==> o in PendingIn(w.state);
  }

  lemma {:induction false} TurnedPending<T>(w: World<T>, o: T)
    requires o in w.state
    ensures PendingIn(Turned(w, o).state) <= PendingIn(w.state) && Turned(w, o).state[o] != Pending
  {
    PendingUpdate(w.state, o, Postprocessing);
  }

  /** One turn of the loop over the dependencies. */
  lemma {:induction false} ProcessCases<T>(g: Graph<T>, w: World<T>, o: T, ops: seq<T>, i: nat)
    requires Fits(g, w) && o in g && Within(ops, g.Keys) && i < |ops| && w.state[o] != Pending
    ensures var w1 := Visit(g, w, ops[i]);
            && w1.state[o] != Pending
            && Process(g, w, o, ops[i..]) ==
               if w1.state[ops[i]] == Failure then (Finish(w1, o, false), false) else Process(g, w1, o, ops[i + 1..])
  {
    assert ops[i..][1..] == ops[i + 1..];
    assert o !in PendingIn(w.state);
    assert o !in PendingIn(Visit(g, w, ops[i]).state);
  }

  // ---------------------------------------------------------------- the log

  function Count<T(==)>(log: seq<Note<T>>, note: Note<T>): nat {
    if log == [] then 0 else Count(log[..|log| - 1], note) + if log[|log| - 1] == note then 1 else 0
  }

  function Runs<T(==)>(log: seq<Note<T>>, x: T): nat {
    if log == [] then 0 else Runs(log[..|log| - 1], x) + if log[|log| - 1] == Ran(x) then 1 else 0
  }

  datatype Stack<T> = Broken | Open(ops: seq<T>)

  /** The operations begun and not yet ended; `Broken` when a note does not concern the innermost one. */
  function Replay<T(==)>(log: seq<Note<T>>): Stack<T> {
    if log == [] then Open([])
    else
      var s, note := Replay(log[..|log| - 1]), log[|log| - 1];
      if s == Broken then Broken
      else if note.Begin? then Open(s.ops + [note.op])
      else if s.ops == [] || s.ops[|s.ops| - 1] != note.op then Broken
      else if note.Ran? then s
      else Open(s.ops[..|s.ops| - 1])
  }

  lemma {:induction false} Noted<T>(log: seq<Note<T>>, note: Note<T>, x: T)
    ensures Runs(log + [note], x) == Runs(log, x) + if note == Ran(x) then 1 else 0
    ensures Replay(log + [note]) ==
            if Replay(log) == Broken then Broken
            else if note.Begin? then Open(Replay(log).ops + [note.op])
            else if Replay(log).ops == [] || Replay(log).ops[|Replay(log).ops| - 1] != note.op then Broken
            else if note.Ran? then Replay(log)
            else Open(Replay(log).ops[..|Replay(log).ops| - 1])
  {
    assert (log + [note])[..|log|] == log;
  }

  lemma {:induction false} Counted<T>(log: seq<Note<T>>, note: Note<T>, x: Note<T>)
    ensures Count(log + [note], x) == Count(log, x) + if note == x then 1 else 0
  {
    assert (log + [note])[..|log|] == log;
  }

  lemma {:induction false} EndsNoted<T>(log: seq<Note<T>>, note: Note<T>, x: T)
    ensures Runs(log + [note], x) == Runs(log, x) + if note == Ran(x) then 1 else 0
    ensures Count(log + [note], Succeeded(x)) == Count(log, Succeeded(x)) + if note == Succeeded(x) then 1 else 0
    ensures Count(log + [note], Failed(x)) == Count(log, Failed(x)) + if note == Failed(x) then 1 else 0
  {
    Noted(log, note, x);
    Counted(log, note, Succeeded(x));
    Counted(log, note, Failed(x));
  }

  // ---------------------------------------------------------------- what one call keeps

  /** Operations that were not pending keep their state; those that were started have ended. */
  ghost predicate Keeps<T>(g: Graph<T>, w: World<T>, r: World<T>)
    requires w.state.Keys == g.Keys == r.state.Keys
  {
    forall x :: x in g ==>
      if w.state[x] == Pending then r.state[x] in {Pending, Success, Failure} else r.state[x] == w.state[x]
  }

  /** How often `op()` of `x` has been called fits its state, and so does what the transaction has been told of its
      end. */
  predicate RunsFit<T(==)>(w: World<T>, x: T)
    requires x in w.state
  {
    && (match w.state[x]
        case Pending => Runs(w.log, x) == 0
        case Preprocessing => Runs(w.log, x) == 0
        case Postprocessing => Runs(w.log, x) == 1
        case Success => Runs(w.log, x) == 1
        case Failure => Runs(w.log, x) <= 1)
    && Count(w.log, Succeeded(x)) == (if w.state[x] == Success then 1 else 0)
    && Count(w.log, Failed(x)) == (if w.state[x] == Failure then 1 else 0)
  }

  /** All of them have been executed, or are being executed. */
  ghost predicate NonePending<T>(w: World<T>, deps: seq<T>)
    requires Within(deps, w.state.Keys)
  {
    forall i :: 0 <= i < |deps| ==> w.state[deps[i]] != Pending
  }

  ghost predicate OneFailed<T>(w: World<T>, deps: seq<T>)
    requires Within(deps, w.state.Keys)
  {
    exists i :: 0 <= i < |deps| && w.state[deps[i]] == Failure
  }

  /** Why an operation that has ended did so the way it did. */
  ghost predicate Explained<T>(g: Graph<T>, w: World<T>, x: T)
    requires Fits(g, w) && x in g
  {
    && (w.state[x] == Success ==> g[x].ok && NonePending(w, g[x].pre) && NonePending(w, g[x].post))
    && (w.state[x] == Failure ==>
          OneFailed(w, g[x].pre) || OneFailed(w, g[x].post) ||
          (!g[x].ok && NonePending(w, g[x].pre) && NonePending(w, g[x].post)))
  }

  /** Everything a call that leaves no operation open keeps. */
  ghost predicate Proper<T>(g: Graph<T>, w: World<T>, r: World<T>)
    requires Closed(g) && w.state.Keys == g.Keys == r.state.Keys
  {
    && Keeps(g, w, r)
    && (forall x :: x in g && w.state[x] == Pending ==> Explained(g, r, x))
    && (Replay(w.log) != Broken ==> Replay(r.log) == Replay(w.log))
    && (forall x :: x in g && RunsFit(w, x) ==> RunsFit(r, x))
  }

  lemma {:induction false} NotTold<T>(log: seq<Note<T>>, x: T)
    requires x !in Told(log)
    ensures Runs(log, x) == 0
  {
    if log != [] { NotTold(log[..|log| - 1], x); }
  }

  lemma {:induction false} ToldMore<T>(log: seq<Note<T>>, note: Note<T>)
    ensures Told(log + [note]) == Told(log) + {note.op}
  {
    assert (log + [note])[..|log|] == log;
  }

  lemma {:induction false} ProperTransitive<T>(g: Graph<T>, u: World<T>, v: World<T>, w: World<T>)
    requires Closed(g) && u.state.Keys == v.state.Keys == w.state.Keys == g.Keys
    requires Proper(g, u, v) && Proper(g, v, w)
    ensures Proper(g, u, w)
  {
    forall x | x in g && u.state[x] == Pending ensures Explained(g, w, x) {
      if v.state[x] != Pending { StaysExplained(g, v, w, x); }
    }
  }

  lemma {:induction false} StaysExplained<T>(g: Graph<T>, v: World<T>, w: World<T>, x: T)
    requires Closed(g) && v.state.Keys == w.state.Keys == g.Keys && x in g
    requires Keeps(g, v, w) && Explained(g, v, x) && v.state[x] == w.state[x]
    ensures Explained(g, w, x)
  {
    if OneFailed(v, g[x].pre) {
      var i :| 0 <= i < |g[x].pre| && v.state[g[x].pre[i]] == Failure;
      assert w.state[g[x].pre[i]] == Failure;
    }
    if OneFailed(v, g[x].post) {
      var i :| 0 <= i < |g[x].post| && v.state[g[x].post[i]] == Failure;
      assert w.state[g[x].post[i]] == Failure;
    }
  }

  lemma {:induction false} VisitProper<T>(g: Graph<T>, w: World<T>, o: T)
    requires Fits(g, w) && o in g
    ensures Proper(g, w, Visit(g, w, o)) && Visit(g, w, o).state[o] != Pending
    decreases PendingIn(w.state), 1, 0
  {
    if w.state[o] == Pending { ExecuteProper(g, w, o); }
  }

  lemma {:induction false} ProcessProper<T>(g: Graph<T>, w: World<T>, o: T, deps: seq<T>) returns (v: World<T>)
    requires Fits(g, w) && o in g && Within(deps, g.Keys) && w.state[o] != Pending
    ensures Fits(g, v) && Proper(g, w, v)
    ensures var (r, go) := Process(g, w, o, deps);
            r == (if go then v else Finish(v, o, false)) && if go then NonePending(v, deps) else OneFailed(v, deps)
    decreases PendingIn(w.state), 2, |deps|
  {
    if deps == [] {
      v := w;
    } else {
      var w1 := Visit(g, w, deps[0]);
      VisitProper(g, w, deps[0]);
      v := w1;
      if w1.state[deps[0]] != Failure {
        v := ProcessProper(g, w1, o, deps[1..]);
        ProperTransitive(g, w, w1, v);
        MoreDeps(v, deps);
      }
    }
  }

  lemma {:induction false} MoreDeps<T>(v: World<T>, deps: seq<T>)
    requires deps != [] && Within(deps, v.state.Keys) && Within(deps[1..], v.state.Keys) && v.state[deps[0]] != Pending
    ensures NonePending(v, deps[1..]) ==> NonePending(v, deps)
    ensures OneFailed(v, deps[1..]) ==> OneFailed(v, deps)
  {
    assert forall i :: 0 < i < |deps| ==> deps[i] == deps[1..][i - 1];
    if OneFailed(v, deps[1..]) {
      var i :| 0 <= i < |deps[1..]| && v.state[deps[1..][i]] == Failure;
      assert v.state[deps[i + 1]] == Failure;
    }
  }

  lemma {:induction false} ReplayEnded<T>(w: World<T>, v: World<T>, o: T, ok: bool)
    requires Replay(Opened(w, o).log) != Broken ==> Replay(v.log) == Replay(Opened(w, o).log)
    ensures Replay(w.log) != Broken ==> Replay(Finish(v, o, ok).log) == Replay(w.log)
  {
    Noted(w.log, Begin(o), o);
    Noted(v.log, if ok then Succeeded(o) else Failed(o), o);
    if Replay(w.log) != Broken {
      assert (Replay(w.log).ops + [o])[..|Replay(w.log).ops|] == Replay(w.log).ops;
    }
  }

  lemma {:induction false} ReplayTurned<T>(w: World<T>, v: World<T>, o: T)
    requires Replay(Opened(w, o).log) != Broken ==> Replay(v.log) == Replay(Opened(w, o).log)
    ensures Replay(Opened(w, o).log) != Broken ==> Replay(Turned(v, o).log) == Replay(Opened(w, o).log)
  {
    Noted(w.log, Begin(o), o);
    Noted(v.log, Ran(o), o);
  }

  lemma {:induction false} RunsAround<T>(w: World<T>, o: T, s: State, note: Note<T>, x: T)
    requires o in w.state && x in w.state && x != o && note.op == o
    ensures RunsFit(Enter(w.(log := w.log + [note]), o, s), x) <==> RunsFit(w, x)
  {
    EndsNoted(w.log, note, x);
    var r := Enter(w.(log := w.log + [note]), o, s);
    assert r.state[x] == w.state[x] && Runs(r.log, x) == Runs(w.log, x);
    assert Count(r.log, Succeeded(x)) == Count(w.log, Succeeded(x));
    assert Count(r.log, Failed(x)) == Count(w.log, Failed(x));
  }

  lemma {:induction false} EndedRuns<T>(g: Graph<T>, w: World<T>, v: World<T>, o: T, x: T)
    requires Fits(g, w) && v.state.Keys == g.Keys && o in g && x in g && w.state[o] == Pending
    requires Proper(g, Opened(w, o), v) && RunsFit(w, x)
    ensures RunsFit(Finish(v, o, false), x)
  {
    if x == o {
      EndsNoted(w.log, Begin(o), o);
      EndsNoted(v.log, Failed(o), o);
    } else {
      RunsAround(w, o, Preprocessing, Begin(o), x);
      RunsAround(v, o, Failure, Failed(o), x);
    }
  }

  lemma {:induction false} TurnedRuns<T>(g: Graph<T>, w: World<T>, v: World<T>, u: World<T>, o: T, ok: bool, x: T)
    requires Fits(g, w) && v.state.Keys == g.Keys == u.state.Keys && o in g && x in g && w.state[o] == Pending
    requires Proper(g, Opened(w, o), v) && Proper(g, Turned(v, o), u) && RunsFit(w, x)
    ensures RunsFit(Finish(u, o, ok), x)
  {
    if x == o {
      EndsNoted(w.log, Begin(o), o);
      EndsNoted(v.log, Ran(o), o);
      EndsNoted(u.log, if ok then Succeeded(o) else Failed(o), o);
    } else {
      RunsAround(w, o, Preprocessing, Begin(o), x);
      RunsAround(v, o, Postprocessing, Ran(o), x);
      RunsAround(u, o, if ok then Success else Failure, if ok then Succeeded(o) else Failed(o), x);
    }
  }

  /** What holds of the others holds after `o` has ended, and `o` is explained itself. */
  lemma {:induction false} FinishExplained<T>(g: Graph<T>, v: World<T>, o: T, ok: bool, x: T)
    requires Fits(g, v) && o in g && x in g && v.state[o] in {Preprocessing, Postprocessing}
    requires x != o ==> Explained(g, v, x)
    requires if ok then g[o].ok && NonePending(v, g[o].pre) && NonePending(v, g[o].post)
             else OneFailed(v, g[o].pre) || OneFailed(v, g[o].post) ||
                  (!g[o].ok && NonePending(v, g[o].pre) && NonePending(v, g[o].post))
    ensures Explained(g, Finish(v, o, ok), x)
  {
    var r := Finish(v, o, ok);
    if OneFailed(v, g[x].pre) {
      var i :| 0 <= i < |g[x].pre| && v.state[g[x].pre[i]] == Failure;
      assert r.state[g[x].pre[i]] == Failure;
    }
    if OneFailed(v, g[x].post) {
      var i :| 0 <= i < |g[x].post| && v.state[g[x].post[i]] == Failure;
      assert r.state[g[x].post[i]] == Failure;
    }
  }

  /** Ending `o` right after a pre-dependency has failed. */
  lemma {:induction false} EndedProper<T>(g: Graph<T>, w: World<T>, v: World<T>, o: T)
    requires Fits(g, w) && v.state.Keys == g.Keys && o in g && w.state[o] == Pending
    requires Proper(g, Opened(w, o), v) && OneFailed(v, g[o].pre)
    ensures Proper(g, w, Finish(v, o, false))
  {
    ReplayEnded(w, v, o, false);
    forall x | x in g && RunsFit(w, x) ensures RunsFit(Finish(v, o, false), x) {
      EndedRuns(g, w, v, o, x);
    }
    forall x | x in g && w.state[x] == Pending ensures Explained(g, Finish(v, o, false), x) {
      FinishExplained(g, v, o, false, x);
    }
  }

  /** Calling `op()` in between. */
  lemma {:induction false} TurnedProper<T>(g: Graph<T>, w: World<T>, v: World<T>, u: World<T>, o: T, done: bool)
    requires Fits(g, w) && v.state.Keys == g.Keys == u.state.Keys && o in g && w.state[o] == Pending
    requires Proper(g, Opened(w, o), v) && Proper(g, Turned(v, o), u)
    requires NonePending(v, g[o].pre) && if done then NonePending(u, g[o].post) else OneFailed(u, g[o].post)
    ensures Proper(g, w, Finish(u, o, done && g[o].ok))
  {
    var ok := done && g[o].ok;
    ReplayTurned(w, v, o);
    ReplayEnded(w, u, o, ok);
    forall x | x in g && RunsFit(w, x) ensures RunsFit(Finish(u, o, ok), x) {
      TurnedRuns(g, w, v, u, o, ok, x);
    }
    forall x | x in g && w.state[x] == Pending ensures Explained(g, Finish(u, o, ok), x) {
      NewlyExplained(g, w, v, u, o, done, x);
    }
  }

  lemma {:induction false} NewlyExplained<T>(g: Graph<T>, w: World<T>, v: World<T>, u: World<T>, o: T, done: bool, x: T)
    requires Fits(g, w) && v.state.Keys == g.Keys == u.state.Keys && o in g && w.state[o] == Pending
    requires Proper(g, Opened(w, o), v) && Proper(g, Turned(v, o), u)
    requires NonePending(v, g[o].pre) && if done then NonePending(u, g[o].post) else OneFailed(u, g[o].post)
    requires x in g && w.state[x] == Pending
    ensures Explained(g, Finish(u, o, done && g[o].ok), x)
  {
    assert NonePending(u, g[o].pre) by {
      assert forall i :: 0 <= i < |g[o].pre| ==> Turned(v, o).state[g[o].pre[i]] != Pending;
    }
    if x != o { TurnedExplained(g, v, u, o, x); }
    FinishExplained(g, u, o, done && g[o].ok, x);
  }

  lemma {:induction false} TurnedExplained<T>(g: Graph<T>, v: World<T>, u: World<T>, o: T, x: T)
    requires Fits(g, v) && u.state.Keys == g.Keys && o in g && x in g && x != o
    requires v.state[o] == Preprocessing && Explained(g, v, x) && Proper(g, Turned(v, o), u)
    ensures Explained(g, u, x)
  {
    var t := Turned(v, o);
    if v.state[x] != Pending {
      if OneFailed(v, g[x].pre) {
        var i :| 0 <= i < |g[x].pre| && v.state[g[x].pre[i]] == Failure;
        assert t.state[g[x].pre[i]] == Failure;
      }
      if OneFailed(v, g[x].post) {
        var i :| 0 <= i < |g[x].post| && v.state[g[x].post[i]] == Failure;
        assert t.state[g[x].post[i]] == Failure;
      }
      assert Explained(g, t, x);
      StaysExplained(g, t, u, x);
    }
  }

  lemma {:induction false} ExecuteProper<T>(g: Graph<T>, w: World<T>, o: T)
    requires Fits(g, w) && o in g && w.state[o] == Pending
    ensures Proper(g, w, Execute(g, w, o))
    decreases PendingIn(w.state), 0, 0
  {
    PendingUpdate(w.state, o, Preprocessing);
    assert o in PendingIn(w.state);
    var v := ProcessProper(g, Opened(w, o), o, g[o].pre);
    var (w2, go) := Process(g, Opened(w, o), o, g[o].pre);
    if !go {
      EndedProper(g, w, v, o);
    } else {
      PendingUpdate(w2.state, o, Postprocessing);
      var u := ProcessProper(g, Turned(w2, o), o, g[o].post);
      var (w4, done) := Process(g, Turned(w2, o), o, g[o].post);
      TurnedProper(g, w, v, u, o, done);
    }
  }

  // ---------------------------------------------------------------- acyclic graphs with pre-dependencies only

  /** Pre-dependencies have smaller ranks and there are no post-dependencies. */
  ghost predicate Layered<T>(g: Graph<T>, rank: map<T, nat>) {
    && Closed(g) && rank.Keys == g.Keys
    && forall x :: x in g ==> g[x].post == [] && forall i :: 0 <= i < |g[x].pre| ==> rank[g[x].pre[i]] < rank[x]
  }

  /** The operation's own `op()` and, recursively, all its pre-dependencies succeed. */
  ghost predicate Good<T>(g: Graph<T>, rank: map<T, nat>, o: T)
    requires Layered(g, rank) && o in g
    decreases rank[o]
  {
    g[o].ok && forall i :: 0 <= i < |g[o].pre| ==> Good(g, rank, g[o].pre[i])
  }

  /** Whenever `op()` of an operation has been called, it had been called before for all its pre-dependencies. */
  ghost predicate Topological<T>(g: Graph<T>, log: seq<Note<T>>) {
    forall k, i :: 0 <= k < |log| && log[k].Ran? && log[k].op in g && 0 <= i < |g[log[k].op].pre| ==>
      Ran(g[log[k].op].pre[i]) in log[..k]
  }

  ghost predicate Consistent<T>(g: Graph<T>, rank: map<T, nat>, w: World<T>)
    requires Layered(g, rank) && w.state.Keys == g.Keys
  {
    && (forall x :: x in g && w.state[x] == Success ==> Good(g, rank, x) && Ran(x) in w.log)
    && (forall x :: x in g && w.state[x] == Failure ==> !Good(g, rank, x))
    && Topological(g, w.log)
  }

  /** Operations in progress have rank `k` at least. */
  ghost predicate BusyAbove<T>(g: Graph<T>, rank: map<T, nat>, w: World<T>, k: nat)
    requires rank.Keys == w.state.Keys
  {
    forall x :: x in w.state && w.state[x] in {Preprocessing, Postprocessing} ==> rank[x] >= k
  }

  lemma {:induction false} TopologicalSnoc<T>(g: Graph<T>, log: seq<Note<T>>, note: Note<T>)
    requires Topological(g, log)
    requires note.Ran? && note.op in g ==> forall i :: 0 <= i < |g[note.op].pre| ==> Ran(g[note.op].pre[i]) in log
    ensures Topological(g, log + [note])
  {
    var after := log + [note];
    forall k, i | 0 <= k < |after| && after[k].Ran? && after[k].op in g && 0 <= i < |g[after[k].op].pre|
      ensures Ran(g[after[k].op].pre[i]) in after[..k]
    {
      assert after[..k] == log[..k];
      if k == |log| { assert log[..k] == log; }
    }
  }

  lemma {:induction false} VisitGood<T>(g: Graph<T>, rank: map<T, nat>, w: World<T>, o: T)
    requires Layered(g, rank) && Fits(g, w) && o in g
    requires Consistent(g, rank, w) && BusyAbove(g, rank, w, rank[o] + 1)
    ensures var r := Visit(g, w, o);
            && Consistent(g, rank, r) && Keeps(g, w, r)
            && r.state[o] == if Good(g, rank, o) then Success else Failure
    decreases rank[o], 2, 0
  {
    VisitProper(g, w, o);
    if w.state[o] == Pending { ExecuteGood(g, rank, w, o); }
  }

  lemma {:induction false} ProcessGood<T>(g: Graph<T>, rank: map<T, nat>, w: World<T>, o: T, deps: seq<T>)
      returns (v: World<T>)
    requires Layered(g, rank) && Fits(g, w) && o in g && Within(deps, g.Keys) && w.state[o] == Preprocessing
    requires forall i :: 0 <= i < |deps| ==> rank[deps[i]] < rank[o]
    requires Consistent(g, rank, w) && BusyAbove(g, rank, w, rank[o])
    ensures Fits(g, v) && Consistent(g, rank, v) && Keeps(g, w, v)
    ensures var (r, go) := Process(g, w, o, deps);
            && r == (if go then v else Finish(v, o, false))
            && (go <==> forall i :: 0 <= i < |deps| ==> Good(g, rank, deps[i]))
            && (go ==> forall i :: 0 <= i < |deps| ==> v.state[deps[i]] == Success)
    decreases rank[o], 0, |deps|
  {
    if deps == [] {
      v := w;
    } else {
      VisitGood(g, rank, w, deps[0]);
      var w1 := Visit(g, w, deps[0]);
      if w1.state[deps[0]] == Failure {
        v := w1;
      } else {
        v := ProcessGood(g, rank, w1, o, deps[1..]);
        var rest := deps[1..];
        assert forall i :: 0 < i < |deps| ==> deps[i] == rest[i - 1];
        assert forall i :: 0 <= i < |rest| ==> rest[i] == deps[i + 1];
        assert v.state[deps[0]] == Success;
      }
    }
  }

  lemma {:induction false} ExecuteGood<T>(g: Graph<T>, rank: map<T, nat>, w: World<T>, o: T)
    requires Layered(g, rank) && Fits(g, w) && o in g && w.state[o] == Pending
    requires Consistent(g, rank, w) && BusyAbove(g, rank, w, rank[o] + 1)
    ensures var r := Execute(g, w, o);
            Consistent(g, rank, r) && r.state[o] == if Good(g, rank, o) then Success else Failure
    decreases rank[o], 1, 0
  {
    TopologicalSnoc(g, w.log, Begin(o));
    var v := ProcessGood(g, rank, Opened(w, o), o, g[o].pre);
    var (w2, go) := Process(g, Opened(w, o), o, g[o].pre);
    if go {
      TopologicalSnoc(g, v.log, Ran(o));
      FinishGood(g, rank, Turned(v, o), o, g[o].ok);
      assert Process(g, Turned(w2, o), o, []) == (Turned(w2, o), true);
    } else {
      FinishGood(g, rank, v, o, false);
    }
  }

  lemma {:induction false} FinishGood<T>(g: Graph<T>, rank: map<T, nat>, v: World<T>, o: T, ok: bool)
    requires Layered(g, rank) && v.state.Keys == g.Keys && o in g
    requires Consistent(g, rank, v) && (ok <==> Good(g, rank, o)) && (ok ==> Ran(o) in v.log)
    ensures Consistent(g, rank, Finish(v, o, ok))
  {
    TopologicalSnoc(g, v.log, if ok then Succeeded(o) else Failed(o));
  }

  // ---------------------------------------------------------------- any sequence of calls

  /** `getState(true)`, `getResult` and `getValue` all do this, on one operation after the other. */
  ghost function Calls<T>(g: Graph<T>, w: World<T>, os: seq<T>): (r: World<T>)
    requires Fits(g, w) && Within(os, g.Keys)
    ensures Fits(g, r)
    decreases os
  {
    if os == [] then w else Calls(g, Visit(g, w, os[0]), os[1..])
  }

  function Untouched<T>(g: Graph<T>): World<T> {
    World(map x | x in g :: Pending, [])
  }

  lemma {:induction false} CallsProper<T>(g: Graph<T>, w: World<T>, os: seq<T>)
    requires Fits(g, w) && Within(os, g.Keys)
    ensures Proper(g, w, Calls(g, w, os))
    ensures forall i :: 0 <= i < |os| ==> Calls(g, w, os).state[os[i]] != Pending
    decreases os
  {
    if os != [] {
      var w1 := Visit(g, w, os[0]);
      VisitProper(g, w, os[0]);
      CallsProper(g, w1, os[1..]);
      ProperTransitive(g, w, w1, Calls(g, w, os));
      assert forall i :: 0 < i < |os| ==> os[i] == os[1..][i - 1];
    }
  }

  /** On every graph, cyclic or not, and after any sequence of calls: whatever was asked for has ended in success or
      failure, nothing is left in progress, each `op()` has been called at most once, never for a pending operation and
      always for a successful one; the transaction has been told exactly once of each success and of each failure, and
      notifications are properly nested.  An operation that has succeeded is one whose `op()` did, and all of its pre-
      and post-dependencies have been executed; one that has failed has a dependency that did, or its `op()` failed. */
  lemma {:induction false} ExecutionTheorem<T>(g: Graph<T>, os: seq<T>, x: T)
    requires Closed(g) && Within(os, g.Keys) && x in g
    ensures var r := Calls(g, Untouched(g), os);
            && r.state[x] in {Pending, Success, Failure}
            && (x in os ==> r.state[x] != Pending)
            && Runs(r.log, x) <= (if r.state[x] == Pending then 0 else 1)
            && (r.state[x] == Success ==> Runs(r.log, x) == 1)
            && Count(r.log, Succeeded(x)) == (if r.state[x] == Success then 1 else 0)
            && Count(r.log, Failed(x)) == (if r.state[x] == Failure then 1 else 0)
            && Replay(r.log) == Open([]) && RunsFit(r, x) && Explained(g, r, x)
  {
    var w := Untouched(g);
    CallsProper(g, w, os);
    assert RunsFit(w, x);
  }

  lemma {:induction false} CallsGood<T>(g: Graph<T>, rank: map<T, nat>, w: World<T>, os: seq<T>)
    requires Layered(g, rank) && Fits(g, w) && Within(os, g.Keys)
    requires Consistent(g, rank, w) && forall x :: x in g ==> w.state[x] in {Pending, Success, Failure}
    ensures Consistent(g, rank, Calls(g, w, os))
    decreases os
  {
    if os != [] {
      VisitGood(g, rank, w, os[0]);
      CallsGood(g, rank, Visit(g, w, os[0]), os[1..]);
    }
  }

  /** On an acyclic graph with pre-dependencies only, an operation asked for ends in success exactly when its own `op()`
      and recursively all its pre-dependencies succeed, and the calls of `op()` are in topological order. */
  lemma {:induction false} SuccessTheorem<T>(g: Graph<T>, rank: map<T, nat>, os: seq<T>, x: T)
    requires Layered(g, rank) && Within(os, g.Keys) && x in os && x in g
    ensures var r := Calls(g, Untouched(g), os);
            && r.state[x] == (if Good(g, rank, x) then Success else Failure)
            && Topological(g, r.log)
  {
    var w := Untouched(g);
    CallsProper(g, w, os);
    CallsGood(g, rank, w, os);
    assert RunsFit(w, x);
  }

  /** The dependency relation as a plain graph. */
  function Dependencies<T>(g: Graph<T>): D.Graph<T> {
    map x | x in g :: set d | d in g[x].pre
  }

  /** Where there is no cycle of pre-dependencies there are such ranks. */
  lemma {:induction false} AcyclicIsLayered<T(!new)>(g: Graph<T>) returns (rank: map<T, nat>)
    requires Closed(g) && D.Acyclic(Dependencies(g)) && forall x :: x in g ==> g[x].post == []
    ensures Layered(g, rank)
  {
    rank := D.RankExists(Dependencies(g), g.Keys);
    forall x, i | x in g && 0 <= i < |g[x].pre| ensures rank[g[x].pre[i]] < rank[x] {
      assert g[x].pre[i] in Dependencies(g)[x];
    }
  }
}
