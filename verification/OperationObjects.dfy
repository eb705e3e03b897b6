/**
  `Operation` and its `Transaction` as objects: re-entrant methods over the whole object graph.  A `Session` stands for
  the operations of a program, of whichever transaction; it carries, as ghost state, the graph and the world of module
  Operations, and `Valid` ties them to the fields of the objects.
 */
module OperationObjects {
  import opened Operations

  /** What `op()` answers: whether it succeeded, and the result and value it leaves. */
  datatype Outcome = Outcome(ok: bool, result: int, value: int)
  datatype Maybe = Absent | Present(content: int)

  class Session {
    ghost var all: set<Operation>
    ghost var graph: Graph<Operation>
    ghost var world: World<Operation>

    constructor ()
      ensures Valid() && all == {} && graph == map[] && world == World(map[], [])
    {
      all, graph, world := {}, map[], World(map[], []);
    }

    ghost predicate Valid()
      reads this, all
    {
      && all == graph.Keys && Fits(graph, world) && Told(world.log) <= all
      && forall o :: o in all ==> Described(o)
    }

    /** The ghost state describes the operation; result and value are there exactly if its `op()` has been called. */
    ghost predicate Described(o: Operation)
      requires o in graph && o in world.state
      reads this, o
    {
      && o.session == this
      && graph[o] == Node(o.preDependencies, o.postDependencies, o.outcome.ok)
      && o.state == world.state[o]
      && o.result == (if Runs(world.log, o) > 0 then Present(o.outcome.result) else Absent)
      && o.value == (if Runs(world.log, o) > 0 then Present(o.outcome.value) else Absent)
    }

    /** Takes in a pending operation without dependencies. */
    ghost method Enlist(op: Operation)
      requires Valid() && op !in all && op.session == this && op.state == Pending
      requires op.preDependencies == op.postDependencies == [] && op.result == op.value == Absent
      modifies this`all, this`graph, this`world
      ensures Valid() && all == old(all) + {op}
      ensures graph == old(graph)[op := Node([], [], op.outcome.ok)]
      ensures world == World(old(world).state[op := Pending], old(world).log)
    {
      NotTold(world.log, op);
      all := all + {op};
      graph := graph[op := Node([], [], op.outcome.ok)];
      world := World(world.state[op := Pending], world.log);
      assert Closed(graph) && Told(world.log) <= all;
      forall o | o in all ensures Described(o) {
        if o != op { assert old(Described(o)); }
      }
    }

    /** Takes note of the dependencies that an operation has been given. */
    ghost method Amend(op: Operation)
      requires op in all && all == graph.Keys && Fits(graph, world) && Told(world.log) <= all
      requires Within(op.preDependencies, all) && Within(op.postDependencies, all)
      requires forall o :: o in all && o != op ==> Described(o)
      requires op.session == this && op.state == world.state[op]
      requires op.result == if Runs(world.log, op) > 0 then Present(op.outcome.result) else Absent
      requires op.value == if Runs(world.log, op) > 0 then Present(op.outcome.value) else Absent
      modifies this`graph
      ensures Valid() && graph == old(graph)[op := Node(op.preDependencies, op.postDependencies, op.outcome.ok)]
    {
      graph := graph[op := Node(op.preDependencies, op.postDependencies, op.outcome.ok)];
      assert forall o :: o in all && o != op ==> old(Described(o));
    }

    /** Takes note of what an operation has done, and of the state that it has moved on to. */
    ghost method Record(op: Operation, note: Note<Operation>, s: State)
      requires op in all && all == graph.Keys && Fits(graph, world) && Told(world.log) <= all && note.op == op
      requires forall o :: o in all && o != op ==> Described(o)
      requires op.session == this && op.state == s
      requires graph[op] == Node(op.preDependencies, op.postDependencies, op.outcome.ok)
      requires op.result == if Runs(world.log + [note], op) > 0 then Present(op.outcome.result) else Absent
      requires op.value == if Runs(world.log + [note], op) > 0 then Present(op.outcome.value) else Absent
      modifies this`world
      ensures Valid() && world == Enter(old(world).(log := old(world).log + [note]), op, s)
    {
      ghost var before := world;
      world := Enter(before.(log := before.log + [note]), op, s);
      ToldMore(before.log, note);
      forall o | o in all && o != op ensures Described(o) {
        Noted(before.log, note, o);
        assert old(Described(o));
      }
    }
  }

  class Transaction {
    const session: Session
    var operations: set<Operation>

    constructor (session: Session)
      ensures this.session == session && operations == {}
    {
      this.session := session;
      operations := {};
    }

    method Add(op: Operation)
      modifies this`operations
      ensures operations == old(operations) + {op}
    {
      operations := operations + {op};
    }

    method Remove(op: Operation)
      modifies this`operations
      ensures operations == old(operations) - {op}
    {
      operations := operations - {op};
    }
  }

  class Operation {
    const session: Session
    const outcome: Outcome
    var transaction: Transaction
    var state: State
    var result: Maybe
    var value: Maybe
    var preDependencies: seq<Operation>
    var postDependencies: seq<Operation>

    constructor (transaction: Transaction, outcome: Outcome)
      requires transaction.session.Valid()
      modifies transaction.session, transaction`operations
      ensures Valid() && session == transaction.session && this.transaction == transaction && this.outcome == outcome
      ensures state == Pending && preDependencies == [] && postDependencies == []
      ensures transaction.operations == old(transaction.operations) + {this}
      ensures session.all == old(transaction.session.all) + {this}
      ensures session.graph == old(transaction.session.graph)[this := Node([], [], outcome.ok)]
      ensures session.world == World(old(transaction.session.world).state[this := Pending],
                                     old(transaction.session.world).log)
    {
      this.session := transaction.session;
      this.transaction := transaction;
      this.outcome := outcome;
      state, result, value := Pending, Absent, Absent;
      preDependencies, postDependencies := [], [];
      new;
      transaction.Add(this);
      session.Enlist(this);
    }

    ghost predicate Valid()
      reads this, session, session.all
    {
      this in session.all && session.Valid()
    }

    /** Moves the operation, executed or not and whatever depends on it, to another transaction or to its own again. */
    method Bind(other: Transaction) returns (oldTransaction: Transaction)
      requires Valid() && other.session == session
      modifies this`transaction, transaction`operations, other`operations
      ensures Valid() && oldTransaction == old(transaction) && transaction == other
      ensures other.operations == old(other.operations) + {this}
      ensures oldTransaction != other ==> oldTransaction.operations == old(transaction.operations) - {this}
    {
      oldTransaction := transaction;
      oldTransaction.Remove(this);
      transaction := other;
      other.Add(this);
    }

    method AddPreDependency(op: Operation)
      requires Valid() && op in session.all
      modifies this`preDependencies, session`graph
      ensures Valid() && preDependencies == old(preDependencies) + [op]
      ensures session.graph == old(session.graph)[this := Node(preDependencies, postDependencies, outcome.ok)]
    {
      assert session.Described(this);
      preDependencies := preDependencies + [op];
      assert forall o :: o in session.all && o != this ==> old(session.Described(o));
      session.Amend(this);
    }

    /** Also makes this operation a pre-dependency of the other. */
    method AddPostDependency(op: Operation)
      requires Valid() && op in session.all
      modifies this`postDependencies, op`preDependencies, session`graph
      ensures Valid() && postDependencies == old(postDependencies) + [op]
      ensures op.preDependencies == old(op.preDependencies) + [this]
    {
      assert session.Described(this);
      postDependencies := postDependencies + [op];
      assert forall o :: o in session.all && o != this ==> old(session.Described(o));
      session.Amend(this);
      op.AddPreDependency(this);
    }

    method Execute()
      requires Valid()
      modifies session.all`state, session.all`result, session.all`value, session`world
      ensures Valid() && session.world == Operations.Execute(session.graph, old(session.world), this)
      decreases PendingIn(session.world.state), if state == Pending then 0 else 7, 0
    {
      ExecuteCases(session.graph, session.world, this);
      Note(Begin(this), Preprocessing);
      Proceed();
    }

    /** What `execute` does once it has told the transaction that it has begun. */
    method Proceed()
      requires Valid() && state != Pending
      modifies session.all`state, session.all`result, session.all`value, session`world
      ensures Valid() && session.world == FromPreprocessing(session.graph, old(session.world), this)
      decreases PendingIn(session.world.state), 6, 0
    {
      var go := ProcessDependencies(preDependencies);
      if go {
        Complete();
      }
    }

    /** What it does once all pre-dependencies are in order. */
    method Complete()
      requires Valid() && state != Pending
      modifies session.all`state, session.all`result, session.all`value, session`world
      ensures Valid()
      ensures session.world ==
              FromPostprocessing(session.graph, Turned(old(session.world), this), this)
      decreases PendingIn(session.world.state), 5, 0
    {
      TurnedPending(session.world, this);
      CallOp();
      Conclude();
    }

    /** What it does once `op()` has been called. */
    method Conclude()
      requires Valid() && state != Pending
      modifies session.all`state, session.all`result, session.all`value, session`world
      ensures Valid() && session.world == FromPostprocessing(session.graph, old(session.world), this)
      decreases PendingIn(session.world.state), 4, 0
    {
      var go := ProcessDependencies(postDependencies);
      if go {
        End(outcome.ok);
      }
    }

    /** Tells the transaction something other than a call of `op()`, and takes the state that goes with it. */
    method Note(ghost note: Note<Operation>, s: State)
      requires Valid() && !note.Ran? && note.op == this
      modifies this`state, session`world
      ensures Valid()
      ensures session.world == Enter(old(session.world).(log := old(session.world).log + [note]), this, s)
    {
      assert session.Described(this);
      Noted(session.world.log, note, this);
      state := s;
      assert forall o :: o in session.all && o != this ==> old(session.Described(o));
      session.Record(this, note, s);
    }

    /** The call of `op()`, what `execute` keeps of its answer, and the state it moves on to. */
    method CallOp()
      requires Valid()
      modifies this`state, this`result, this`value, session`world
      ensures Valid() && session.world == Turned(old(session.world), this)
    {
      assert session.Described(this);
      Noted(session.world.log, Ran(this), this);
      result := Present(outcome.result);
      value := Present(outcome.value);
      state := Postprocessing;
      assert forall o :: o in session.all && o != this ==> old(session.Described(o));
      session.Record(this, Ran(this), Postprocessing);
    }

    /** Ends in success or failure. */
    method End(ok: bool)
      requires Valid()
      modifies this`state, session`world
      ensures Valid() && session.world == Finish(old(session.world), this, ok)
    {
      if ok {
        Note(Succeeded(this), Success);
      } else {
        Note(Failed(this), Failure);
      }
    }

    /** The loop of `processDependencies`, after the state has been set. */
    method ProcessDependencies(ops: seq<Operation>) returns (go: bool)
      requires Valid() && state != Pending && Within(ops, session.graph.Keys)
      modifies session.all`state, session.all`result, session.all`value, session`world
      ensures Valid()
      ensures (session.world, go) == Process(session.graph, old(session.world), this, ops)
      decreases PendingIn(session.world.state), 3, 0
    {
      ghost var g, w := session.graph, session.world;
      for i := 0 to |ops|
        invariant Valid() && session.graph == g && state != Pending
        invariant PendingIn(session.world.state) <= PendingIn(w.state) && Within(ops[i..], g.Keys)
        invariant Process(g, session.world, this, ops[i..]) == Process(g, w, this, ops)
      {
        var failed := ProcessDependency(ops, i);
        if failed {
          return false;
        }
      }
      return true;
    }

    /** The body of that loop. */
    method ProcessDependency(ops: seq<Operation>, i: nat) returns (failed: bool)
      requires Valid() && state != Pending && Within(ops, session.graph.Keys) && i < |ops|
      modifies session.all`state, session.all`result, session.all`value, session`world
      ensures Valid() && state != Pending
      ensures !failed ==> PendingIn(session.world.state) <= PendingIn(old(session.world).state)
      ensures Process(session.graph, old(session.world), this, ops[i..]) ==
              if failed then (session.world, false)
              else Process(session.graph, session.world, this, ops[i + 1..])
      decreases PendingIn(session.world.state), 2, 0
    {
      ProcessCases(session.graph, session.world, this, ops, i);
      var depState := ops[i].GetState(true);
      failed := depState == Failure;
      if failed {
        End(false);
      }
    }

    method GetState(execute: bool) returns (s: State)
      requires Valid()
      modifies session.all`state, session.all`result, session.all`value, session`world
      ensures Valid() && s == state
      ensures session.world ==
              if execute then Visit(session.graph, old(session.world), this) else old(session.world)
      decreases PendingIn(session.world.state), 1, 0
    {
      if execute && state == Pending {
        Execute();
      }
      return state;
    }

    method GetResult() returns (r: Maybe)
      requires Valid()
      modifies session.all`state, session.all`result, session.all`value, session`world
      ensures Valid() && session.world == Visit(session.graph, old(session.world), this)
      ensures r == if Runs(session.world.log, this) > 0 then Present(outcome.result) else Absent
    {
      if state == Pending {
        Execute();
      }
      return result;
    }

    method GetValue() returns (r: Maybe)
      requires Valid()
      modifies session.all`state, session.all`result, session.all`value, session`world
      ensures Valid() && session.world == Visit(session.graph, old(session.world), this)
      ensures r == if Runs(session.world.log, this) > 0 then Present(outcome.value) else Absent
    {
      if state == Pending {
        Execute();
      }
      return value;
    }
  }

  // ---------------------------------------------------------------- building a graph and running it

  /** The operation with number `of` depends on the one with number `on`. */
  datatype Registration = Pre(of: nat, on: nat) | Post(of: nat, on: nat)

  predicate InRange(rs: seq<Registration>, n: nat) {
    forall i :: 0 <= i < |rs| ==> rs[i].of < n && rs[i].on < n
  }

  /** The pre-dependencies that one registration gives to number `i`; a post-dependency makes one the other way. */
  function PreAdded(ops: seq<Operation>, r: Registration, i: nat): seq<Operation>
    requires r.of < |ops| && r.on < |ops|
  {
    match r
    case Pre(of, on) => if of == i then [ops[on]] else []
    case Post(of, on) => if on == i then [ops[of]] else []
  }

  function PostAdded(ops: seq<Operation>, r: Registration, i: nat): seq<Operation>
    requires r.of < |ops| && r.on < |ops|
  {
    match r
    case Pre(_, _) => []
    case Post(of, on) => if of == i then [ops[on]] else []
  }

  function PreOf(ops: seq<Operation>, rs: seq<Registration>, i: nat): seq<Operation>
    requires InRange(rs, |ops|)
  {
    if rs == [] then [] else PreOf(ops, rs[..|rs| - 1], i) + PreAdded(ops, rs[|rs| - 1], i)
  }

  function PostOf(ops: seq<Operation>, rs: seq<Registration>, i: nat): seq<Operation>
    requires InRange(rs, |ops|)
  {
    if rs == [] then [] else PostOf(ops, rs[..|rs| - 1], i) + PostAdded(ops, rs[|rs| - 1], i)
  }

  /** The operations are all those of the session, each once. */
  ghost predicate Listed(session: Session, ops: seq<Operation>)
    reads session
  {
    && session.all == (set o | o in ops)
    && (forall i, j :: 0 <= i < j < |ops| ==> ops[i] != ops[j])
  }

  /** Their dependencies are those registered. */
  ghost predicate Registered(ops: seq<Operation>, outcomes: seq<Outcome>, rs: seq<Registration>)
    requires InRange(rs, |ops|) && |ops| == |outcomes|
    reads ops
  {
    forall i :: 0 <= i < |ops| ==>
      && ops[i].outcome == outcomes[i]
      && ops[i].preDependencies == PreOf(ops, rs, i) && ops[i].postDependencies == PostOf(ops, rs, i)
  }

  /** An operation in a transaction of its own. */
  method NewOperation(session: Session, outcome: Outcome) returns (op: Operation)
    requires session.Valid() && session.world == Operations.Untouched(session.graph)
    modifies session
    ensures session.Valid() && session.world == Operations.Untouched(session.graph)
    ensures fresh(op) && session.all == old(session.all) + {op}
    ensures op.outcome == outcome && op.preDependencies == [] && op.postDependencies == []
  {
    assert forall o :: o in session.all ==> session.Described(o);
    var transaction := new Transaction(session);
    op := new Operation(transaction, outcome);
    assert session.world.state == Operations.Untouched(session.graph).state;
  }

  lemma {:induction false} OneMore(ops: seq<Operation>, outcomes: seq<Outcome>, op: Operation)
    requires |ops| == |outcomes| && Registered(ops, outcomes, [])
    requires op.preDependencies == [] && op.postDependencies == []
    ensures Registered(ops + [op], outcomes + [op.outcome], [])
  {
  }

  /** One more operation. */
  method CreateNext(session: Session, ops: seq<Operation>, outcomes: seq<Outcome>, outcome: Outcome)
      returns (more: seq<Operation>)
    requires session.Valid() && session.world == Operations.Untouched(session.graph)
    requires |ops| == |outcomes| && Listed(session, ops) && Registered(ops, outcomes, [])
    modifies session
    ensures session.Valid() && session.world == Operations.Untouched(session.graph)
    ensures fresh(session.all - old(session.all))
    ensures |more| == |outcomes| + 1 && Listed(session, more) && Registered(more, outcomes + [outcome], [])
  {
    var op := NewOperation(session, outcome);
    more := ops + [op];
    OneMore(ops, outcomes, op);
  }

  /** Creates the operations one after the other. */
  method Create(outcomes: seq<Outcome>) returns (session: Session, ops: seq<Operation>)
    ensures fresh(session) && fresh(session.all)
    ensures session.Valid() && session.world == Operations.Untouched(session.graph)
    ensures |ops| == |outcomes| && Listed(session, ops) && Registered(ops, outcomes, [])
  {
    if outcomes == [] {
      session := new Session();
      ops := [];
    } else {
      var n := |outcomes| - 1;
      session, ops := Create(outcomes[..n]);
      ops := CreateNext(session, ops, outcomes[..n], outcomes[n]);
      assert outcomes[..n] + [outcomes[n]] == outcomes;
    }
  }

  method Link(session: Session, ops: seq<Operation>, r: Registration)
    requires session.Valid() && Listed(session, ops) && r.of < |ops| && r.on < |ops|
    modifies session`graph, session.all`preDependencies, session.all`postDependencies
    ensures session.Valid() && session.graph.Keys == old(session.graph.Keys)
    ensures forall i :: 0 <= i < |ops| ==>
              && ops[i].preDependencies == old(ops[i].preDependencies) + PreAdded(ops, r, i)
              && ops[i].postDependencies == old(ops[i].postDependencies) + PostAdded(ops, r, i)
  {
    assert session.Described(ops[r.of]) && session.Described(ops[r.on]);
    if r.Pre? {
      ops[r.of].AddPreDependency(ops[r.on]);
    } else {
      ops[r.of].AddPostDependency(ops[r.on]);
    }
  }

  method Connect(session: Session, ops: seq<Operation>, outcomes: seq<Outcome>, rs: seq<Registration>, r: Registration)
    requires session.Valid() && session.world == Operations.Untouched(session.graph)
    requires InRange(rs, |ops|) && r.of < |ops| && r.on < |ops| && |ops| == |outcomes|
    requires Listed(session, ops) && Registered(ops, outcomes, rs)
    modifies session`graph, session.all`preDependencies, session.all`postDependencies
    ensures session.Valid() && session.world == Operations.Untouched(session.graph)
    ensures InRange(rs + [r], |ops|) && Registered(ops, outcomes, rs + [r])
  {
    assert (rs + [r])[..|rs|] == rs;
    assert forall i :: 0 <= i < |ops| ==>
        old(ops[i].preDependencies) == PreOf(ops, rs, i) && old(ops[i].postDependencies) == PostOf(ops, rs, i);
    Link(session, ops, r);
    assert session.world.state == Operations.Untouched(session.graph).state;
  }

  /** Registers the dependencies one after the other: any graph can be built. */
  method Build(outcomes: seq<Outcome>, rs: seq<Registration>) returns (session: Session, ops: seq<Operation>)
    requires InRange(rs, |outcomes|)
    ensures fresh(session) && fresh(session.all)
    ensures session.Valid() && session.world == Operations.Untouched(session.graph)
    ensures |ops| == |outcomes| && Listed(session, ops) && Registered(ops, outcomes, rs)
    decreases rs
  {
    if rs == [] {
      session, ops := Create(outcomes);
    } else {
      var n := |rs| - 1;
      session, ops := Build(outcomes, rs[..n]);
      assert rs[..n] + [rs[n]] == rs;
      Connect(session, ops, outcomes, rs[..n], rs[n]);
    }
  }

  /** Asks for the operations one after the other. */
  method AskAll(session: Session, ops: seq<Operation>)
    requires session.Valid() && Within(ops, session.graph.Keys)
    modifies session.all`state, session.all`result, session.all`value, session`world
    ensures session.Valid() && session.world == Calls(session.graph, old(session.world), ops)
  {
    ghost var g, w := session.graph, session.world;
    for i := 0 to |ops|
      invariant session.Valid() && session.graph == g && Calls(g, session.world, ops[i..]) == Calls(g, w, ops)
    {
      assert ops[i..][1..] == ops[i + 1..];
      assert session.Described(ops[i]);
      var _ := ops[i].GetState(true);
    }
  }

  /** The operations with the given numbers, in the order given. */
  function Numbered(ops: seq<Operation>, asked: seq<nat>): (r: seq<Operation>)
    requires forall i :: 0 <= i < |asked| ==> asked[i] < |ops|
    ensures |r| == |asked|
    ensures forall i :: 0 <= i < |r| ==> r[i] == ops[asked[i]]
  {
    if asked == [] then [] else [ops[asked[0]]] + Numbered(ops, asked[1..])
  }

  /** Asks for operations of a new session: all that were asked for end, and nothing is left in progress. */
  method AskNew(session: Session, os: seq<Operation>)
    requires session.Valid() && session.world == Operations.Untouched(session.graph)
    requires Within(os, session.graph.Keys)
    modifies session.all`state, session.all`result, session.all`value, session`world
    ensures session.Valid()
    ensures forall o :: o in session.all ==> Finished(session, o) && (o in os ==> o.state != Pending)
  {
    AskAll(session, os);
    forall o | o in session.all ensures Finished(session, o) && (o in os ==> o.state != Pending) {
      ExecutionTheorem(session.graph, os, o);
      assert session.Described(o);
      ReportOf(session, o);
    }
  }

  /** It is pending and has no result, or has ended and its transaction has been told once of its success or its
      failure, and of nothing else; and it has succeeded only with all its dependencies executed. */
  ghost predicate Finished(session: Session, o: Operation)
    reads session, o, o.preDependencies, o.postDependencies
  {
    && o.state in {Pending, Success, Failure}
    && (o.state == Pending ==> o.result == Absent && o.value == Absent)
    && Count(session.world.log, Succeeded(o)) == (if o.state == Success then 1 else 0)
    && Count(session.world.log, Failed(o)) == (if o.state == Failure then 1 else 0)
    && (o.state == Success ==>
          && o.outcome.ok && o.result == Present(o.outcome.result) && o.value == Present(o.outcome.value)
          && (forall d :: d in o.preDependencies ==> d.state != Pending)
          && (forall d :: d in o.postDependencies ==> d.state != Pending))
  }

  lemma {:induction false} ReportOf(session: Session, o: Operation)
    requires session.Valid() && o in session.all && o.state in {Pending, Success, Failure}
    requires RunsFit(session.world, o) && Explained(session.graph, session.world, o)
    ensures Finished(session, o)
  {
    assert session.Described(o);
    forall d | d in o.preDependencies || d in o.postDependencies ensures d in session.all && session.Described(d) {
      assert d in session.graph;
    }
  }

  /** Any graph of operations, cyclic or not, built and asked for in any order: in the end every operation is pending or
      has ended, those asked for have ended, and each end has been reported once and as it was. */
  method BuildAndAsk(outcomes: seq<Outcome>, rs: seq<Registration>, asked: seq<nat>)
      returns (session: Session, ops: seq<Operation>)
    requires InRange(rs, |outcomes|) && forall i :: 0 <= i < |asked| ==> asked[i] < |outcomes|
    ensures |ops| == |outcomes| && Listed(session, ops) && forall o :: o in session.all ==> Finished(session, o)
    ensures forall i :: 0 <= i < |asked| ==> ops[asked[i]].state != Pending
  {
    session, ops := Build(outcomes, rs);
    var os := Numbered(ops, asked);
    AskNew(session, os);
    assert forall i :: 0 <= i < |asked| ==> os[i] in os;
  }
}
