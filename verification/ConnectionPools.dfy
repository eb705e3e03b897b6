/**
  The pool as an object: the atomic steps of src/net/vurs/conn/ConnectionPool.java on its fields, and `acquire` and
  `release` as a thread runs them when nobody interrupts it.
 */
module ConnectionPools {
  import opened Options
  import opened Pool

  /** No other thread is disturbed. */
  ghost predicate OthersKept(s: State, r: State, t: nat) {
    forall u: nat :: u != t ==> ThreadOf(r, u) == ThreadOf(s, u)
  }

  class ConnectionPool {
    var free: map<string, nat>
    var registry: map<string, nat>
    var queues: seq<seq<nat>>
    var conns: seq<string>
    var threads: map<nat, Thread>

    ghost function View(): State
      reads this
    {
      State(free, registry, queues, conns, threads)
    }

    constructor ()
      ensures View() == INITIAL
    {
      free, registry, queues, conns, threads := map[], map[], [], [], map[];
    }

    method MoveTo(t: nat, place: Place, holding: set<nat>)
      modifies this`threads
      ensures threads == old(threads)[t := Thread(place, holding)]
    {
      threads := threads[t := Thread(place, holding)];
    }

    method PutIfAbsentIn(t: nat, key: string, q: nat, purpose: Purpose)
      modifies this
      ensures View() == PutIfAbsent(old(View()), t, key, q, purpose)
    {
      var holding := if t in threads then threads[t].holding else {};
      var present := if purpose.ToRegister? then registry else free;
      if key in present {
        MoveTo(t, Use(key, present[key], purpose), holding);
      } else {
        if purpose.ToRegister? {
          registry := registry[key := q];
        } else {
          free := free[key := q];
        }
        MoveTo(t, Use(key, q, purpose), holding);
      }
    }

    method UseIt(t: nat, key: string, q: nat, purpose: Purpose)
      requires q < |queues|
      modifies this
      ensures View() == UseQueue(old(View()), t, key, q, purpose)
    {
      var holding := if t in threads then threads[t].holding else {};
      match purpose {
        case ToPoll =>
          if queues[q] == [] {
            MoveTo(t, Create(key), holding);
          } else {
            var c := queues[q][0];
            queues := queues[q := queues[q][1..]];
            MoveTo(t, Idle, holding + {c});
          }
        case ToRegister(c) =>
          queues := queues[q := queues[q] + [c]];
          MoveTo(t, Idle, holding + {c});
        case ToReturn(c) =>
          queues := queues[q := queues[q] + [c]];
          MoveTo(t, Idle, holding);
      }
    }

    method Call(t: nat, a: Action)
      requires ThreadOf(View(), t).place.Idle?
      modifies this
      ensures View() == Step(old(View()), t, a)
    {
      var holding := if t in threads then threads[t].holding else {};
      match a {
        case CallAcquire(key) =>
          MoveTo(t, Look(key, ToPoll), holding);
        case CallRelease(c) =>
          if c < |conns| {
            MoveTo(t, Look(conns[c], ToReturn(c)), holding - {c});
          }
        case _ =>
      }
    }

    method Advance(t: nat, a: Action)
      requires !ThreadOf(View(), t).place.Idle?
      modifies this
      ensures View() == Step(old(View()), t, a)
    {
      var holding := threads[t].holding;
      match threads[t].place {
        case Look(key, purpose) =>
          var present := if purpose.ToRegister? then registry else free;
          MoveTo(t, if key in present then Use(key, present[key], purpose) else Make(key, purpose), holding);
        case Make(key, purpose) =>
          queues := queues + [[]];
          MoveTo(t, Put(key, |queues| - 1, purpose), holding);
        case Put(key, q, purpose) =>
          PutIfAbsentIn(t, key, q, purpose);
        case Use(key, q, purpose) =>
          if q < |queues| {
            UseIt(t, key, q, purpose);
          }
        case Create(key) =>
          if a == Fail {
            MoveTo(t, Idle, holding);
          } else {
            conns := conns + [key];
            MoveTo(t, Look(key, ToRegister(|conns| - 1)), holding);
          }
      }
    }

    /** `get`: look the queue up; if it is absent construct one, and put it if it is still absent. */
    method Get(t: nat) returns (q: nat)
      requires Sane(View()) && ThreadOf(View(), t).place.Look?
      modifies this
      ensures OthersKept(old(View()), View(), t)
      ensures Sane(View()) && Grows(old(View()), View()) && conns == old(conns)
      ensures old(Inv(View())) ==> Inv(View())
      ensures forall k :: FreeQueue(View(), k) == FreeQueue(old(View()), k)
      ensures var was := old(ThreadOf(View(), t).place);
              && was.key in MapFor(View(), was.purpose) && q == MapFor(View(), was.purpose)[was.key]
              && ThreadOf(View(), t) == Thread(Use(was.key, q, was.purpose), old(ThreadOf(View(), t).holding))
    {
      AdvanceQuietly(t);
      if threads[t].place.Make? {
        AdvanceQuietly(t);
        AdvanceQuietly(t);
      }
      q := threads[t].place.queue;
      assert Knows(View(), ThreadOf(View(), t).place);
    }

    method AdvanceQuietly(t: nat)
      requires Sane(View())
      requires var place := ThreadOf(View(), t).place; place.Look? || place.Make? || place.Put?
      modifies this
      ensures OthersKept(old(View()), View(), t)
      ensures View() == Step(old(View()), t, Go) && Sane(View()) && Grows(old(View()), View()) && conns == old(conns)
      ensures old(Inv(View())) ==> Inv(View())
      ensures forall k :: FreeQueue(View(), k) == FreeQueue(old(View()), k)
    {
      ghost var s := View();
      Advance(t, Go);
      StepKeepsSane(s, t, Go);
      StepGrows(s, t, Go);
      forall k ensures FreeQueue(View(), k) == FreeQueue(s, k) {
        FreeQueueAfter(s, t, Go, k);
      }
    }

    /** `poll` on the queue that `get` returned. */
    method PollIt(t: nat) returns (c: Option<nat>)
      requires Sane(View()) && ThreadOf(View(), t).place.Use? && ThreadOf(View(), t).place.purpose.ToPoll?
      modifies this
      ensures OthersKept(old(View()), View(), t)
      ensures Sane(View()) && conns == old(conns)
      ensures old(Inv(View())) ==> Inv(View())
      ensures var key, was := old(ThreadOf(View(), t).place.key), old(ThreadOf(View(), t).holding);
              var queue := FreeQueue(old(View()), key);
              if queue == [] then c == None && ThreadOf(View(), t) == Thread(Create(key), was)
              else c == Some(queue[0]) && ThreadOf(View(), t) == Thread(Idle, was + {queue[0]})
      ensures forall k :: FreeQueue(View(), k) ==
                          var queue := FreeQueue(old(View()), k);
                          if queue != [] && k == old(ThreadOf(View(), t).place.key) then queue[1..] else queue
    {
      ghost var s := View();
      var q := threads[t].place.queue;
      assert Knows(s, ThreadOf(s, t).place);
      c := if queues[q] == [] then None else Some(queues[q][0]);
      Advance(t, Go);
      StepKeepsSane(s, t, Go);
      forall k ensures FreeQueue(View(), k) ==
                       if Polls(s, t, k) then FreeQueue(s, k)[1..] else FreeQueue(s, k) {
        FreeQueueAfter(s, t, Go, k);
      }
    }

    /** `add` to the queue that `get` returned. */
    method AddIt(t: nat)
      requires Sane(View()) && ThreadOf(View(), t).place.Use? && !ThreadOf(View(), t).place.purpose.ToPoll?
      modifies this
      ensures OthersKept(old(View()), View(), t)
      ensures Sane(View()) && conns == old(conns)
      ensures old(Inv(View())) ==> Inv(View())
      ensures var purpose, was := old(ThreadOf(View(), t).place.purpose), old(ThreadOf(View(), t).holding);
              && ThreadOf(View(), t) == Thread(Idle, was + if purpose.ToRegister? then {purpose.conn} else {})
              && (purpose.ToRegister? ==> InRegistry(View(), purpose.conn))
      ensures forall k :: FreeQueue(View(), k) == FreeQueue(old(View()), k) +
                          var place := old(ThreadOf(View(), t).place);
                          if place.purpose.ToReturn? && k == place.key then [place.purpose.conn] else []
    {
      ghost var s := View();
      ghost var place := ThreadOf(s, t).place;
      assert Knows(s, place);
      Advance(t, Go);
      StepKeepsSane(s, t, Go);
      if place.purpose.ToRegister? {
        RegisteringGoesOn(s, t, Go, place.purpose.conn);
      }
      forall k ensures FreeQueue(View(), k) ==
                       FreeQueue(s, k) +
                        if place.purpose.ToReturn? && k == place.key then [place.purpose.conn] else [] {
        FreeQueueAfter(s, t, Go, k);
      }
    }

    method BeginAcquire(t: nat, key: string)
      requires Sane(View()) && ThreadOf(View(), t).place.Idle?
      modifies this
      ensures OthersKept(old(View()), View(), t)
      ensures Sane(View()) && conns == old(conns)
      ensures old(Inv(View())) ==> Inv(View())
      ensures ThreadOf(View(), t) == Thread(Look(key, ToPoll), old(ThreadOf(View(), t).holding))
      ensures forall k :: FreeQueue(View(), k) == FreeQueue(old(View()), k)
    {
      StepKeepsSane(View(), t, CallAcquire(key));
      Call(t, CallAcquire(key));
    }

    method BeginRelease(t: nat, c: nat)
      requires Sane(View()) && ThreadOf(View(), t).place.Idle? && c < |conns|
      modifies this
      ensures OthersKept(old(View()), View(), t)
      ensures Sane(View()) && conns == old(conns)
      ensures old(Inv(View())) && old(c in ThreadOf(View(), t).holding) ==> Inv(View())
      ensures ThreadOf(View(), t) == Thread(Look(conns[c], ToReturn(c)), old(ThreadOf(View(), t).holding) - {c})
      ensures forall k :: FreeQueue(View(), k) == FreeQueue(old(View()), k)
    {
      StepKeepsSane(View(), t, CallRelease(c));
      Call(t, CallRelease(c));
    }

    /** `create`: construct the connection, unless the constructor throws, and add it to the registry. */
    method CreateOne(t: nat, key: string, constructs: bool) returns (c: Option<nat>)
      requires Sane(View()) && ThreadOf(View(), t).place == Create(key)
      modifies this
      ensures OthersKept(old(View()), View(), t)
      ensures Sane(View())
      ensures old(Inv(View())) ==> Inv(View())
      ensures forall k :: FreeQueue(View(), k) == FreeQueue(old(View()), k)
      ensures constructs ==> c == Some(|old(conns)|) && conns == old(conns) + [key] && InRegistry(View(), |old(conns)|)
      ensures !constructs ==> c == None && conns == old(conns)
      ensures ThreadOf(View(), t) ==
              Thread(Idle, old(ThreadOf(View(), t).holding) + if constructs then {|old(conns)|} else {})
    {
      var n := |conns|;
      Construct(t, key, constructs);
      if constructs {
        var q := Get(t);
        AddIt(t);
        c := Some(n);
      } else {
        c := None;
      }
    }

    method Construct(t: nat, key: string, constructs: bool)
      requires Sane(View()) && ThreadOf(View(), t).place == Create(key)
      modifies this
      ensures OthersKept(old(View()), View(), t)
      ensures Sane(View()) && conns == old(conns) + if constructs then [key] else []
      ensures old(Inv(View())) ==> Inv(View())
      ensures ThreadOf(View(), t) ==
              Thread(if constructs then Look(key, ToRegister(|old(conns)|)) else Idle, old(ThreadOf(View(), t).holding))
      ensures forall k :: FreeQueue(View(), k) == FreeQueue(old(View()), k)
    {
      StepKeepsSane(View(), t, if constructs then Go else Fail);
      Advance(t, if constructs then Go else Fail);
    }

    /** `acquire`: the connection released longest ago, or else a new one. */
    method Acquire(t: nat, key: string, constructs: bool) returns (c: Option<nat>)
      requires Sane(View()) && ThreadOf(View(), t).place.Idle?
      modifies this
      ensures OthersKept(old(View()), View(), t)
      ensures Sane(View())
      ensures old(Inv(View())) ==> Inv(View())
      ensures forall k :: k != key ==> FreeQueue(View(), k) == FreeQueue(old(View()), k)
      ensures var was := FreeQueue(old(View()), key);
              if was != [] then c == Some(was[0]) && FreeQueue(View(), key) == was[1..] && conns == old(conns)
              else if constructs
              then c == Some(|old(conns)|) && FreeQueue(View(), key) == [] && conns == old(conns) + [key]
              else c == None && FreeQueue(View(), key) == [] && conns == old(conns)
      ensures ThreadOf(View(), t) ==
              Thread(Idle, old(ThreadOf(View(), t).holding) + if c == None then {} else {c.value})
    {
      BeginAcquire(t, key);
      var q := Get(t);
      c := PollIt(t);
      if c == None {
        c := CreateOne(t, key, constructs);
      }
    }

    /** `release`: the connection goes to the end of the free queue of its key, whoever calls; the pool stays in
        order if the caller held it. */
    method Release(t: nat, c: nat)
      requires Sane(View()) && ThreadOf(View(), t).place.Idle? && c < |conns|
      modifies this
      ensures OthersKept(old(View()), View(), t)
      ensures Sane(View()) && conns == old(conns)
      ensures old(Inv(View())) && old(c in ThreadOf(View(), t).holding) ==> Inv(View())
      ensures ThreadOf(View(), t) == Thread(Idle, old(ThreadOf(View(), t).holding) - {c})
      ensures forall k :: FreeQueue(View(), k) == FreeQueue(old(View()), k) + if k == conns[c] then [c] else []
    {
      BeginRelease(t, c);
      var q := Get(t);
      AddIt(t);
    }
  }

  /** What an unlawful release does: a connection that is released once too often is handed out twice. */
  method ReleaseTwice(key: string) returns (pool: ConnectionPool, first: Option<nat>, second: Option<nat>)
    ensures first == second == Some(0) && pool.conns == [key]
    ensures 0 in ThreadOf(pool.View(), 1).holding && 0 in ThreadOf(pool.View(), 2).holding
  {
    pool := new ConnectionPool();
    var c := pool.Acquire(0, key, true);
    pool.Release(0, 0);
    pool.Release(0, 0);
    first := pool.Acquire(1, key, true);
    second := pool.Acquire(2, key, true);
  }
}
