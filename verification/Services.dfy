/**
  Start-up of the services, src/net/vurs/service/ServiceManager.java: the dependency check and the initialisation loop,
  which sweeps over the services not yet initialised, in whatever order the set is iterated, until none is left.
 */
module Services {
  import opened Graphs

  /** What `setupServices` has come to after some number of passes: an exception for a dependency that was not found, a
      fatal error, all services loaded in some order, or a loop that still goes on. */
  datatype Outcome<T> = MissingDependency | CircularDependency | Initialised(order: seq<T>) | StillLooping

  ghost predicate NoMutual<T>(g: Graph<T>) {
    forall x, d :: x in g && d in g[x] && d in g ==> x !in g[d]
  }

  /** Every service once, and each after all its dependencies. */
  ghost predicate GoodOrder<T>(g: Graph<T>, order: seq<T>) {
    && (forall i :: 0 <= i < |order| ==> order[i] in g && g[order[i]] <= Elements(order[..i]))
    && (forall i, j :: 0 <= i < j < |order| ==> order[i] != order[j])
  }

  lemma {:induction false} NextInOrder<T>(g: Graph<T>, order: seq<T>, x: T)
    requires GoodOrder(g, order) && x in g && g[x] <= Elements(order) && x !in Elements(order)
    ensures GoodOrder(g, order + [x]) && Elements(order + [x]) == Elements(order) + {x}
  {
    var longer := order + [x];
    assert longer[..|order|] == order;
    forall i | 0 <= i < |longer| ensures longer[i] in g && g[longer[i]] <= Elements(longer[..i]) {
      if i < |order| { assert longer[..i] == order[..i]; }
    }
    forall i, j | 0 <= i < j < |longer| ensures longer[i] != longer[j] {
      assert longer[i] in Elements(order);
    }
  }

  class ServiceManager<T(==,!new)> {
    const dependencySet: Graph<T>
    var uninitialized: set<T>
    var loaded: seq<T>

    /** `dependencySet` holds the found services with the dependencies their fields declare. */
    constructor (dependencySet: Graph<T>)
      ensures this.dependencySet == dependencySet && uninitialized == dependencySet.Keys && loaded == []
    {
      this.dependencySet := dependencySet;
      uninitialized, loaded := dependencySet.Keys, [];
    }

    /** The services loaded so far and the rest make up all services, and the order so far is good. */
    ghost predicate Valid()
      reads this
    {
      && Closed(dependencySet)
      && GoodOrder(dependencySet, loaded)
      && uninitialized == dependencySet.Keys - Elements(loaded)
    }

    /** The check of one service against each of its dependencies. */
    method CheckService(x: T) returns (missing: bool, circular: bool)
      requires x in dependencySet
      ensures !missing && !circular <==>
                forall d :: d in dependencySet[x] ==> d in dependencySet && x !in dependencySet[d]
      ensures missing ==> exists d :: d in dependencySet[x] && d !in dependencySet
      ensures circular ==> exists d :: d in dependencySet[x] && d in dependencySet && x in dependencySet[d]
    {
      var todo := dependencySet[x];
      missing, circular := false, false;
      while todo != {}
        invariant todo <= dependencySet[x]
        invariant forall d :: d in dependencySet[x] - todo ==> d in dependencySet && x !in dependencySet[d]
        decreases todo
      {
        var d :| d in todo;
        if d !in dependencySet {
          return true, false;
        }
        if x in dependencySet[d] {
          return false, true;
        }
        todo := todo - {d};
      }
    }

    method CheckAll() returns (missing: bool, circular: bool)
      ensures !missing && !circular <==> Closed(dependencySet) && NoMutual(dependencySet)
      ensures missing ==> !Closed(dependencySet)
      ensures circular ==> !NoMutual(dependencySet)
    {
      var todo := dependencySet.Keys;
      missing, circular := false, false;
      while todo != {}
        invariant todo <= dependencySet.Keys && !missing && !circular
        invariant forall x, d :: x in dependencySet.Keys - todo && d in dependencySet[x] ==>
                    d in dependencySet && x !in dependencySet[d]
        decreases todo
      {
        var x :| x in todo;
        missing, circular := CheckService(x);
        if missing || circular {
          assert missing ==> !(dependencySet[x] <= dependencySet.Keys);
          return;
        }
        todo := todo - {x};
      }
    }

    /** None of the dependencies is still waiting. */
    method Ready(x: T) returns (ready: bool)
      requires x in dependencySet
      ensures ready <==> dependencySet[x] !! uninitialized
      ensures !ready ==> DependsOn(dependencySet, uninitialized, x)
    {
      var todo := dependencySet[x];
      while todo != {}
        invariant todo <= dependencySet[x] && dependencySet[x] - todo !! uninitialized
        decreases todo
      {
        var d :| d in todo;
        if d in uninitialized {
          return false;
        }
        todo := todo - {d};
      }
      return true;
    }

    method Load(x: T)
      requires Valid() && x in uninitialized && dependencySet[x] !! uninitialized
      modifies this
      ensures Valid() && uninitialized == old(uninitialized) - {x} && loaded == old(loaded) + [x]
    {
      loaded := loaded + [x];
      uninitialized := uninitialized - {x};
      NextInOrder(dependencySet, old(loaded), x);
    }

    /** One sweep over the set as it is now; it loads nothing only if every service is waiting for another. */
    method Sweep()
      requires Valid()
      modifies this
      ensures Valid() && uninitialized <= old(uninitialized)
      ensures uninitialized == old(uninitialized) ==> Stuck(dependencySet, uninitialized)
    {
      var itr := uninitialized;
      while itr != {}
        invariant Valid() && itr <= uninitialized <= old(uninitialized)
        invariant uninitialized == old(uninitialized) ==>
                    forall x :: x in uninitialized - itr ==> DependsOn(dependencySet, uninitialized, x)
        decreases itr
      {
        var x :| x in itr;
        itr := itr - {x};
        var ready := Ready(x);
        if ready {
          Load(x);
        }
      }
    }

    /** The loop, watched for a number of passes: it has ended if and only if nothing is left, it never ends unless the
        dependencies are acyclic, and then it takes at most one pass for each service. */
    method Initialise(passes: nat) returns (done: bool)
      requires Valid()
      modifies this
      ensures Valid() && (done <==> uninitialized == {})
      ensures done ==> Acyclic(dependencySet)
      ensures Acyclic(dependencySet) && passes >= |old(uninitialized)| ==> done
    {
      var pass := 0;
      while uninitialized != {} && pass < passes
        invariant Valid() && pass <= passes
        invariant Acyclic(dependencySet) ==> |uninitialized| + pass <= |old(uninitialized)| || uninitialized == {}
        decreases passes - pass
      {
        ghost var before := uninitialized;
        Sweep();
        if uninitialized == before {
          ghost var w := StuckHasCycle(dependencySet, uninitialized);
        } else {
          ProperSubsetSize(uninitialized, before);
        }
        pass := pass + 1;
      }
      done := uninitialized == {};
      if done { OrderedIsAcyclic(dependencySet, loaded); }
    }

    /** The check only catches dependencies of a service on itself and of two services on each other; whether the
        loop then ends is up to the rest of the dependencies. */
    method SetupServices(passes: nat) returns (r: Outcome<T>)
      requires uninitialized == dependencySet.Keys && loaded == []
      modifies this
      ensures r.MissingDependency? ==> !Closed(dependencySet)
      ensures r.CircularDependency? ==> !NoMutual(dependencySet)
      ensures r.Initialised? || r.StillLooping? <==> Closed(dependencySet) && NoMutual(dependencySet)
      ensures r.Initialised? ==> Acyclic(dependencySet)
      ensures r.StillLooping? && passes >= |dependencySet.Keys| ==> !Acyclic(dependencySet)
      ensures r.Initialised? ==>
                GoodOrder(dependencySet, r.order) && Elements(r.order) == dependencySet.Keys && r.order == loaded
    {
      var missing, circular := CheckAll();
      if missing {
        return MissingDependency;
      }
      if circular {
        return CircularDependency;
      }
      var done := Initialise(passes);
      if !done {
        return StillLooping;
      }
      assert forall x :: x in dependencySet ==> x !in uninitialized;
      return Initialised(loaded);
    }
  }

  /** An order in which everything comes after its dependencies leaves no room for a cycle. */
  lemma {:induction false} OrderedIsAcyclic<T(!new)>(g: Graph<T>, order: seq<T>)
    requires GoodOrder(g, order) && g.Keys <= Elements(order)
    ensures Acyclic(g)
  {
    if !Acyclic(g) {
      var w :| Cycle(g, w);
      CycleIsStuck(g, w);
      NoneStuck(g, order, Elements(w));
    }
  }

  lemma {:induction false} NoneStuck<T>(g: Graph<T>, order: seq<T>, stuck: set<T>)
    requires GoodOrder(g, order) && Stuck(g, stuck)
    ensures Elements(order) !! stuck
  {
    if order != [] {
      var before, x := order[..|order| - 1], order[|order| - 1];
      assert GoodOrder(g, before) by {
        forall i | 0 <= i < |before| ensures before[i] in g && g[before[i]] <= Elements(before[..i]) {
          assert before[..i] == order[..i];
        }
      }
      NoneStuck(g, before, stuck);
      assert x in stuck ==> DependsOn(g, stuck, x);
      assert Elements(order) == Elements(before) + {x};
    }
  }

  // ---------------------------------------------------------------- when the loop ends

  /** One sweep that meets the services in the given order. */
  ghost function SweepOver<T>(g: Graph<T>, waiting: set<T>, order: seq<T>): set<T>
    decreases order
  {
    if order == [] then waiting
    else if order[0] in g && g[order[0]] !! waiting then SweepOver(g, waiting - {order[0]}, order[1..])
    else SweepOver(g, waiting, order[1..])
  }

  /** As many sweeps as there are orders. */
  ghost function Sweeps<T>(g: Graph<T>, waiting: set<T>, orders: seq<seq<T>>): set<T>
    decreases orders
  {
    if orders == [] then waiting else Sweeps(g, SweepOver(g, waiting, orders[0]), orders[1..])
  }

  /** Every sweep meets every service that is still waiting. */
  ghost predicate Complete<T>(g: Graph<T>, waiting: set<T>, orders: seq<seq<T>>)
    decreases orders
  {
    orders == [] || (Elements(orders[0]) == waiting && Complete(g, SweepOver(g, waiting, orders[0]), orders[1..]))
  }

  lemma {:induction false} SweepShrinks<T>(g: Graph<T>, waiting: set<T>, order: seq<T>)
    requires waiting <= g.Keys
    ensures SweepOver(g, waiting, order) <= waiting
    ensures SweepOver(g, waiting, order) == waiting ==>
              forall x :: x in order && x in waiting ==> DependsOn(g, waiting, x)
    decreases order
  {
    if order != [] {
      var x := order[0];
      if x in g && g[x] !! waiting {
        SweepShrinks(g, waiting - {x}, order[1..]);
        if SweepOver(g, waiting, order) == waiting { SweepShrinks(g, waiting, order[1..]); }
      } else {
        SweepShrinks(g, waiting, order[1..]);
        if x in waiting {
          var y :| y in g[x] && y in waiting;
          assert DependsOn(g, waiting, x);
        }
      }
    }
  }

  lemma {:induction false} EnoughSweeps<T(!new)>(g: Graph<T>, waiting: set<T>, orders: seq<seq<T>>)
    requires Acyclic(g) && waiting <= g.Keys && Complete(g, waiting, orders) && |orders| >= |waiting|
    ensures Sweeps(g, waiting, orders) == {}
    decreases orders
  {
    if orders != [] {
      var rest := SweepOver(g, waiting, orders[0]);
      SweepShrinks(g, waiting, orders[0]);
      if waiting != {} {
        if rest == waiting {
          forall x | x in waiting ensures DependsOn(g, waiting, x) { assert x in Elements(orders[0]); }
          var w := StuckHasCycle(g, waiting);
          assert false;
        }
        SubsetSize(rest, waiting);
        ProperSubsetSize(rest, waiting);
      }
      EnoughSweeps(g, rest, orders[1..]);
    }
  }

  lemma {:induction false} ProperSubsetSize<T>(a: set<T>, b: set<T>)
    requires a < b
    ensures |a| < |b|
  {
    assert b == a + (b - a);
    assert b - a != {};
  }

  lemma {:induction false} StuckStays<T>(g: Graph<T>, waiting: set<T>, order: seq<T>, stuck: set<T>)
    requires Stuck(g, stuck) && stuck <= waiting
    ensures stuck <= SweepOver(g, waiting, order)
    decreases order
  {
    if order != [] {
      var x := order[0];
      assert x in stuck ==> DependsOn(g, stuck, x);
      if x in g && g[x] !! waiting {
        StuckStays(g, waiting - {x}, order[1..], stuck);
      } else {
        StuckStays(g, waiting, order[1..], stuck);
      }
    }
  }

  lemma {:induction false} StuckForever<T>(g: Graph<T>, waiting: set<T>, orders: seq<seq<T>>, stuck: set<T>)
    requires Stuck(g, stuck) && stuck <= waiting
    ensures stuck <= Sweeps(g, waiting, orders)
    decreases orders
  {
    if orders != [] {
      StuckStays(g, waiting, orders[0], stuck);
      StuckForever(g, SweepOver(g, waiting, orders[0]), orders[1..], stuck);
    }
  }

  /** Whatever the orders of iteration, as many sweeps as there are services finish the loop if the dependencies are
      acyclic, and no number of sweeps finishes it if they are not. */
  lemma {:induction false} LoopEndsIffAcyclic<T(!new)>(g: Graph<T>, orders: seq<seq<T>>)
    requires Complete(g, g.Keys, orders) && |orders| >= |g.Keys|
    ensures Sweeps(g, g.Keys, orders) == {} <==> Acyclic(g)
  {
    if Acyclic(g) {
      EnoughSweeps(g, g.Keys, orders);
    } else {
      var w :| Cycle(g, w);
      CycleIsStuck(g, w);
      StuckForever(g, g.Keys, orders, Elements(w));
    }
  }

  /** The check accepts a ring of three services, on which the loop never ends. */
  lemma {:induction false} CheckMissesRings(orders: seq<seq<int>>)
    ensures var g := map[0 := {1}, 1 := {2}, 2 := {0}];
            Closed(g) && NoMutual(g) && Sweeps(g, g.Keys, orders) == g.Keys
  {
    var g := map[0 := {1}, 1 := {2}, 2 := {0}];
    assert DependsOn(g, g.Keys, 0) by { assert 1 in g.Keys && 1 in g[0]; }
    assert DependsOn(g, g.Keys, 1) by { assert 2 in g.Keys && 2 in g[1]; }
    assert DependsOn(g, g.Keys, 2) by { assert 0 in g.Keys && 0 in g[2]; }
    StuckForever(g, g.Keys, orders, g.Keys);
    SweepsShrink(g, g.Keys, orders);
  }

  lemma {:induction false} SweepsShrink<T>(g: Graph<T>, waiting: set<T>, orders: seq<seq<T>>)
    requires waiting <= g.Keys
    ensures Sweeps(g, waiting, orders) <= waiting
    decreases orders
  {
    if orders != [] {
      SweepShrinks(g, waiting, orders[0]);
      SweepsShrink(g, SweepOver(g, waiting, orders[0]), orders[1..]);
    }
  }
}
