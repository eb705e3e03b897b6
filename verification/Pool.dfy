/**
  The connection pool of src/net/vurs/conn/ConnectionPool.java over the maps of
  src/net/vurs/common/ConcurrentConstructingHashMap.java, as atomic steps of any number of threads in any order.
 */
module Pool {

  /** What a thread does with the queue it is looking up. */
  datatype Purpose = ToPoll | ToRegister(conn: nat) | ToReturn(conn: nat)

  /** Where a thread is: `get` reads the map (`Look`), constructs a queue (`Make`), puts it if absent (`Put`); then the
      queue is used (`Use`).  `Create` is the call of the connection's constructor. */
  datatype Place =
    | Idle
    | Look(key: string, purpose: Purpose)
    | Make(key: string, purpose: Purpose)
    | Put(key: string, queue: nat, purpose: Purpose)
    | Use(key: string, queue: nat, purpose: Purpose)
    | Create(key: string)

  datatype Thread = Thread(place: Place, holding: set<nat>)

  datatype State = State(
    free: map<string, nat>,          // the map of free queues
    registry: map<string, nat>,      // the map that `shutDown` walks
    queues: seq<seq<nat>>,           // the contents of every queue object
    conns: seq<string>,              // the key of every connection object
    threads: map<nat, Thread>)

  datatype Action = CallAcquire(key: string) | CallRelease(conn: nat) | Go | Fail

  const INITIAL := State(map[], map[], [], [], map[])

  function ThreadOf(s: State, t: nat): Thread {
    if t in s.threads then s.threads[t] else Thread(Idle, {})
  }

  function SetThread(s: State, t: nat, thread: Thread): State {
    s.(threads := s.threads[t := thread])
  }

  function At(s: State, t: nat, place: Place): State {
    SetThread(s, t, ThreadOf(s, t).(place := place))
  }

  function MapFor(s: State, purpose: Purpose): map<string, nat> {
    if purpose.ToRegister? then s.registry else s.free
  }

  function Store(s: State, purpose: Purpose, key: string, q: nat): State {
    if purpose.ToRegister? then s.(registry := s.registry[key := q]) else s.(free := s.free[key := q])
  }

  function Lookup(s: State, t: nat, key: string, purpose: Purpose): State {
    if key in MapFor(s, purpose) then At(s, t, Use(key, MapFor(s, purpose)[key], purpose))
    else At(s, t, Make(key, purpose))
  }

  function MakeQueue(s: State, t: nat, key: string, purpose: Purpose): State {
    At(s.(queues := s.queues + [[]]), t, Put(key, |s.queues|, purpose))
  }

  function PutIfAbsent(s: State, t: nat, key: string, q: nat, purpose: Purpose): State {
    if key in MapFor(s, purpose) then At(s, t, Use(key, MapFor(s, purpose)[key], purpose))
    else At(Store(s, purpose, key, q), t, Use(key, q, purpose))
  }

  function Poll(s: State, t: nat, key: string, q: nat): State
    requires q < |s.queues|
  {
    if s.queues[q] == [] then At(s, t, Create(key))
    else
      SetThread(s.(queues := s.queues[q := s.queues[q][1..]]), t,
                Thread(Idle, ThreadOf(s, t).holding + {s.queues[q][0]}))
  }

  function AddTo(s: State, q: nat, c: nat): State
    requires q < |s.queues|
  {
    s.(queues := s.queues[q := s.queues[q] + [c]])
  }

  function UseQueue(s: State, t: nat, key: string, q: nat, purpose: Purpose): State
    requires q < |s.queues|
  {
    match purpose
    case ToPoll => Poll(s, t, key, q)
    case ToRegister(c) => SetThread(AddTo(s, q, c), t, Thread(Idle, ThreadOf(s, t).holding + {c}))
    case ToReturn(c) => At(AddTo(s, q, c), t, Idle)
  }

  function NewInstance(s: State, t: nat, key: string): State {
    At(s.(conns := s.conns + [key]), t, Look(key, ToRegister(|s.conns|)))
  }

  /** Nothing in `release` asks whether the caller holds the connection. */
  function StartRelease(s: State, t: nat, c: nat): State {
    if c < |s.conns| then SetThread(s, t, Thread(Look(s.conns[c], ToReturn(c)), ThreadOf(s, t).holding - {c})) else s
  }

  function Step(s: State, t: nat, a: Action): State {
    match ThreadOf(s, t).place
    case Idle =>
      (match a
       case CallAcquire(key) => At(s, t, Look(key, ToPoll))
       case CallRelease(c) => StartRelease(s, t, c)
       case _ => s)
    case Look(key, purpose) => Lookup(s, t, key, purpose)
    case Make(key, purpose) => MakeQueue(s, t, key, purpose)
    case Put(key, q, purpose) => PutIfAbsent(s, t, key, q, purpose)
    case Use(key, q, purpose) => if q < |s.queues| then UseQueue(s, t, key, q, purpose) else s
    case Create(key) => if a == Fail then At(s, t, Idle) else NewInstance(s, t, key)
  }

  function Run(steps: seq<(nat, Action)>): State {
    if steps == [] then INITIAL
    else Step(Run(steps[..|steps| - 1]), steps[|steps| - 1].0, steps[|steps| - 1].1)
  }

  /** What the pool asks of its callers: only a holder releases, and so only once. */
  predicate Lawful(s: State, t: nat, a: Action) {
    ThreadOf(s, t).place.Idle? && a.CallRelease? ==> a.conn in ThreadOf(s, t).holding
  }

  predicate LawfulRun(steps: seq<(nat, Action)>) {
    steps != [] ==>
      && LawfulRun(steps[..|steps| - 1])
      && Lawful(Run(steps[..|steps| - 1]), steps[|steps| - 1].0, steps[|steps| - 1].1)
  }

  // ---------------------------------------------------------------- the invariant

  predicate Carries(place: Place, c: nat) {
    (place.Look? || place.Make? || place.Put? || place.Use?) && !place.purpose.ToPoll? && place.purpose.conn == c
  }

  predicate Has(s: State, t: nat, c: nat) {
    c in ThreadOf(s, t).holding || Carries(ThreadOf(s, t).place, c)
  }

  /** The free queue of a key. */
  function FreeQueue(s: State, k: string): seq<nat> {
    if k in s.free && s.free[k] < |s.queues| then s.queues[s.free[k]] else []
  }

  /** The connection sits in the free queue of its own key. */
  predicate InFree(s: State, c: nat) {
    c < |s.conns| && c in FreeQueue(s, s.conns[c])
  }

  predicate InRegistry(s: State, c: nat) {
    c < |s.conns| && s.conns[c] in s.registry && s.registry[s.conns[c]] < |s.queues| &&
    c in s.queues[s.registry[s.conns[c]]]
  }

  /** No two keys share a queue, neither within one map nor between the two. */
  ghost predicate MapsApart(s: State) {
    && (forall k :: k in s.free ==> s.free[k] < |s.queues|)
    && (forall k :: k in s.registry ==> s.registry[k] < |s.queues|)
    && (forall k, l :: k in s.free && l in s.free && s.free[k] == s.free[l] ==> k == l)
    && (forall k, l :: k in s.registry && l in s.registry && s.registry[k] == s.registry[l] ==> k == l)
    && (forall k, l :: k in s.free && l in s.registry ==> s.free[k] != s.registry[l])
  }

  predicate Unused(s: State, q: nat) {
    q < |s.queues| && s.queues[q] == [] && (forall k :: k in s.free ==> s.free[k] != q) &&
    (forall k :: k in s.registry ==> s.registry[k] != q)
  }

  /** What a thread knows: the queue it uses is the one in the map, the queue it is about to put is nobody else's. */
  predicate Knows(s: State, place: Place) {
    match place
    case Put(key, q, purpose) => Unused(s, q) && Fits(s, key, purpose)
    case Use(key, q, purpose) => key in MapFor(s, purpose) && MapFor(s, purpose)[key] == q && Fits(s, key, purpose)
    case Look(key, purpose) => Fits(s, key, purpose)
    case Make(key, purpose) => Fits(s, key, purpose)
    case _ => true
  }

  predicate Fits(s: State, key: string, purpose: Purpose) {
    !purpose.ToPoll? ==> purpose.conn < |s.conns| && s.conns[purpose.conn] == key
  }

  ghost predicate PlacesKnown(s: State) {
    forall t: nat :: Knows(s, ThreadOf(s, t).place)
  }

  predicate Puts(s: State, t: nat, q: nat) {
    ThreadOf(s, t).place.Put? && ThreadOf(s, t).place.queue == q
  }

  /** Two threads never put the same queue. */
  ghost predicate PutsApart(s: State) {
    forall t: nat, u: nat, q: nat :: Puts(s, t, q) && Puts(s, u, q) ==> t == u
  }

  /** Free queues hold connections of their own key, each once. */
  ghost predicate FreeProper(s: State) {
    forall k :: ProperQueue(s, k, FreeQueue(s, k))
  }

  predicate ProperQueue(s: State, k: string, queue: seq<nat>) {
    (forall i :: 0 <= i < |queue| ==> queue[i] < |s.conns| && s.conns[queue[i]] == k) &&
    (forall i, j :: 0 <= i < j < |queue| ==> queue[i] != queue[j])
  }

  /** The thread does not both hold the connection and carry it through a lookup. */
  predicate HasOnce(s: State, t: nat, c: nat) {
    c in ThreadOf(s, t).holding ==> !Carries(ThreadOf(s, t).place, c)
  }

  /** At most one thread has a connection, and it has it only once. */
  ghost predicate Exclusive(s: State) {
    && (forall t: nat, u: nat, c: nat :: Has(s, t, c) && Has(s, u, c) ==> t == u)
    && (forall t: nat, c: nat :: HasOnce(s, t, c))
  }

  /** Every connection is had by a thread or free, never both. */
  ghost predicate Placed(s: State) {
    && (forall t: nat, c: nat :: Has(s, t, c) ==> c < |s.conns| && !InFree(s, c))
    && (forall c: nat :: c < |s.conns| ==> InFree(s, c) || exists t: nat :: Has(s, t, c))
  }

  predicate Registering(s: State, t: nat, c: nat) {
    Carries(ThreadOf(s, t).place, c) && ThreadOf(s, t).place.purpose.ToRegister?
  }

  /** Every connection is in the registry, but for those whose creator has not put them there yet. */
  ghost predicate Registered(s: State) {
    forall c: nat :: c < |s.conns| ==> InRegistry(s, c) || exists t: nat :: Registering(s, t, c)
  }

  ghost predicate Inv(s: State) {
    MapsApart(s) && PlacesKnown(s) && PutsApart(s) && FreeProper(s) && Exclusive(s) && Placed(s) && Registered(s)
  }

  // ---------------------------------------------------------------- what a step leaves alone

  /** The maps only gain keys, and connections keep their keys. */
  ghost predicate Grows(s: State, r: State) {
    && s.conns <= r.conns
    && |s.queues| <= |r.queues|
    && (forall k :: k in s.free ==> k in r.free && r.free[k] == s.free[k])
    && (forall k :: k in s.registry ==> k in r.registry && r.registry[k] == s.registry[k])
  }

  lemma {:induction false} StepGrows(s: State, t: nat, a: Action)
    ensures Grows(s, Step(s, t, a))
  {
  }

  lemma {:induction false} OthersStay(s: State, t: nat, a: Action, u: nat)
    requires u != t
    ensures ThreadOf(Step(s, t, a), u) == ThreadOf(s, u)
  {
  }

  lemma {:induction false} KnowsGrows(s: State, r: State, place: Place)
    requires Knows(s, place) && Grows(s, r)
    requires place.Put? ==> Unused(r, place.queue)
    ensures Knows(r, place)
  {
  }

  lemma {:induction false} UnusedKept(s: State, t: nat, a: Action, q: nat)
    requires PlacesKnown(s) && Unused(s, q) && !Puts(s, t, q)
    ensures Unused(Step(s, t, a), q)
  {
    assert Knows(s, ThreadOf(s, t).place);
  }

  // ---------------------------------------------------------------- every step keeps the invariant

  lemma {:induction false} StoreApart(s: State, purpose: Purpose, key: string, q: nat)
    requires MapsApart(s) && Unused(s, q) && key !in MapFor(s, purpose)
    ensures MapsApart(Store(s, purpose, key, q))
  {
  }

  lemma {:induction false} SameMapsApart(s: State, r: State)
    requires MapsApart(s) && r.free == s.free && r.registry == s.registry && |s.queues| <= |r.queues|
    ensures MapsApart(r)
  {
  }

  lemma {:induction false} OnlyPutStores(s: State, t: nat, a: Action)
    requires !ThreadOf(s, t).place.Put?
    ensures Step(s, t, a).free == s.free && Step(s, t, a).registry == s.registry
  {
  }

  lemma {:induction false} MapsStayApart(s: State, t: nat, a: Action)
    requires MapsApart(s) && PlacesKnown(s)
    ensures MapsApart(Step(s, t, a))
  {
    var r, place := Step(s, t, a), ThreadOf(s, t).place;
    StepGrows(s, t, a);
    if place.Put? && place.key !in MapFor(s, place.purpose) {
      assert Knows(s, place);
      StoreApart(s, place.purpose, place.key, place.queue);
      SameMapsApart(Store(s, place.purpose, place.key, place.queue), r);
    } else {
      if !place.Put? {
        OnlyPutStores(s, t, a);
      }
      SameMapsApart(s, r);
    }
  }

  lemma {:induction false} PutterKnows(s: State, t: nat, key: string, q: nat, purpose: Purpose)
    requires Knows(s, Put(key, q, purpose))
    ensures Knows(PutIfAbsent(s, t, key, q, purpose), ThreadOf(PutIfAbsent(s, t, key, q, purpose), t).place)
  {
  }

  lemma {:induction false} MakerKnows(s: State, t: nat, key: string, purpose: Purpose)
    requires MapsApart(s) && Knows(s, Make(key, purpose))
    ensures Knows(MakeQueue(s, t, key, purpose), ThreadOf(MakeQueue(s, t, key, purpose), t).place)
  {
  }

  lemma {:induction false} MoverKnows(s: State, t: nat, a: Action)
    requires MapsApart(s) && PlacesKnown(s)
    ensures Knows(Step(s, t, a), ThreadOf(Step(s, t, a), t).place)
  {
    var place := ThreadOf(s, t).place;
    assert Knows(s, place);
    if place.Put? {
      PutterKnows(s, t, place.key, place.queue, place.purpose);
    } else if place.Make? {
      MakerKnows(s, t, place.key, place.purpose);
    } else if place.Use? {
      assert ThreadOf(Step(s, t, a), t).place.Idle? || ThreadOf(Step(s, t, a), t).place.Create?;
    }
  }

  lemma {:induction false} PlacesStayKnown(s: State, t: nat, a: Action)
    requires MapsApart(s) && PlacesKnown(s) && PutsApart(s)
    ensures PlacesKnown(Step(s, t, a))
  {
    var r := Step(s, t, a);
    forall u: nat ensures Knows(r, ThreadOf(r, u).place) {
      var place := ThreadOf(s, u).place;
      assert Knows(s, place);
      if u == t {
        MoverKnows(s, t, a);
      } else {
        OthersStay(s, t, a, u);
        StepGrows(s, t, a);
        if place.Put? {
          assert Puts(s, u, place.queue);
          UnusedKept(s, t, a, place.queue);
        }
        KnowsGrows(s, r, place);
      }
    }
  }

  lemma {:induction false} PutsNew(s: State, t: nat, a: Action, q: nat)
    requires Puts(Step(s, t, a), t, q)
    ensures q == |s.queues|
  {
  }

  lemma {:induction false} PutsStayApart(s: State, t: nat, a: Action)
    requires PlacesKnown(s) && PutsApart(s)
    ensures PutsApart(Step(s, t, a))
  {
    var r := Step(s, t, a);
    forall u: nat, v: nat, q: nat | Puts(r, u, q) && Puts(r, v, q) ensures u == v {
      assert Knows(s, ThreadOf(s, u).place) && Knows(s, ThreadOf(s, v).place);
      if u == t {
        PutsNew(s, t, a, q);
      } else {
        OthersStay(s, t, a, u);
        assert Puts(s, u, q);
      }
      if v == t {
        PutsNew(s, t, a, q);
      } else {
        OthersStay(s, t, a, v);
        assert Puts(s, v, q);
      }
    }
  }

  // ---------------------------------------------------------------- what happens to one queue

  predicate Polls(s: State, t: nat, k: string) {
    var place := ThreadOf(s, t).place;
    place.Use? && place.key == k && place.purpose.ToPoll? && FreeQueue(s, k) != []
  }

  predicate Returns(s: State, t: nat, k: string) {
    var place := ThreadOf(s, t).place;
    place.Use? && place.key == k && place.purpose.ToReturn?
  }

  lemma {:induction false} FreeQueueAfter(s: State, t: nat, a: Action, k: string)
    requires MapsApart(s) && PlacesKnown(s)
    ensures FreeQueue(Step(s, t, a), k) ==
            if Polls(s, t, k) then FreeQueue(s, k)[1..]
            else if Returns(s, t, k) then FreeQueue(s, k) + [ThreadOf(s, t).place.purpose.conn]
            else FreeQueue(s, k)
  {
    assert Knows(s, ThreadOf(s, t).place);
  }

  lemma {:induction false} FreeStaysProper(s: State, t: nat, a: Action)
    requires MapsApart(s) && PlacesKnown(s) && FreeProper(s) && Placed(s)
    ensures FreeProper(Step(s, t, a))
  {
    var r := Step(s, t, a);
    StepGrows(s, t, a);
    forall k ensures ProperQueue(r, k, FreeQueue(r, k)) {
      assert ProperQueue(s, k, FreeQueue(s, k)) && Knows(s, ThreadOf(s, t).place);
      FreeQueueAfter(s, t, a, k);
      if Returns(s, t, k) {
        assert Has(s, t, ThreadOf(s, t).place.purpose.conn);
      }
    }
  }

  // ---------------------------------------------------------------- who has what

  /** The thread takes the connection from the queue, or constructs it. */
  predicate Gains(s: State, t: nat, a: Action, c: nat) {
    var place := ThreadOf(s, t).place;
    (place.Use? && Polls(s, t, place.key) && c == FreeQueue(s, place.key)[0]) ||
    (place.Create? && a != Fail && c == |s.conns|)
  }

  predicate GivesBack(s: State, t: nat, c: nat) {
    var place := ThreadOf(s, t).place;
    place.Use? && place.purpose == ToReturn(c)
  }

  lemma {:induction false} UserHasAfter(s: State, t: nat, a: Action, c: nat)
    requires Knows(s, ThreadOf(s, t).place) && ThreadOf(s, t).place.Use? && ThreadOf(s, t).place.queue < |s.queues|
    requires HasOnce(s, t, c)
    ensures Has(Step(s, t, a), t, c) <==> (Has(s, t, c) && !GivesBack(s, t, c)) || Gains(s, t, a, c)
  {
  }

  lemma {:induction false} HasAfter(s: State, t: nat, a: Action, c: nat)
    requires Lawful(s, t, a) && MapsApart(s) && Knows(s, ThreadOf(s, t).place) && HasOnce(s, t, c)
    ensures Has(Step(s, t, a), t, c) <==> (Has(s, t, c) && !GivesBack(s, t, c)) || Gains(s, t, a, c)
  {
    if ThreadOf(s, t).place.Use? {
      UserHasAfter(s, t, a, c);
    }
  }

  lemma {:induction false} UserStaysOnce(s: State, t: nat, a: Action, c: nat)
    requires ThreadOf(s, t).place.Use? && ThreadOf(s, t).place.queue < |s.queues| && HasOnce(s, t, c)
    ensures HasOnce(Step(s, t, a), t, c)
  {
  }

  lemma {:induction false} StillOnce(s: State, t: nat, a: Action, c: nat)
    requires MapsApart(s) && Knows(s, ThreadOf(s, t).place) && HasOnce(s, t, c)
    requires Has(s, t, c) ==> c < |s.conns|
    ensures HasOnce(Step(s, t, a), t, c)
  {
    if ThreadOf(s, t).place.Use? {
      UserStaysOnce(s, t, a, c);
    }
  }

  lemma {:induction false} InFreeAfter(s: State, t: nat, a: Action, c: nat)
    requires MapsApart(s) && PlacesKnown(s) && FreeProper(s)
    ensures InFree(Step(s, t, a), c) <==> (InFree(s, c) && !Gains(s, t, a, c)) || GivesBack(s, t, c)
  {
    var r, place := Step(s, t, a), ThreadOf(s, t).place;
    assert Knows(s, place);
    StepGrows(s, t, a);
    if c < |r.conns| {
      var k := r.conns[c];
      FreeQueueAfter(s, t, a, k);
      assert ProperQueue(s, k, FreeQueue(s, k));
      if c == |s.conns| {
        assert !GivesBack(s, t, c);
      }
    }
    if place.Use? {
      assert ProperQueue(s, place.key, FreeQueue(s, place.key));
    }
  }

  lemma {:induction false} GainedFromNobody(s: State, t: nat, a: Action, c: nat, u: nat)
    requires PlacesKnown(s) && FreeProper(s) && Placed(s) && Gains(s, t, a, c)
    ensures !Has(s, u, c)
  {
    var place := ThreadOf(s, t).place;
    if place.Use? {
      assert ProperQueue(s, place.key, FreeQueue(s, place.key));
      assert InFree(s, c);
    }
  }

  /** Who has a connection after a step, for any thread. */
  lemma {:induction false} HadBefore(s: State, t: nat, a: Action, u: nat, c: nat)
    requires Lawful(s, t, a) && MapsApart(s) && PlacesKnown(s) && Exclusive(s)
    ensures Has(Step(s, t, a), u, c) <==>
            if u == t then (Has(s, t, c) && !GivesBack(s, t, c)) || Gains(s, t, a, c) else Has(s, u, c)
  {
    if u == t {
      assert Knows(s, ThreadOf(s, t).place) && HasOnce(s, t, c);
      HasAfter(s, t, a, c);
    } else {
      OthersStay(s, t, a, u);
    }
  }

  lemma {:induction false} StaysExclusive(s: State, t: nat, a: Action)
    requires Inv(s) && Lawful(s, t, a)
    ensures Exclusive(Step(s, t, a))
  {
    var r := Step(s, t, a);
    forall u: nat, v: nat, c: nat | Has(r, u, c) && Has(r, v, c) ensures u == v {
      HadBefore(s, t, a, u, c);
      HadBefore(s, t, a, v, c);
      if Gains(s, t, a, c) {
        GainedFromNobody(s, t, a, c, u);
        GainedFromNobody(s, t, a, c, v);
      }
    }
    forall u: nat, c: nat ensures HasOnce(r, u, c) {
      assert HasOnce(s, u, c) && Knows(s, ThreadOf(s, u).place);
      if u == t {
        StillOnce(s, t, a, c);
      } else {
        OthersStay(s, t, a, u);
      }
    }
  }

  lemma {:induction false} HadIsNotFree(s: State, t: nat, a: Action, u: nat, c: nat)
    requires Inv(s) && Lawful(s, t, a) && Has(Step(s, t, a), u, c)
    ensures c < |Step(s, t, a).conns| && !InFree(Step(s, t, a), c)
  {
    StepGrows(s, t, a);
    HadBefore(s, t, a, u, c);
    InFreeAfter(s, t, a, c);
    if GivesBack(s, t, c) {
      assert Has(s, t, c);
    }
    if Gains(s, t, a, c) && ThreadOf(s, t).place.Use? {
      var k := ThreadOf(s, t).place.key;
      assert ProperQueue(s, k, FreeQueue(s, k));
    }
  }

  lemma {:induction false} NoneGetsLost(s: State, t: nat, a: Action, c: nat)
    requires Inv(s) && Lawful(s, t, a) && c < |Step(s, t, a).conns|
    ensures InFree(Step(s, t, a), c) || exists u: nat :: Has(Step(s, t, a), u, c)
  {
    if c < |s.conns| && !InFree(s, c) {
      var u: nat :| Has(s, u, c);
      StillHad(s, t, a, c, u);
    } else {
      NowHad(s, t, a, c);
    }
  }

  lemma {:induction false} StillHad(s: State, t: nat, a: Action, c: nat, u: nat)
    requires Inv(s) && Lawful(s, t, a) && Has(s, u, c)
    ensures InFree(Step(s, t, a), c) || Has(Step(s, t, a), u, c)
  {
    InFreeAfter(s, t, a, c);
    HadBefore(s, t, a, u, c);
  }

  lemma {:induction false} NewIsGained(s: State, t: nat, a: Action, c: nat)
    requires |s.conns| <= c < |Step(s, t, a).conns|
    ensures Gains(s, t, a, c) && ThreadOf(s, t).place.Create?
  {
  }

  lemma {:induction false} NowHad(s: State, t: nat, a: Action, c: nat)
    requires Inv(s) && Lawful(s, t, a) && c < |Step(s, t, a).conns| && (c < |s.conns| ==> InFree(s, c))
    ensures InFree(Step(s, t, a), c) || Has(Step(s, t, a), t, c)
  {
    InFreeAfter(s, t, a, c);
    HadBefore(s, t, a, t, c);
    if c >= |s.conns| {
      NewIsGained(s, t, a, c);
    }
  }

  lemma {:induction false} StaysPlaced(s: State, t: nat, a: Action)
    requires Inv(s) && Lawful(s, t, a)
    ensures Placed(Step(s, t, a))
  {
    var r := Step(s, t, a);
    forall u: nat, c: nat | Has(r, u, c) ensures c < |r.conns| && !InFree(r, c) {
      HadIsNotFree(s, t, a, u, c);
    }
    forall c: nat | c < |r.conns| ensures InFree(r, c) || exists u: nat :: Has(r, u, c) {
      NoneGetsLost(s, t, a, c);
    }
  }

  lemma {:induction false} OnlyFreeQueuesShrink(s: State, t: nat, a: Action, q: nat)
    requires Knows(s, ThreadOf(s, t).place) && q < |s.queues| && forall k :: k in s.free ==> s.free[k] != q
    ensures q < |Step(s, t, a).queues| && s.queues[q] <= Step(s, t, a).queues[q]
  {
  }

  lemma {:induction false} RegistryKept(s: State, t: nat, a: Action, c: nat)
    requires MapsApart(s) && Knows(s, ThreadOf(s, t).place) && InRegistry(s, c)
    ensures InRegistry(Step(s, t, a), c)
  {
    StepGrows(s, t, a);
    OnlyFreeQueuesShrink(s, t, a, s.registry[s.conns[c]]);
  }

  lemma {:induction false} RegisteringGoesOn(s: State, t: nat, a: Action, c: nat)
    requires MapsApart(s) && Knows(s, ThreadOf(s, t).place)
    requires Registering(s, t, c) || (Gains(s, t, a, c) && ThreadOf(s, t).place.Create?)
    ensures Registering(Step(s, t, a), t, c) || InRegistry(Step(s, t, a), c)
  {
  }

  lemma {:induction false} StaysRegistered(s: State, t: nat, a: Action)
    requires Inv(s)
    ensures Registered(Step(s, t, a))
  {
    var r := Step(s, t, a);
    assert Knows(s, ThreadOf(s, t).place);
    forall c: nat | c < |r.conns| ensures InRegistry(r, c) || exists u: nat :: Registering(r, u, c) {
      if c < |s.conns| && InRegistry(s, c) {
        RegistryKept(s, t, a, c);
      } else if c < |s.conns| {
        var u: nat :| Registering(s, u, c);
        if u == t {
          RegisteringGoesOn(s, t, a, c);
        } else {
          OthersStay(s, t, a, u);
          assert Registering(r, u, c);
        }
      } else {
        NewIsGained(s, t, a, c);
        RegisteringGoesOn(s, t, a, c);
      }
    }
  }

  lemma {:induction false} StepKeepsInv(s: State, t: nat, a: Action)
    requires Inv(s) && Lawful(s, t, a)
    ensures Inv(Step(s, t, a))
  {
    MapsStayApart(s, t, a);
    PlacesStayKnown(s, t, a);
    PutsStayApart(s, t, a);
    FreeStaysProper(s, t, a);
    StaysExclusive(s, t, a);
    StaysPlaced(s, t, a);
    StaysRegistered(s, t, a);
  }

  /** What every step keeps even when callers release what they do not hold: the maps and the lookups under way. */
  ghost predicate Sane(s: State) {
    MapsApart(s) && PlacesKnown(s) && PutsApart(s)
  }

  lemma {:induction false} StepKeepsSane(s: State, t: nat, a: Action)
    requires Sane(s)
    ensures Sane(Step(s, t, a)) && (Inv(s) && Lawful(s, t, a) ==> Inv(Step(s, t, a)))
  {
    MapsStayApart(s, t, a);
    PlacesStayKnown(s, t, a);
    PutsStayApart(s, t, a);
    if Inv(s) && Lawful(s, t, a) { StepKeepsInv(s, t, a); }
  }

  lemma {:induction false} RunKeepsSane(steps: seq<(nat, Action)>)
    ensures Sane(Run(steps))
  {
    if steps != [] {
      var last := steps[|steps| - 1];
      RunKeepsSane(steps[..|steps| - 1]);
      StepKeepsSane(Run(steps[..|steps| - 1]), last.0, last.1);
    }
  }

  lemma {:induction false} RunKeepsInv(steps: seq<(nat, Action)>)
    requires LawfulRun(steps)
    ensures Inv(Run(steps))
  {
    if steps != [] {
      var last := steps[|steps| - 1];
      RunKeepsInv(steps[..|steps| - 1]);
      StepKeepsInv(Run(steps[..|steps| - 1]), last.0, last.1);
    }
  }

  // ---------------------------------------------------------------- the theorems

  /** In every run each connection is had by one thread and by no other, or sits once in the free queue of its own
      key and in no other. */
  lemma {:induction false} PoolTheorem(steps: seq<(nat, Action)>, c: nat)
    requires LawfulRun(steps) && c < |Run(steps).conns|
    ensures InFree(Run(steps), c) <==> !exists t: nat :: Has(Run(steps), t, c)
    ensures forall t: nat, u: nat :: Has(Run(steps), t, c) && Has(Run(steps), u, c) ==> t == u
    ensures forall k :: c in FreeQueue(Run(steps), k) ==> k == Run(steps).conns[c]
    ensures InFree(Run(steps), c) ==> multiset(FreeQueue(Run(steps), Run(steps).conns[c]))[c] == 1
  {
    var s := Run(steps);
    RunKeepsInv(steps);
    forall k | c in FreeQueue(s, k) ensures k == s.conns[c] {
      assert ProperQueue(s, k, FreeQueue(s, k));
    }
    assert ProperQueue(s, s.conns[c], FreeQueue(s, s.conns[c]));
    if InFree(s, c) {
      OccursOnce(FreeQueue(s, s.conns[c]), c);
    }
  }

  /** Every connection that `acquire` has handed out, and every free one, is in the registry that `shutDown` walks. */
  lemma {:induction false} RegistryTheorem(steps: seq<(nat, Action)>, t: nat, c: nat)
    requires LawfulRun(steps)
    requires c in ThreadOf(Run(steps), t).holding || InFree(Run(steps), c)
    ensures InRegistry(Run(steps), c)
  {
    var s := Run(steps);
    RunKeepsInv(steps);
    if c in ThreadOf(s, t).holding {
      assert Has(s, t, c) && HasOnce(s, t, c);
    }
    if !InRegistry(s, c) {
      var u: nat :| Registering(s, u, c);
      assert Has(s, u, c);
    }
  }

  /** Once a thread's `get` has returned a queue for a key, every thread's `get` returns that queue ever after. */
  lemma {:induction false} GetIsStable(steps: seq<(nat, Action)>, later: seq<(nat, Action)>)
    ensures Grows(Run(steps), Run(steps + later))
  {
    if later == [] {
      assert steps + later == steps;
    } else {
      var last := later[|later| - 1];
      GetIsStable(steps, later[..|later| - 1]);
      assert (steps + later)[..|steps + later| - 1] == steps + later[..|later| - 1];
      StepGrows(Run(steps + later[..|later| - 1]), last.0, last.1);
    }
  }

  /** What a thread uses is the one queue of its key in the map, however the threads raced to put it and whatever the
      callers release. */
  lemma {:induction false} GetsAgree(steps: seq<(nat, Action)>, t: nat, u: nat)
    requires ThreadOf(Run(steps), t).place.Use? && ThreadOf(Run(steps), u).place.Use?
    requires ThreadOf(Run(steps), t).place.purpose.ToRegister? == ThreadOf(Run(steps), u).place.purpose.ToRegister?
    ensures ThreadOf(Run(steps), t).place.queue == ThreadOf(Run(steps), u).place.queue <==>
            ThreadOf(Run(steps), t).place.key == ThreadOf(Run(steps), u).place.key
  {
    var s := Run(steps);
    RunKeepsSane(steps);
    assert Knows(s, ThreadOf(s, t).place) && Knows(s, ThreadOf(s, u).place);
  }

  /** A connection that a thread stops having is free at once: a release loses nothing. */
  lemma {:induction false} ReleaseTheorem(steps: seq<(nat, Action)>, t: nat, a: Action, c: nat)
    requires LawfulRun(steps) && Lawful(Run(steps), t, a)
    requires Has(Run(steps), t, c) && !Has(Step(Run(steps), t, a), t, c)
    ensures InFree(Step(Run(steps), t, a), c)
    ensures FreeQueue(Step(Run(steps), t, a), Run(steps).conns[c]) == FreeQueue(Run(steps), Run(steps).conns[c]) + [c]
  {
    var s := Run(steps);
    RunKeepsInv(steps);
    assert Knows(s, ThreadOf(s, t).place);
    HadBefore(s, t, a, t, c);
    InFreeAfter(s, t, a, c);
    FreeQueueAfter(s, t, a, s.conns[c]);
  }

  lemma {:induction false} OccursOnce(queue: seq<nat>, c: nat)
    requires c in queue && forall i, j :: 0 <= i < j < |queue| ==> queue[i] != queue[j]
    ensures multiset(queue)[c] == 1
  {
    var i :| 0 <= i < |queue| && queue[i] == c;
    assert queue == queue[..i] + [c] + queue[i + 1..];
    assert c !in queue[..i] && c !in queue[i + 1..];
  }

  /** The callers' discipline is exactly what the invariant needs: a release by anyone but the holder breaks it. */
  lemma {:induction false} ReleaseIsSafeIff(s: State, t: nat, c: nat)
    requires Inv(s) && ThreadOf(s, t).place.Idle? && c < |s.conns|
    ensures Inv(Step(s, t, CallRelease(c))) <==> c in ThreadOf(s, t).holding
  {
    var r := Step(s, t, CallRelease(c));
    if c in ThreadOf(s, t).holding {
      StepKeepsInv(s, t, CallRelease(c));
    } else {
      assert Has(r, t, c);
      if InFree(s, c) {
        assert InFree(r, c);
      } else {
        var u: nat :| Has(s, u, c);
        assert u != t;
        OthersStay(s, t, CallRelease(c), u);
        assert Has(r, u, c);
      }
    }
  }

  // ---------------------------------------------------------------- what an unlawful release does

  /** A call, the lookup of the queue, and the use of it. */
  function Thrice(s: State, t: nat, a: Action): State {
    Step(Step(Step(s, t, a), t, Go), t, Go)
  }

  /** What the second of these steps sees when the key has a queue. */
  lemma {:induction false} LooksUp(s: State, t: nat, key: string, purpose: Purpose)
    requires Sane(s) && key in s.free && !purpose.ToRegister?
    ensures var s1 := At(s, t, Look(key, purpose));
            Step(s1, t, Go) == At(s1, t, Use(key, s.free[key], purpose)) && s.free[key] < |s.queues|
  {
  }

  lemma {:induction false} AddsBack(s: State, t: nat, key: string, c: nat)
    requires Sane(s) && key in s.free && s.free[key] < |s.queues|
    requires ThreadOf(s, t).place == Use(key, s.free[key], ToReturn(c))
    ensures var r := Step(s, t, Go);
            && r.conns == s.conns && FreeQueue(r, key) == FreeQueue(s, key) + [c] && ThreadOf(r, t).place.Idle?
            && forall u: nat :: u != t ==> ThreadOf(r, u) == ThreadOf(s, u)
  {
  }

  lemma {:induction false} TakesFirst(s: State, t: nat, key: string)
    requires Sane(s) && key in s.free && s.free[key] < |s.queues| && FreeQueue(s, key) != []
    requires ThreadOf(s, t).place == Use(key, s.free[key], ToPoll)
    ensures var r := Step(s, t, Go);
            && r.conns == s.conns && FreeQueue(r, key) == FreeQueue(s, key)[1..]
            && FreeQueue(s, key)[0] in ThreadOf(r, t).holding
            && forall u: nat :: u != t ==> ThreadOf(r, u) == ThreadOf(s, u)
  {
  }

  lemma {:induction false} ThriceSane(s: State, t: nat, a: Action)
    requires Sane(s)
    ensures Sane(Step(s, t, a)) && Sane(Step(Step(s, t, a), t, Go)) && Sane(Thrice(s, t, a))
  {
    StepKeepsSane(s, t, a);
    StepKeepsSane(Step(s, t, a), t, Go);
    StepKeepsSane(Step(Step(s, t, a), t, Go), t, Go);
  }

  lemma {:induction false} KeepsQueues(s: State, s2: State, t: nat, key: string)
    requires s2.free == s.free && s2.queues == s.queues && s2.conns == s.conns
    requires forall u: nat :: u != t ==> ThreadOf(s2, u) == ThreadOf(s, u)
    ensures FreeQueue(s2, key) == FreeQueue(s, key)
  {
  }

  /** A thread that does not hold the connection releases it while it sits alone in its free queue. */
  lemma {:induction false} ReleasedTwice(s: State, t: nat, c: nat)
    requires Sane(s) && ThreadOf(s, t).place.Idle? && c < |s.conns| && FreeQueue(s, s.conns[c]) == [c]
    ensures var r := Thrice(s, t, CallRelease(c));
            && Sane(r) && r.conns == s.conns && FreeQueue(r, s.conns[c]) == [c, c] && ThreadOf(r, t).place.Idle?
            && forall u: nat :: u != t ==> ThreadOf(r, u) == ThreadOf(s, u)
  {
    var key := s.conns[c];
    ThriceSane(s, t, CallRelease(c));
    var s1, s2 := Step(s, t, CallRelease(c)), Step(Step(s, t, CallRelease(c)), t, Go);
    LooksUp(s1, t, key, ToReturn(c));
    assert s1 == At(s1, t, Look(key, ToReturn(c)));
    KeepsQueues(s, s2, t, key);
    AddsBack(s2, t, key, c);
  }

  /** Acquiring from a queue that is not empty. */
  lemma {:induction false} Acquired(s: State, t: nat, key: string)
    requires Sane(s) && ThreadOf(s, t).place.Idle? && FreeQueue(s, key) != []
    ensures var r := Thrice(s, t, CallAcquire(key));
            && Sane(r) && r.conns == s.conns && FreeQueue(r, key) == FreeQueue(s, key)[1..]
            && FreeQueue(s, key)[0] in ThreadOf(r, t).holding
            && forall u: nat :: u != t ==> ThreadOf(r, u) == ThreadOf(s, u)
  {
    ThriceSane(s, t, CallAcquire(key));
    var s1, s2 := Step(s, t, CallAcquire(key)), Step(Step(s, t, CallAcquire(key)), t, Go);
    LooksUp(s1, t, key, ToPoll);
    assert s1 == At(s1, t, Look(key, ToPoll));
    KeepsQueues(s, s2, t, key);
    TakesFirst(s2, t, key);
  }

  /** So a connection that is released once too often is handed out to two threads at once. */
  lemma {:induction false} SharedAfterDoubleRelease(s: State, t: nat, u: nat, v: nat, c: nat)
    requires Sane(s) && c < |s.conns| && FreeQueue(s, s.conns[c]) == [c] && t != u && t != v && u != v
    requires ThreadOf(s, t).place.Idle? && ThreadOf(s, u).place.Idle? && ThreadOf(s, v).place.Idle?
    ensures var key := s.conns[c];
            var r := Thrice(Thrice(Thrice(s, t, CallRelease(c)), u, CallAcquire(key)), v, CallAcquire(key));
            c in ThreadOf(r, u).holding && c in ThreadOf(r, v).holding
  {
    var key := s.conns[c];
    ReleasedTwice(s, t, c);
    var s1 := Thrice(s, t, CallRelease(c));
    Acquired(s1, u, key);
    Acquired(Thrice(s1, u, CallAcquire(key)), v, key);
  }
}
