/** What the client keeps over every run: its books on application messages, and the order in which they leave. */
module ClientRuns {
  import opened Scheduler
  import opened Bayeux
  import opened ClientSteps
  import opened Overtaking

  // ---------------------------------------------------------------- the books on application messages

  function LogCount(log: seq<Logged>, m: Message): nat {
    if log == [] then 0 else LogCount(log[..|log| - 1], m) + if log[|log| - 1].message == m then 1 else 0
  }

  function Count(ms: seq<Message>, m: Message): nat {
    if ms == [] then 0 else (if ms[0] == m then 1 else 0) + Count(ms[1..], m)
  }

  /** The numbers of the application messages that reached `_send`, in that order. */
  function Reached(log: seq<Logged>): seq<nat> {
    if log == [] then []
    else
      var last := log[|log| - 1].message;
      Reached(log[..|log| - 1]) + if last.App? then [last.number] else []
  }

  /** Message `m` has reached `_send`, is held, or was discarded by a disconnection: once if it was ever given. */
  predicate Booked(c: Client, m: Message) {
    LogCount(c.log, m) + Count(c.messageQueue, m) + Count(c.discarded, m) ==
    if m.App? && m.number < c.submitted then 1 else 0
  }

  /** While the internal batch is on, only the client's own messages reach `_send`. */
  predicate InternalOnly(log: seq<Logged>) {
    forall i :: 0 <= i < |log| ==> log[i].internalBatch ==> !log[i].message.App?
  }

  /** Held messages are waiting for the end of a batch. */
  predicate Held(c: Client) {
    c.messageQueue != [] ==> c.batch > 0 || c.internalBatch
  }

  /** The messages sent so far, then those held. */
  function Timeline(c: Client): seq<nat> {
    Reached(c.log) + Numbers(c.messageQueue)
  }

  /** What has left, be it sent or discarded, then what is held. */
  function Departures(c: Client): seq<nat> {
    c.left + Numbers(c.messageQueue)
  }

  /** The record of overtaken messages is right for both, and is empty as long as no `endBatch` has held messages
      back. */
  predicate InOrder(c: Client) {
    && Told(Timeline(c), c.overtaken, c.submitted) && Told(Departures(c), c.overtaken, c.submitted)
    && (forall m :: m in c.overtaken ==> m in Departures(c))
    && (c.heldBack == 0 ==> Held(c) && c.overtaken == {})
  }

  predicate OnlyApps(ms: seq<Message>) {
    forall i :: 0 <= i < |ms| ==> ms[i].App?
  }

  predicate Books(c: Client) {
    InternalOnly(c.log) && OnlyApps(c.messageQueue) && InOrder(c)
  }

  lemma {:induction false} LogCountConcat(a: seq<Logged>, b: seq<Logged>, m: Message)
    ensures LogCount(a + b, m) == LogCount(a, m) + LogCount(b, m)
  {
    if b == [] {
      assert a + b == a;
    } else {
      assert (a + b)[..|a + b| - 1] == a + b[..|b| - 1];
      LogCountConcat(a, b[..|b| - 1], m);
    }
  }

  lemma {:induction false} LogCountOf(ms: seq<Message>, internalBatch: bool, m: Message)
    ensures LogCount(Log(ms, internalBatch), m) == Count(ms, m)
  {
    if ms != [] {
      LogCountOf(ms[1..], internalBatch, m);
      LogCountConcat([Logged(ms[0], internalBatch)], Log(ms[1..], internalBatch), m);
    }
  }

  lemma {:induction false} CountConcat(a: seq<Message>, b: seq<Message>, m: Message)
    ensures Count(a + b, m) == Count(a, m) + Count(b, m)
  {
    if a == [] {
      assert a + b == b;
    } else {
      assert (a + b)[1..] == a[1..] + b;
      CountConcat(a[1..], b, m);
    }
  }

  lemma {:induction false} ReachedConcat(a: seq<Logged>, b: seq<Logged>)
    ensures Reached(a + b) == Reached(a) + Reached(b)
  {
    if b == [] {
      assert a + b == a;
    } else {
      assert (a + b)[..|a + b| - 1] == a + b[..|b| - 1];
      ReachedConcat(a, b[..|b| - 1]);
    }
  }

  lemma {:induction false} ReachedOf(ms: seq<Message>, internalBatch: bool)
    ensures Reached(Log(ms, internalBatch)) == Numbers(ms)
  {
    if ms != [] {
      ReachedOf(ms[1..], internalBatch);
      ReachedConcat([Logged(ms[0], internalBatch)], Log(ms[1..], internalBatch));
    }
  }

  lemma {:induction false} NumbersConcat(a: seq<Message>, b: seq<Message>)
    ensures Numbers(a + b) == Numbers(a) + Numbers(b)
  {
    if a == [] {
      assert a + b == b;
    } else {
      assert (a + b)[1..] == a[1..] + b && (a + b)[0] == a[0];
      NumbersConcat(a[1..], b);
      var first := if a[0].App? then [a[0].number] else [];
      assert first + (Numbers(a[1..]) + Numbers(b)) == first + Numbers(a[1..]) + Numbers(b);
    }
  }

  /** What sending does to the books. */
  lemma {:induction false} SendBooks(c: Client, ms: seq<Message>, longpoll: bool, m: Message)
    ensures var d := SendMessages(c, ms, longpoll);
            && LogCount(d.log, m) == LogCount(c.log, m) + Count(ms, m)
            && Reached(d.log) == Reached(c.log) + Numbers(ms)
    ensures InternalOnly(c.log) && (c.internalBatch ==> forall i :: 0 <= i < |ms| ==> !ms[i].App?) ==>
              InternalOnly(SendMessages(c, ms, longpoll).log)
  {
    LogCountConcat(c.log, Log(ms, c.internalBatch), m);
    LogCountOf(ms, c.internalBatch, m);
    ReachedConcat(c.log, Log(ms, c.internalBatch));
    ReachedOf(ms, c.internalBatch);
  }

  lemma {:induction false} SameOrder(c: Client, d: Client)
    requires InOrder(c) && Timeline(d) == Timeline(c) && Departures(d) == Departures(c)
    requires d.overtaken == c.overtaken && d.submitted == c.submitted && d.heldBack == c.heldBack
    requires c.heldBack == 0 ==> Held(d)
    ensures InOrder(d)
  {
  }

  lemma {:induction false} OwnMessageSent(c: Client, own: Message, longpoll: bool, m: Message)
    requires !own.App? && InternalOnly(c.log) && (m.App? ==> Booked(c, m))
    ensures var d := SendMessages(c, [own], longpoll);
            && InternalOnly(d.log) && (m.App? ==> Booked(d, m))
            && Timeline(d) == Timeline(c) && Departures(d) == Departures(c)
  {
    SendBooks(c, [own], longpoll, m);
    assert Numbers([own]) == [];
  }

  lemma {:induction false} OwnMessageBooks(c: Client, own: Message, longpoll: bool, m: Message)
    requires !own.App? && Books(c) && (m.App? ==> Booked(c, m))
    ensures var d := SendMessages(c, [own], longpoll); Books(d) && (m.App? ==> Booked(d, m))
  {
    OwnMessageSent(c, own, longpoll, m);
    SameOrder(c, SendMessages(c, [own], longpoll));
  }

  lemma {:induction false} HoldBooks(c: Client, m: Message)
    requires Books(c) && (m.App? ==> Booked(c, m)) && (c.batch > 0 || c.internalBatch)
    ensures Books(QueueMessage(c)) && (m.App? ==> Booked(QueueMessage(c), m))
  {
    var next, d := App(c.submitted), QueueMessage(c);
    CountConcat(c.messageQueue, [next], m);
    NumbersConcat(c.messageQueue, [next]);
    assert Numbers([next]) == [c.submitted];
    assert Timeline(d) == Timeline(c) + [c.submitted] && Departures(d) == Departures(c) + [c.submitted];
    ToldLast(Timeline(c), c.overtaken, c.submitted);
    ToldLast(Departures(c), c.overtaken, c.submitted);
  }

  lemma {:induction false} DirectOrder(c: Client)
    requires InOrder(c) && c.batch <= 0 && !c.internalBatch
    requires Reached(QueueMessage(c).log) == Reached(c.log) + [c.submitted]
    ensures InOrder(QueueMessage(c))
  {
    var d, held := QueueMessage(c), Numbers(c.messageQueue);
    assert Numbers([App(c.submitted)]) == [c.submitted];
    assert Timeline(d) == Reached(c.log) + [c.submitted] + held && Departures(d) == c.left + [c.submitted] + held;
    ToldFirst(Reached(c.log), held, c.overtaken, c.submitted);
    ToldFirst(c.left, held, c.overtaken, c.submitted);
    forall m | m in d.overtaken ensures m in Departures(d) {
      assert m in c.left + held;
    }
  }

  lemma {:induction false} DirectSent(c: Client, m: Message)
    requires InternalOnly(c.log) && (m.App? ==> Booked(c, m)) && c.batch <= 0 && !c.internalBatch
    ensures var d := QueueMessage(c);
            && InternalOnly(d.log) && (m.App? ==> Booked(d, m)) && d.messageQueue == c.messageQueue
            && Reached(d.log) == Reached(c.log) + [c.submitted]
  {
    var next := App(c.submitted);
    SendBooks(c.(submitted := c.submitted + 1, overtaken := c.overtaken + HeldNumbers(c)), [next], false, m);
    assert Numbers([next]) == [c.submitted];
  }

  lemma {:induction false} DirectBooks(c: Client, m: Message)
    requires Books(c) && (m.App? ==> Booked(c, m)) && c.batch <= 0 && !c.internalBatch
    ensures Books(QueueMessage(c)) && (m.App? ==> Booked(QueueMessage(c), m))
  {
    DirectSent(c, m);
    DirectOrder(c);
  }

  lemma {:induction false} QueueMessageBooks(c: Client, m: Message)
    requires Books(c) && (m.App? ==> Booked(c, m))
    ensures Books(QueueMessage(c)) && (m.App? ==> Booked(QueueMessage(c), m))
  {
    if c.batch > 0 || c.internalBatch { HoldBooks(c, m); } else { DirectBooks(c, m); }
  }

  lemma {:induction false} FlushBooks(c: Client, m: Message)
    requires InternalOnly(c.log) && OnlyApps(c.messageQueue) && (m.App? ==> Booked(c, m))
    requires InOrder(c.(heldBack := 1)) && (c.heldBack == 0 ==> c.overtaken == {})
    requires !c.internalBatch
    ensures Books(FlushBatch(c)) && (m.App? ==> Booked(FlushBatch(c), m))
  {
    if c.messageQueue != [] {
      SendBooks(c.(messageQueue := []), c.messageQueue, false, m);
      assert Timeline(FlushBatch(c)) == Timeline(c) && Departures(FlushBatch(c)) == Departures(c);
    }
  }

  lemma {:induction false} PerformBooks(c: Client, act: Act, m: Message)
    requires Books(c) && (m.App? ==> Booked(c, m))
    ensures Books(Perform(c, act)) && (m.App? ==> Booked(Perform(c, act), m))
  {
    match act
    case Submit => QueueMessageBooks(c, m);
    case StartBatch =>
    case EndBatch =>
      var c1 := c.(batch := c.batch - 1, heldBack := if HoldsBack(c) then c.heldBack + 1 else c.heldBack);
      if c1.batch == 0 && !IsDisconnected(c) && !c.internalBatch { FlushBooks(c1, m); }
    case CallDisconnect =>
      if !IsDisconnected(c) { OwnMessageBooks(c.(status := Disconnecting), Disconnect, false, m); }
    case CallHandshake => HandshakeBooks(c.(status := Disconnected), m);
  }

  lemma {:induction false} CutBooks(c: Client, abort: bool, m: Message)
    requires Books(c) && (m.App? ==> Booked(c, m))
    ensures Books(Disconnection(c, abort)) && (m.App? ==> Booked(Disconnection(c, abort), m))
  {
    CountConcat(c.discarded, c.messageQueue, m);
    var d := Disconnection(c, abort);
    ToldPrefix(Reached(c.log), Numbers(c.messageQueue), c.overtaken, c.submitted);
    assert Timeline(d) == Reached(c.log) && Departures(d) == Departures(c);
  }

  lemma {:induction false} ApplyBooks(c: Client, p: Prim, m: Message)
    requires Books(c) && (m.App? ==> Booked(c, m))
    ensures Books(Apply(c, p)) && (m.App? ==> Booked(Apply(c, p), m))
  {
    match p
    case Do(act) => PerformBooks(c, act, m);
    case EndInternalBatch => FlushBooks(c.(internalBatch := false), m);
    case Cut(abort) => CutBooks(c, abort, m);
    case Delay(operation) =>
    case _ =>
  }

  lemma {:induction false} ApplyAllBooks(c: Client, ps: seq<Prim>, m: Message)
    requires Books(c) && (m.App? ==> Booked(c, m))
    ensures Books(ApplyAll(c, ps)) && (m.App? ==> Booked(ApplyAll(c, ps), m))
    decreases ps
  {
    if ps != [] {
      ApplyBooks(c, ps[0], m);
      ApplyAllBooks(Apply(c, ps[0]), ps[1..], m);
    }
  }

  lemma {:induction false} HandshakeBooks(c: Client, m: Message)
    requires Books(c) && (m.App? ==> Booked(c, m))
    ensures Books(DoHandshake(c)) && (m.App? ==> Booked(DoHandshake(c), m))
  {
    var c1 := if IsDisconnected(c) then c.(net := Reset(c.net)) else c;
    OwnMessageBooks(c1.(batch := 0, internalBatch := true, status := Handshaking), Handshake, false, m);
  }

  lemma {:induction false} FireBooks(c: Client, i: nat, m: Message)
    requires Books(c) && (m.App? ==> Booked(c, m)) && i < |c.timers|
    ensures Books(OnFire(c, i)) && (m.App? ==> Booked(OnFire(c, i), m))
  {
    var c1 := c.(timers := c.timers[..i] + c.timers[i + 1..]);
    if c.timers[i].operation == SendHandshake {
      HandshakeBooks(c1, m);
    } else {
      OwnMessageBooks(c1.(status := Connecting), Connect, true, m);
    }
  }

  lemma {:induction false} BegunBooks(c: Client, ev: Event, m: Message)
    requires Books(c) && (m.App? ==> Booked(c, m))
    ensures Books(Begun(c, ev)) && (m.App? ==> Booked(Begun(c, ev), m))
  {
    if ev.Fire? {
      if ev.i < |c.timers| { FireBooks(c, ev.i, m); }
    } else {
      BegunFrame(c, ev);
    }
  }

  lemma {:induction false} StepBooks(c: Client, ev: Event, m: Message)
    requires Books(c) && (m.App? ==> Booked(c, m))
    ensures Books(Step(c, ev)) && (m.App? ==> Booked(Step(c, ev), m))
  {
    EventPlan(c, ev);
    BegunBooks(c, ev, m);
    ApplyAllBooks(Begun(c, ev), EventSteps(c, ev), m);
  }

  lemma {:induction false} RunBooks(config: Config, evs: seq<Event>, m: Message)
    ensures var c := Run(Initialised(config), evs); Books(c) && (m.App? ==> Booked(c, m))
  {
    if evs == [] {
      HandshakeBooks(Fresh(config).(status := Disconnected), m);
    } else {
      RunBooks(config, evs[..|evs| - 1], m);
      StepBooks(Run(Initialised(config), evs[..|evs| - 1]), evs[|evs| - 1], m);
    }
  }

  /** In every run, each message given to the client has reached `_send`, is held, or was discarded by a disconnection,
      exactly one of these and once; during the internal batch only handshakes, connects and disconnects are sent;
      and as long as no `endBatch` has left messages held because of a disconnection, messages reach `_send` in the
      order they were given, ahead of those still held. */
  lemma {:induction false} BatchingTheorem(config: Config, evs: seq<Event>, n: nat)
    ensures var c := Run(Initialised(config), evs);
            LogCount(c.log, App(n)) + Count(c.messageQueue, App(n)) + Count(c.discarded, App(n)) ==
            if n < c.submitted then 1 else 0
    ensures var c := Run(Initialised(config), evs);
            forall i :: 0 <= i < |c.log| && c.log[i].internalBatch ==> !c.log[i].message.App?
    ensures var c := Run(Initialised(config), evs);
            c.heldBack == 0 ==> Sorted(Timeline(c))
  {
    RunBooks(config, evs, App(n));
    var c := Run(Initialised(config), evs);
    SortedIff(Timeline(c), c.overtaken, c.submitted);
  }

  /** In every run, messages have left the client in the order they were given, those still held included, if and only
      if none was given while others were held outside any batch; and what reached `_send` did so in that order if and
      only if no overtaken message has reached it. */
  lemma {:induction false} OrderTheorem(config: Config, evs: seq<Event>)
    ensures var c := Run(Initialised(config), evs);
            Sorted(c.left + Numbers(c.messageQueue)) <==> c.overtaken == {}
    ensures var c := Run(Initialised(config), evs);
            Sorted(Reached(c.log)) <==> forall m :: m in c.overtaken ==> m !in Reached(c.log)
    ensures var c := Run(Initialised(config), evs); c.heldBack == 0 ==> c.overtaken == {}
  {
    RunBooks(config, evs, Connect);
    var c := Run(Initialised(config), evs);
    SortedIff(Departures(c), c.overtaken, c.submitted);
    ToldPrefix(Reached(c.log), Numbers(c.messageQueue), c.overtaken, c.submitted);
    SortedIff(Reached(c.log), c.overtaken, c.submitted);
  }

  /** The first message to be overtaken is overtaken by one given while it was held outside any batch; no other step of
      any handler does that. */
  lemma {:induction false} OvertakesIff(c: Client, p: Prim)
    requires c.overtaken == {} && OnlyApps(c.messageQueue)
    ensures Apply(c, p).overtaken == {} <==> !(p == Do(Submit) && !Held(c))
  {
    if c.messageQueue != [] {
      assert c.messageQueue[0].App?;
      assert Numbers(c.messageQueue)[0] == c.messageQueue[0].number;
      assert c.messageQueue[0].number in Numbers(c.messageQueue);
      assert c.messageQueue[0].number in HeldNumbers(c);
    }
  }

  /** Of all steps only the `endBatch` that closes the last batch while disconnected leaves messages held outside any
      batch. */
  lemma {:induction false} OnlyEndBatchHoldsBack(c: Client, p: Prim)
    requires Held(c)
    ensures Held(Apply(c, p)) <==> !(p == Do(EndBatch) && HoldsBack(c))
  {
  }

  // ---------------------------------------------------------------- runs put together

  lemma {:induction false} RunSnoc(c: Client, evs: seq<Event>, ev: Event)
    ensures Run(c, evs + [ev]) == Step(Run(c, evs), ev)
  {
    assert (evs + [ev])[..|evs|] == evs;
  }

  lemma {:induction false} RunSplit(c: Client, evs: seq<Event>, more: seq<Event>)
    ensures Run(c, evs + more) == Run(Run(c, evs), more)
    decreases more
  {
    if more == [] {
      assert evs + more == evs;
    } else {
      RunSplit(c, evs, more[..|more| - 1]);
      assert (evs + more)[..|evs + more| - 1] == evs + more[..|more| - 1];
    }
  }
}
