/** The client only ever drives its scheduler through the scheduler's own events. */
module ClientNet {
  import opened Scheduler
  import opened Bayeux
  import opened ClientSteps
  import S = SchedulerRuns
  import Slots = SchedulerSlots

  /** Only connects are sent as long polls. */
  predicate Proper(evs: seq<S.Event<Envelope>>) {
    forall i :: 0 <= i < |evs| && evs[i].Submit? && evs[i].longpoll ==> evs[i].e == [Connect]
  }

  ghost predicate Reachable(maxConnections: int, n: Net<Envelope>) {
    exists evs: seq<S.Event<Envelope>> :: Proper(evs) && S.Run(maxConnections, evs) == n
  }

  ghost predicate NetReachable(c: Client) {
    Reachable(c.config.maxConnections, c.net)
  }

  lemma {:induction false} Next(maxConnections: int, n: Net<Envelope>, ev: S.Event<Envelope>)
    requires Reachable(maxConnections, n) && Proper([ev])
    ensures Reachable(maxConnections, S.Step(maxConnections, n, ev))
  {
    var evs: seq<S.Event<Envelope>> :| Proper(evs) && S.Run(maxConnections, evs) == n;
    assert [ev][0] == ev && Proper(evs + [ev]);
    S.RunSnoc(maxConnections, evs, ev);
  }

  lemma {:induction false} SendReachable(c: Client, ms: seq<Message>, longpoll: bool)
    requires NetReachable(c) && (longpoll ==> ms == [Connect])
    ensures NetReachable(SendMessages(c, ms, longpoll))
  {
    Next(c.config.maxConnections, c.net, S.Submit(ms, longpoll));
  }

  lemma {:induction false} PerformReachable(c: Client, act: Act)
    requires NetReachable(c)
    ensures NetReachable(Perform(c, act))
  {
    match act
    case Submit => SendReachable(c.(submitted := c.submitted + 1), [App(c.submitted)], false);
    case StartBatch =>
    case EndBatch =>
      var c1 := c.(batch := c.batch - 1, heldBack := if HoldsBack(c) then c.heldBack + 1 else c.heldBack);
      SendReachable(c1.(messageQueue := []), c.messageQueue, false);
    case CallDisconnect => SendReachable(c.(status := Disconnecting), [Disconnect], false);
    case CallHandshake => HandshakeReachable(c.(status := Disconnected));
  }

  lemma {:induction false} ApplyReachable(c: Client, p: Prim)
    requires NetReachable(c)
    ensures NetReachable(Apply(c, p))
  {
    match p
    case Do(act) => PerformReachable(c, act);
    case EndInternalBatch =>
      SendReachable(c.(internalBatch := false, messageQueue := []), c.messageQueue, false);
    case Cut(abort) => Next(c.config.maxConnections, c.net, S.ResetAll);
    case _ =>
  }

  lemma {:induction false} ApplyAllReachable(c: Client, ps: seq<Prim>)
    requires NetReachable(c)
    ensures NetReachable(ApplyAll(c, ps))
    decreases ps
  {
    if ps != [] {
      ApplyReachable(c, ps[0]);
      ApplyAllReachable(Apply(c, ps[0]), ps[1..]);
    }
  }

  lemma {:induction false} HandshakeReachable(c: Client)
    requires NetReachable(c)
    ensures NetReachable(DoHandshake(c))
  {
    Next(c.config.maxConnections, c.net, S.ResetAll);
    var c1 := if IsDisconnected(c) then c.(net := Reset(c.net)) else c;
    SendReachable(c1.(batch := 0, internalBatch := true, status := Handshaking), [Handshake], false);
  }

  lemma {:induction false} FireReachable(c: Client, i: nat)
    requires NetReachable(c) && i < |c.timers|
    ensures NetReachable(OnFire(c, i))
  {
    var c1 := c.(timers := c.timers[..i] + c.timers[i + 1..]);
    if c.timers[i].operation == SendHandshake {
      HandshakeReachable(c1);
    } else {
      SendReachable(c1.(status := Connecting), [Connect], true);
    }
  }

  /** Failure tasks carry ordinary requests only. */
  predicate Ordinary(jobs: seq<Job<Envelope>>) {
    forall i :: 0 <= i < |jobs| ==> !jobs[i].request.longpoll
  }

  lemma {:induction false} SchedulerOrdinary(maxConnections: int, n: Net<Envelope>, ev: S.Event<Envelope>)
    requires Ordinary(n.envelopes) && Ordinary(n.doomed)
    ensures var m := S.Step(maxConnections, n, ev); Ordinary(m.envelopes) && Ordinary(m.doomed)
  {
  }

  lemma {:induction false} RunOrdinary(maxConnections: int, evs: seq<S.Event<Envelope>>)
    ensures var n := S.Run(maxConnections, evs); Ordinary(n.envelopes) && Ordinary(n.doomed)
  {
    if evs != [] {
      RunOrdinary(maxConnections, evs[..|evs| - 1]);
      SchedulerOrdinary(maxConnections, S.Run(maxConnections, evs[..|evs| - 1]), evs[|evs| - 1]);
    }
  }

  /** What happens to the scheduler. */
  function SchedulerEvent(ev: Event): S.Event<Envelope>
    requires !ev.User? && !ev.Fire?
  {
    match ev
    case Response(k, _) => S.Success(k)
    case Unreadable(k) => S.Unreadable(k)
    case NetFailure(k, _) => S.Failure(k)
    case Timeout(k, _) => S.Timeout(k)
    case FailTask(j, _) => S.FailTask(j)
  }

  /** The scheduler half of a callback is one scheduler event. */
  lemma {:induction false} CallbackNet(c: Client, ev: Event)
    requires !ev.User? && !ev.Fire? && Ordinary(c.net.doomed)
    ensures Begun(c, ev).net == S.Step(c.config.maxConnections, c.net, SchedulerEvent(ev))
    ensures Begun(c, ev).config == c.config
  {
  }

  lemma {:induction false} CallbackReachable(c: Client, ev: Event)
    requires NetReachable(c) && !ev.User? && !ev.Fire?
    ensures NetReachable(Begun(c, ev))
  {
    var evs: seq<S.Event<Envelope>> :| Proper(evs) && S.Run(c.config.maxConnections, evs) == c.net;
    RunOrdinary(c.config.maxConnections, evs);
    CallbackNet(c, ev);
    Next(c.config.maxConnections, c.net, SchedulerEvent(ev));
  }

  /** And the rest of an event is small steps. */
  lemma {:induction false} StepReachable(c: Client, ev: Event)
    requires NetReachable(c)
    ensures NetReachable(Step(c, ev))
  {
    if ev.Fire? {
      if ev.i < |c.timers| { FireReachable(c, ev.i); }
    } else {
      if !ev.User? { CallbackReachable(c, ev); }
      EventPlan(c, ev);
      ApplyAllReachable(Begun(c, ev), EventSteps(c, ev));
    }
  }

  /** Every run of the client is, for its scheduler, a run of the scheduler: all that holds of those holds here. */
  lemma {:induction false} ClientRefinesScheduler(config: Config, evs: seq<Event>)
    ensures NetReachable(Run(Initialised(config), evs))
  {
    if evs == [] {
      var none: seq<S.Event<Envelope>> := [];
      assert Proper(none) && S.Run(config.maxConnections, none) == Fresh(config).net;
      HandshakeReachable(Fresh(config).(status := Disconnected));
    } else {
      ClientRefinesScheduler(config, evs[..|evs| - 1]);
      StepReachable(Run(Initialised(config), evs[..|evs| - 1]), evs[|evs| - 1]);
    }
  }

  /** In particular no envelope of the client is ever reported on twice, the connection limit is kept, and a waiting
      envelope means busy slots or a pending failure task. */
  lemma {:induction false} ClientNetTheorem(config: Config, evs: seq<Event>, p: Envelope -> bool)
    requires config.maxConnections >= 1
    ensures var n := Run(Initialised(config), evs).net;
            && S.Submissions(n.submitted, p) == S.Places(n, p)
            && |n.requests| + (if n.longpollRequest.Some? then 1 else 0) <= config.maxConnections
            && (n.envelopes != [] ==> |n.requests| == config.maxConnections - 1 || n.doomed != [])
  {
    ClientRefinesScheduler(config, evs);
    ConfigKept(config, evs);
    var n := Run(Initialised(config), evs).net;
    var trace: seq<S.Event<Envelope>> :| Proper(trace) && S.Run(config.maxConnections, trace) == n;
    S.SchedulerTheorem(config.maxConnections, trace, p);
    S.Conservation(config.maxConnections, trace, p);
  }

  /** Long polls carry a connect and nothing else. */
  ghost predicate LongpollsConnect(n: Net<Envelope>) {
    forall k :: 0 <= k < |n.sent| && n.sent[k].job.request.longpoll ==> n.sent[k].job.envelope == [Connect]
  }

  lemma {:induction false} RunLongpolls(maxConnections: int, evs: seq<S.Event<Envelope>>)
    requires Proper(evs)
    ensures LongpollsConnect(S.Run(maxConnections, evs))
  {
    if evs != [] {
      var before := evs[..|evs| - 1];
      assert Proper(before);
      RunLongpolls(maxConnections, before);
      StepLongpolls(maxConnections, S.Run(maxConnections, before), evs[|evs| - 1]);
    }
  }

  lemma {:induction false} StepLongpolls(maxConnections: int, n: Net<Envelope>, ev: S.Event<Envelope>)
    requires LongpollsConnect(n) && (ev.Submit? && ev.longpoll ==> ev.e == [Connect])
    ensures LongpollsConnect(S.Step(maxConnections, n, ev))
  {
    match ev
    case Success(k) =>
      if k < |n.sent| { CompletionLongpolls(maxConnections, Report(n, k), n.sent[k].job.request, true); }
    case Failure(k) =>
      if k < |n.sent| { CompletionLongpolls(maxConnections, Report(n, k), n.sent[k].job.request, false); }
    case Timeout(k) =>
      if k < |n.sent| { CompletionLongpolls(maxConnections, Expire(n, k), n.sent[k].job.request, false); }
    case FailTask(j) =>
    case _ =>
  }

  lemma {:induction false} CompletionLongpolls(maxConnections: int, n: Net<Envelope>, request: Request, success: bool)
    requires LongpollsConnect(n)
    ensures LongpollsConnect(S.Completion(maxConnections, n, request, success))
  {
  }

  /** What is known of the scheduler of a client in any run. */
  ghost predicate Sound(c: Client) {
    && S.Inv(c.config.maxConnections, c.net) && Slots.Ids(c.net) && LongpollsConnect(c.net)
  }

  lemma {:induction false} RunSound(config: Config, evs: seq<Event>)
    ensures Sound(Run(Initialised(config), evs))
  {
    var c := Run(Initialised(config), evs);
    ClientRefinesScheduler(config, evs);
    var max := c.config.maxConnections;
    var trace: seq<S.Event<Envelope>> :| Proper(trace) && S.Run(max, trace) == c.net;
    S.RunKeeps(max, trace);
    Slots.RunIds(max, trace);
    RunLongpolls(max, trace);
  }

  lemma {:induction false} ApplyAllConfig(c: Client, ps: seq<Prim>)
    ensures ApplyAll(c, ps).config == c.config
    decreases ps
  {
    if ps != [] {
      ApplyAllConfig(Apply(c, ps[0]), ps[1..]);
    }
  }

  lemma {:induction false} StepConfig(c: Client, ev: Event)
    ensures Step(c, ev).config == c.config
  {
    EventPlan(c, ev);
    ApplyAllConfig(Begun(c, ev), EventSteps(c, ev));
  }

  lemma {:induction false} ConfigKept(config: Config, evs: seq<Event>)
    ensures Run(Initialised(config), evs).config == config
  {
    if evs != [] {
      ConfigKept(config, evs[..|evs| - 1]);
      StepConfig(Run(Initialised(config), evs[..|evs| - 1]), evs[|evs| - 1]);
    }
  }
}
