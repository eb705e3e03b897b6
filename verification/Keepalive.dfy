/**
  The counterpart of the single driver: unless it means to be disconnected, the client always has a handshake, a long
  poll or a delayed send under way.  What brings it to a halt, and what sets it going again, is stated exactly.
 */
module Keepalive {
  import opened Scheduler
  import opened Bayeux
  import opened ClientSteps
  import S = SchedulerRuns
  import D = SingleDriver
  import B = ClientRuns

  /** Something is under way, or the client means to have nothing under way. */
  predicate Alive(c: Client) {
    D.Drivers(c) > 0 || IsDisconnected(c)
  }

  ghost predicate Ground(c: Client) {
    D.Base(c) && D.AppQueue(c)
  }

  // ---------------------------------------------------------------- listeners

  /** The calls that set the client going or disconnect it, whatever was under way before. */
  predicate Decisive(act: Act) {
    act == CallDisconnect || act == CallHandshake
  }

  predicate SomeDecisive(acts: seq<Act>) {
    exists act :: act in acts && Decisive(act)
  }

  lemma {:induction false} PublicHandshakeAlive(c: Client)
    requires Ground(c)
    ensures var d := PublicHandshake(c); Ground(d) && d.advice == c.advice && Alive(d)
  {
    var d := c.(status := Handshaking, net := Reset(c.net), batch := 0, internalBatch := true);
    S.QueueSendLive(c.config.maxConnections, d.net.(submitted := d.net.submitted + [[Handshake]]), [Handshake],
                    IsDriver);
    assert PublicHandshake(c) == SendMessages(d, [Handshake], false);
    D.OrdinaryBase(d, [Handshake]);
  }

  lemma {:induction false} CalmAlive(c: Client, d: Client)
    requires Ground(c) && D.Calm(c, d) && D.AppQueue(d)
    ensures Ground(d) && D.Drivers(d) == D.Drivers(c)
  {
  }

  lemma {:induction false} PerformAlive(c: Client, act: Act)
    requires Ground(c)
    ensures var d := Perform(c, act);
            Ground(d) && d.advice == c.advice && (Alive(d) <==> Alive(c) || Decisive(act))
  {
    if act == CallHandshake {
      PublicHandshakeAlive(c);
    } else {
      D.PerformCalm(c, act);
      CalmAlive(c, Perform(c, act));
      PerformKeeps(c, act);
    }
  }

  lemma {:induction false} PerformKeeps(c: Client, act: Act)
    requires act != CallHandshake
    ensures var d := Perform(c, act);
            d.advice == c.advice && (IsDisconnected(d) <==> IsDisconnected(c) || act == CallDisconnect)
  {
  }

  lemma {:induction false} ListenersAlive(c: Client, acts: seq<Act>)
    requires Ground(c)
    ensures var d := Listeners(c, acts);
            Ground(d) && d.advice == c.advice && (Alive(d) <==> Alive(c) || SomeDecisive(acts))
    decreases acts
  {
    if acts != [] {
      PerformAlive(c, acts[0]);
      ListenersAlive(Perform(c, acts[0]), acts[1..]);
      assert acts == [acts[0]] + acts[1..];
    }
  }

  lemma {:induction false} DelayedAlive(c: Client)
    requires Ground(c)
    ensures var d := DelayedConnect(c); Ground(d) && d.advice == c.advice && Alive(d)
    ensures var d := DelayedHandshake(c); Ground(d) && d.advice == c.advice && Alive(d)
  {
    D.CancelEmpties(c);
  }

  lemma {:induction false} DisconnectionAlive(c: Client, abort: bool, acts: seq<Act>)
    requires Ground(c)
    ensures var d := Listeners(Disconnection(c, abort), acts);
            Ground(d) && d.advice == c.advice && Alive(d)
  {
    D.CancelEmpties(c);
    ListenersAlive(Disconnection(c, abort), acts);
  }

  // ---------------------------------------------------------------- replies

  function Learned(advice: Advice, r: Reply): Advice {
    if r.advice.Some? then r.advice.value else advice
  }

  /** The reply starts a delayed send or disconnects the client, whatever was under way before. */
  predicate Settles(advice: Advice, r: Reply) {
    match r.kind
    case HandshakeReply =>
      !r.successful || (r.negotiated && (Action(Learned(advice, r)) == Retry || SomeDecisive(r.acts)))
    case ConnectReply => true
    case DisconnectReply => true
    case OtherReply => SomeDecisive(r.acts)
  }

  /** One of the replies that are processed does; each also learns the advice of those before it. */
  predicate SomeSettles(advice: Advice, rs: seq<Reply>)
    decreases rs
  {
    rs != [] &&
    (Settles(advice, rs[0]) || (!Negotiation(rs[0]) && SomeSettles(Learned(advice, rs[0]), rs[1..])))
  }

  lemma {:induction false} HandshakeSucceededAlive(c: Client, acts: seq<Act>)
    requires Ground(c)
    ensures var d := HandshakeSucceeded(c, acts);
            && Ground(d) && d.advice == c.advice
            && (Alive(d) <==> Alive(c) || Action(c.advice) == Retry || SomeDecisive(acts))
  {
    ListenersAlive(c, acts);
    if Action(c.advice) == Retry { DelayedAlive(Listeners(c, acts)); }
  }

  lemma {:induction false} HandshakeFailedAlive(c: Client, acts: seq<Act>)
    requires Ground(c)
    ensures var d := HandshakeFailed(c, acts); Ground(d) && d.advice == c.advice && Alive(d)
  {
    if !IsDisconnected(c) && c.advice.reconnect != Never {
      ListenersAlive(c, acts);
      DelayedAlive(IncreaseBackoff(Listeners(c, acts)));
    } else {
      ListenersAlive(c.(status := Disconnected), acts);
    }
  }

  lemma {:induction false} ConnectSucceededAlive(c: Client, action: Reconnect, acts: seq<Act>)
    requires Ground(c)
    ensures var d := ConnectSucceeded(c, action, acts); Ground(d) && d.advice == c.advice && Alive(d)
  {
    var c1 := c.(internalBatch := false);
    D.FlushCalm(c1);
    ListenersAlive(FlushBatch(c1), acts);
    if action == Retry { DelayedAlive(Listeners(FlushBatch(c1), acts).(backoff := 0)); }
  }

  lemma {:induction false} ConnectRefusedAlive(c: Client, action: Reconnect, acts: seq<Act>)
    requires Ground(c) && action != Unset && (action == Unknown ==> IsDisconnected(c))
    ensures var d := ConnectRefused(c, action, acts); Ground(d) && d.advice == c.advice && Alive(d)
  {
    ListenersAlive(c, acts);
    match action
    case Retry => DelayedAlive(IncreaseBackoff(Listeners(c, acts)));
    case Rehandshake => DelayedAlive(Listeners(c, acts).(backoff := 0));
    case Never =>
    case Unknown =>
  }

  lemma {:induction false} ReceiveAlive(c: Client, r: Reply)
    requires Ground(c)
    ensures var d := Receive(c, r);
            Ground(d) && d.advice == Learned(c.advice, r) && (Alive(d) <==> Alive(c) || Settles(c.advice, r))
  {
    var c1 := c.(advice := Learned(c.advice, r));
    match r.kind {
      case HandshakeReply =>
        if !r.successful { HandshakeFailedAlive(c1, r.acts); }
        else if r.negotiated { HandshakeSucceededAlive(c1, r.acts); }
      case ConnectReply =>
        if r.successful { ConnectSucceededAlive(ConnectStatus(c1), ConnectAction(c1), r.acts); }
        else { ConnectRefusedAlive(ConnectStatus(c1), ConnectAction(c1), r.acts); }
      case DisconnectReply => DisconnectionAlive(c1, !r.successful, r.acts);
      case OtherReply => ListenersAlive(c1, r.acts);
    }
  }

  lemma {:induction false} RepliesAlive(c: Client, rs: seq<Reply>)
    requires Ground(c)
    ensures Alive(Replies(c, rs)) <==> Alive(c) || SomeSettles(c.advice, rs)
    decreases rs
  {
    if rs != [] {
      ReceiveAlive(c, rs[0]);
      if !Negotiation(rs[0]) { RepliesAlive(Receive(c, rs[0]), rs[1..]); }
    }
  }

  // ---------------------------------------------------------------- failures

  predicate FailureSettles(advice: Advice, m: Message, acts: seq<Act>) {
    match m
    case Handshake => true
    case Connect => Action(advice) == Retry || Action(advice) == Rehandshake || SomeDecisive(acts)
    case Disconnect => true
    case App(_) => SomeDecisive(acts)
  }

  predicate SomeFailureSettles(advice: Advice, ms: seq<Message>, acts: seq<seq<Act>>)
    decreases ms
  {
    ms != [] &&
    (FailureSettles(advice, ms[0], if acts == [] then [] else acts[0]) ||
     SomeFailureSettles(advice, ms[1..], if acts == [] then [] else acts[1..]))
  }

  lemma {:induction false} ConnectFailedAlive(c: Client, acts: seq<Act>)
    requires Ground(c)
    ensures var d := ConnectFailed(c, acts);
            && Ground(d) && d.advice == c.advice
            && (Alive(d) <==> Alive(c) || FailureSettles(c.advice, Connect, acts))
  {
    var c1 := Listeners(c, acts);
    ListenersAlive(c, acts);
    if !IsDisconnected(c1) {
      if Action(c.advice) == Retry {
        DelayedAlive(IncreaseBackoff(c1));
      } else if Action(c.advice) == Rehandshake {
        DelayedAlive(c1.(backoff := 0));
      }
    }
  }

  lemma {:induction false} FailMessageAlive(c: Client, m: Message, acts: seq<Act>)
    requires Ground(c)
    ensures var d := FailMessage(c, m, acts);
            && Ground(d) && d.advice == c.advice && (Alive(d) <==> Alive(c) || FailureSettles(c.advice, m, acts))
  {
    match m
    case Handshake => HandshakeFailedAlive(c, acts);
    case Connect => ConnectFailedAlive(c, acts);
    case Disconnect => DisconnectionAlive(c, true, acts);
    case App(_) => ListenersAlive(c, acts);
  }

  lemma {:induction false} FailMessagesAlive(c: Client, ms: seq<Message>, acts: seq<seq<Act>>)
    requires Ground(c)
    ensures Alive(FailMessages(c, ms, acts)) <==> Alive(c) || SomeFailureSettles(c.advice, ms, acts)
    decreases ms
  {
    if ms != [] {
      var now, later := if acts == [] then [] else acts[0], if acts == [] then [] else acts[1..];
      FailMessageAlive(c, ms[0], now);
      FailMessagesAlive(FailMessage(c, ms[0], now), ms[1..], later);
    }
  }

  // ---------------------------------------------------------------- events

  /** The event takes what keeps the client going: it is the callback for it, or a response that cannot be read. */
  predicate Takes(c: Client, ev: Event) {
    if ev.Unreadable? then ev.k < |c.net.sent| && Reports(c.net, ev.k) && IsDriver(c.net.sent[ev.k].job.envelope)
    else CallsBack(c, ev) && D.TakesDriver(c, ev)
  }

  predicate Consumes(c: Client, ev: Event) {
    !IsDisconnected(c) && Takes(c, ev)
  }

  /** The event sets the client going or disconnects it, whatever was under way before. */
  predicate Restarts(c: Client, ev: Event) {
    CallsBack(c, ev) &&
    match ev
    case Response(_, rs) => SomeSettles(c.advice, rs)
    case NetFailure(k, acts) => SomeFailureSettles(c.advice, c.net.sent[k].job.envelope, acts)
    case Timeout(k, acts) => SomeFailureSettles(c.advice, c.net.sent[k].job.envelope, acts)
    case FailTask(j, acts) => SomeFailureSettles(c.advice, c.net.doomed[j].envelope, acts)
    case User(act) => Decisive(act)
    case _ => false
  }

  lemma {:induction false} FireAlive(c: Client, i: nat)
    requires D.Steady(c) && i < |c.timers|
    ensures Alive(OnFire(c, i))
  {
    D.FiredQuiet(c, i);
    var c1 := c.(timers := c.timers[..i] + c.timers[i + 1..]);
    S.LongpollSendLive(c1.net.(submitted := c1.net.submitted + [[Connect]]), [Connect], IsDriver);
    var net := if IsDisconnected(c) then Reset(c.net) else c.net;
    S.QueueSendLive(c.config.maxConnections, net.(submitted := net.submitted + [[Handshake]]), [Handshake], IsDriver);
  }

  lemma {:induction false} CompletedDrivers(c: Client, request: Request, success: bool)
    ensures D.Drivers(Completed(c, request, success)) == D.Drivers(c)
  {
    if !request.longpoll { S.CompleteLive(c.config.maxConnections, c.net, request, success, IsDriver); }
  }

  /** The callback for request `k`. */
  lemma {:induction false} ReportedDrivers(c: Client, k: nat, success: bool)
    requires S.RacesFair(c.net) && k < |c.net.sent|
    ensures var job, d := c.net.sent[k].job, WithNet(c, Report(c.net, k));
            && D.Drivers(c) == D.Drivers(d) + (if Reports(c.net, k) then S.One(job.envelope, IsDriver) else 0)
            && D.Drivers(Completed(d, job.request, success)) == D.Drivers(d)
  {
    S.ReportPlaces(c.net, k, IsDriver);
    CompletedDrivers(WithNet(c, Report(c.net, k)), c.net.sent[k].job.request, success);
  }

  lemma {:induction false} BegunDrivers(c: Client, ev: Event)
    requires S.RacesFair(c.net) && !D.Throws(c, ev) && !ev.Fire?
    ensures D.Drivers(c) == D.Drivers(Begun(c, ev)) + if Takes(c, ev) then 1 else 0
  {
    match ev
    case Response(k, _) => if k < |c.net.sent| { ReportedDrivers(c, k, true); }
    case Unreadable(k) => if k < |c.net.sent| { S.ReportPlaces(c.net, k, IsDriver); }
    case NetFailure(k, _) => if k < |c.net.sent| { ReportedDrivers(c, k, false); }
    case Timeout(k, _) =>
      if k < |c.net.sent| {
        S.ExpirePlaces(c.net, k, IsDriver);
        CompletedDrivers(WithNet(c, Expire(c.net, k)), c.net.sent[k].job.request, false);
      }
    case FailTask(j, _) =>
      if j < |c.net.doomed| {
        S.DoomPlaces(c.net, j, IsDriver);
        CompletedDrivers(WithNet(c, Doom(c.net, j)), c.net.doomed[j].request, false);
      }
    case User(_) =>
  }

  /** What the handlers find under way. */
  lemma {:induction false} BegunAlive(c: Client, ev: Event)
    requires D.Steady(c)
    ensures Alive(Begun(c, ev)) <==> Alive(c) && !Consumes(c, ev)
    ensures !ev.Fire? ==> Begun(c, ev).advice == c.advice
  {
    if ev.Fire? {
      if ev.i < |c.timers| { FireAlive(c, ev.i); }
    } else {
      D.NeverThrows(c, ev);
      BegunDrivers(c, ev);
      BegunFrame(c, ev);
    }
  }

  /** One event, from any state with at most one driver: the client is alive after it exactly when it was alive and the
      event does not take what kept it going, or when the event restarts or disconnects it. */
  lemma {:induction false} StepAliveIff(c: Client, ev: Event)
    requires D.Steady(c)
    ensures Alive(Step(c, ev)) <==> (Alive(c) && !Consumes(c, ev)) || Restarts(c, ev)
  {
    var d := Begun(c, ev);
    BegunAlive(c, ev);
    D.BegunSingle(c, ev);
    if CallsBack(c, ev) {
      match ev
      case Response(_, rs) => RepliesAlive(d, rs);
      case NetFailure(k, acts) => FailMessagesAlive(d, c.net.sent[k].job.envelope, acts);
      case Timeout(k, acts) => FailMessagesAlive(d, c.net.sent[k].job.envelope, acts);
      case FailTask(j, acts) => FailMessagesAlive(d, c.net.doomed[j].envelope, acts);
      case User(act) => PerformAlive(c, act);
    }
  }

  // ---------------------------------------------------------------- runs

  /** What a caller can check before an event: it takes what keeps the client going and puts nothing in its place. */
  predicate Halts(c: Client, ev: Event) {
    Consumes(c, ev) && !Restarts(c, ev)
  }

  predicate HaltingRun(c: Client, evs: seq<Event>)
    decreases evs
  {
    evs != [] &&
    (HaltingRun(c, evs[..|evs| - 1]) || Halts(Run(c, evs[..|evs| - 1]), evs[|evs| - 1]))
  }

  /** In every run, exactly one handshake, long poll or delayed send is under way while the client is not
      disconnected, as long as no event halts it; and an event that halts it leaves it connected, or connecting,
      with nothing under way at all. */
  lemma {:induction false} KeepaliveTheorem(config: Config, evs: seq<Event>)
    requires D.AllowedRun(Initialised(config), evs) && !HaltingRun(Initialised(config), evs)
    ensures var c := Run(Initialised(config), evs);
            && (!IsDisconnected(c) ==> |c.timers| + S.Live(c.net, IsDriver) == 1)
            && forall ev :: !Halts(c, ev) <==> Alive(Step(c, ev))
  {
    var c := Run(Initialised(config), evs);
    D.RunSingle(config, evs);
    if evs == [] {
      D.HandshakeCallIff(Fresh(config));
    } else {
      var before := evs[..|evs| - 1];
      KeepaliveTheorem(config, before);
      var ev := evs[|evs| - 1];
      assert !Halts(Run(Initialised(config), before), ev);
      assert Alive(Step(Run(Initialised(config), before), ev));
    }
    forall ev ensures !Halts(c, ev) <==> Alive(Step(c, ev)) {
      StepAliveIff(c, ev);
    }
  }

  // ---------------------------------------------------------------- a client that has come to a halt

  lemma {:induction false} CallsHarmless(acts: seq<Act>)
    requires !SomeDecisive(acts)
    ensures D.Harmless(Calls(acts))
  {
    if acts != [] {
      assert acts[0] in acts && !Decisive(acts[0]);
      assert forall act :: act in acts[1..] ==> act in acts;
      CallsHarmless(acts[1..]);
    }
  }

  lemma {:induction false} ReceiveHarmless(c: Client, r: Reply)
    requires Ground(c) && !Settles(c.advice, r)
    ensures D.Harmless(ReceiveSteps(c, r))
  {
    var c1 := c.(advice := Learned(c.advice, r));
    if !Negotiation(r) {
      CallsHarmless(r.acts);
      ListenersAlive(c1, r.acts);
    }
  }

  lemma {:induction false} RepliesHarmless(c: Client, rs: seq<Reply>)
    requires Ground(c) && !SomeSettles(c.advice, rs)
    ensures D.Harmless(RepliesSteps(c, rs))
    decreases rs
  {
    if rs != [] {
      ReceiveHarmless(c, rs[0]);
      ReceiveAlive(c, rs[0]);
      if !Negotiation(rs[0]) { RepliesHarmless(Receive(c, rs[0]), rs[1..]); }
    }
  }

  lemma {:induction false} FailMessagesHarmless(c: Client, ms: seq<Message>, acts: seq<seq<Act>>)
    requires Ground(c) && !SomeFailureSettles(c.advice, ms, acts)
    ensures D.Harmless(FailMessagesSteps(c, ms, acts))
    decreases ms
  {
    if ms != [] {
      var now, later := if acts == [] then [] else acts[0], if acts == [] then [] else acts[1..];
      CallsHarmless(now);
      ListenersAlive(c, now);
      FailMessageAlive(c, ms[0], now);
      FailMessagesHarmless(FailMessage(c, ms[0], now), ms[1..], later);
    }
  }

  /** An event that finds nothing under way and does not restart the client starts nothing at all. */
  lemma {:induction false} HaltedAllowed(c: Client, ev: Event)
    requires D.Steady(c) && !Restarts(c, ev)
    ensures D.Allowed(c, ev)
  {
    var d := Begun(c, ev);
    D.BegunSingle(c, ev);
    if CallsBack(c, ev) {
      BegunAlive(c, ev);
      match ev
      case Response(_, rs) => RepliesHarmless(d, rs);
      case NetFailure(k, acts) => FailMessagesHarmless(d, c.net.sent[k].job.envelope, acts);
      case Timeout(k, acts) => FailMessagesHarmless(d, c.net.sent[k].job.envelope, acts);
      case FailTask(j, acts) => FailMessagesHarmless(d, c.net.doomed[j].envelope, acts);
      case User(act) =>
    }
    D.HarmlessSafe(d, EventSteps(c, ev));
  }

  predicate NoneRestarts(c: Client, evs: seq<Event>)
    decreases evs
  {
    evs != [] ==> NoneRestarts(c, evs[..|evs| - 1]) && !Restarts(Run(c, evs[..|evs| - 1]), evs[|evs| - 1])
  }

  /** A client that a run with at most one driver has brought to a halt stays halted, neither disconnected nor with
      anything under way, until an event restarts or disconnects it. */
  lemma {:induction false} HaltedTheorem(config: Config, evs: seq<Event>, more: seq<Event>)
    requires var c := Run(Initialised(config), evs); D.Steady(c) && !Alive(c) && NoneRestarts(c, more)
    ensures var d := Run(Initialised(config), evs + more);
            D.Steady(d) && !IsDisconnected(d) && d.timers == [] && S.Live(d.net, IsDriver) == 0
  {
    var c := Run(Initialised(config), evs);
    B.RunSplit(Initialised(config), evs, more);
    if more != [] {
      var most, ev := more[..|more| - 1], more[|more| - 1];
      HaltedTheorem(config, evs, most);
      B.RunSplit(Initialised(config), evs, most);
      var d := Run(c, most);
      HaltedAllowed(d, ev);
      D.StepSingle(d, ev);
      StepAliveIff(d, ev);
      D.RunDoomed(config, evs + more);
    }
  }
}
