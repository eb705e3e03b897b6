/** When the messages held in a batch leave: at the end of the batch, but also with a successful connect reply. */
module ClientFlush {
  import opened Scheduler
  import opened Bayeux
  import opened ClientSteps
  import opened ClientRuns

  /** The message has been given and is held, in a batch or not. */
  predicate Queued(c: Client, m: Message) {
    m in c.messageQueue && m.App? && m.number < c.submitted
  }

  /** The message has been given and is no longer held. */
  predicate Gone(c: Client, m: Message) {
    m !in c.messageQueue && m.App? && m.number < c.submitted
  }

  /** The message reaches `_send` on the way from one state to the other. */
  predicate Leaves(c: Client, d: Client, m: Message) {
    LogCount(d.log, m) > LogCount(c.log, m)
  }

  predicate Stays(c: Client, d: Client, m: Message) {
    LogCount(d.log, m) == LogCount(c.log, m)
  }

  lemma {:induction false} CountIn(ms: seq<Message>, m: Message)
    ensures Count(ms, m) > 0 <==> m in ms
  {
    if ms != [] { CountIn(ms[1..], m); }
  }

  lemma {:induction false} SendCounts(c: Client, ms: seq<Message>, longpoll: bool, m: Message)
    ensures LogCount(SendMessages(c, ms, longpoll).log, m) == LogCount(c.log, m) + Count(ms, m)
  {
    SendBooks(c, ms, longpoll, m);
  }

  lemma {:induction false} SendOther(c: Client, own: Message, longpoll: bool, m: Message)
    requires own != m
    ensures Stays(c, SendMessages(c, [own], longpoll), m)
  {
    SendCounts(c, [own], longpoll, m);
    assert Count([own], m) == 0;
  }

  lemma {:induction false} FlushLeaves(c: Client, m: Message)
    ensures LogCount(FlushBatch(c).log, m) == LogCount(c.log, m) + Count(c.messageQueue, m)
  {
    if c.messageQueue != [] { SendCounts(c.(messageQueue := []), c.messageQueue, false, m); }
  }

  // ---------------------------------------------------------------- one call, one small step

  lemma {:induction false} HandshakeStart(c: Client, m: Message)
    requires m.App?
    ensures Stays(c, DoHandshake(c), m)
  {
    var c1 := if IsDisconnected(c) then c.(net := Reset(c.net)) else c;
    SendOther(c1.(batch := 0, internalBatch := true, status := Handshaking), Handshake, false, m);
  }

  lemma {:induction false} PerformGone(c: Client, act: Act, m: Message)
    requires Gone(c, m)
    ensures Gone(Perform(c, act), m) && Stays(c, Perform(c, act), m)
  {
    match act
    case Submit =>
      if c.batch <= 0 && !c.internalBatch {
        var c1 := c.(submitted := c.submitted + 1, overtaken := c.overtaken + HeldNumbers(c));
        SendOther(c1, App(c.submitted), false, m);
      }
    case StartBatch =>
    case EndBatch => EndBatchGone(c, m);
    case CallDisconnect => SendOther(c.(status := Disconnecting), Disconnect, false, m);
    case CallHandshake => HandshakeStart(c.(status := Disconnected), m);
  }

  lemma {:induction false} EndBatchGone(c: Client, m: Message)
    requires Gone(c, m)
    ensures Gone(DoEndBatch(c), m) && Stays(c, DoEndBatch(c), m)
  {
    var c1 := c.(batch := c.batch - 1, heldBack := if HoldsBack(c) then c.heldBack + 1 else c.heldBack);
    FlushLeaves(c1, m);
    CountIn(c.messageQueue, m);
  }

  /** What is gone does not come back. */
  lemma {:induction false} ApplyGone(c: Client, p: Prim, m: Message)
    requires Gone(c, m)
    ensures Gone(Apply(c, p), m) && Stays(c, Apply(c, p), m)
  {
    match p
    case Do(act) => PerformGone(c, act, m);
    case EndInternalBatch =>
      FlushLeaves(c.(internalBatch := false), m);
      CountIn(c.messageQueue, m);
    case _ =>
  }

  lemma {:induction false} ApplyAllGone(c: Client, ps: seq<Prim>, m: Message)
    requires Gone(c, m)
    ensures Gone(ApplyAll(c, ps), m) && Stays(c, ApplyAll(c, ps), m)
    decreases ps
  {
    if ps != [] {
      ApplyGone(c, ps[0], m);
      ApplyAllGone(Apply(c, ps[0]), ps[1..], m);
    }
  }

  // ---------------------------------------------------------------- any event

  /** The small step sends whatever is held. */
  predicate Flushes(c: Client, p: Prim) {
    p.EndInternalBatch? || (p == Do(EndBatch) && c.batch == 1 && !IsDisconnected(c) && !c.internalBatch)
  }

  /** One of the small steps does, and no `_disconnect` comes before it. */
  predicate SomeFlushes(c: Client, ps: seq<Prim>)
    decreases ps
  {
    ps != [] && !ps[0].Cut? && (Flushes(c, ps[0]) || SomeFlushes(Apply(c, ps[0]), ps[1..]))
  }

  lemma {:induction false} ApplyQueued(c: Client, p: Prim, m: Message)
    requires Queued(c, m)
    ensures var d := Apply(c, p);
            if Flushes(c, p) then Leaves(c, d, m) && Gone(d, m)
            else Stays(c, d, m) && if p.Cut? then Gone(d, m) else Queued(d, m)
  {
    CountIn(c.messageQueue, m);
    match p
    case Do(act) => PerformQueued(c, act, m);
    case EndInternalBatch => FlushLeaves(c.(internalBatch := false), m);
    case _ =>
  }

  lemma {:induction false} PerformQueued(c: Client, act: Act, m: Message)
    requires Queued(c, m)
    ensures var d := Perform(c, act);
            if Flushes(c, Do(act)) then Leaves(c, d, m) && Gone(d, m) else Stays(c, d, m) && Queued(d, m)
  {
    match act
    case Submit =>
      if c.batch <= 0 && !c.internalBatch {
        var c1 := c.(submitted := c.submitted + 1, overtaken := c.overtaken + HeldNumbers(c));
        SendOther(c1, App(c.submitted), false, m);
      }
    case StartBatch =>
    case EndBatch =>
      CountIn(c.messageQueue, m);
      FlushLeaves(c.(batch := c.batch - 1, heldBack := if HoldsBack(c) then c.heldBack + 1 else c.heldBack), m);
    case CallDisconnect => SendOther(c.(status := Disconnecting), Disconnect, false, m);
    case CallHandshake => HandshakeStart(c.(status := Disconnected), m);
  }

  /** Of all small steps, two send what is held: the end of the internal batch, whatever the user batch, and the end of
      the outermost user batch, unless the client is disconnected or in an internal batch. */
  lemma {:induction false} StepLeavesIff(c: Client, p: Prim, m: Message)
    requires Queued(c, m)
    ensures Leaves(c, Apply(c, p), m) <==>
            p.EndInternalBatch? ||
            (p == Do(EndBatch) && c.batch == 1 && !IsDisconnected(c) && !c.internalBatch)
  {
    ApplyQueued(c, p, m);
  }

  lemma {:induction false} ApplyAllLeavesIff(c: Client, ps: seq<Prim>, m: Message)
    requires Queued(c, m)
    ensures Leaves(c, ApplyAll(c, ps), m) <==> SomeFlushes(c, ps)
    decreases ps
  {
    if ps != [] {
      ApplyQueued(c, ps[0], m);
      if Queued(Apply(c, ps[0]), m) {
        ApplyAllLeavesIff(Apply(c, ps[0]), ps[1..], m);
      } else {
        ApplyAllGone(Apply(c, ps[0]), ps[1..], m);
      }
    }
  }

  /** Of all that the handlers and the listeners do in an event, step by step, something sends what is held. */
  predicate EventFlushes(c: Client, ev: Event) {
    SomeFlushes(Begun(c, ev), EventSteps(c, ev))
  }

  lemma {:induction false} FireLeavesNone(c: Client, i: nat, m: Message)
    requires Queued(c, m) && i < |c.timers|
    ensures Stays(c, OnFire(c, i), m)
  {
    var c1 := c.(timers := c.timers[..i] + c.timers[i + 1..]);
    HandshakeStart(c1, m);
    SendOther(c1.(status := Connecting), Connect, true, m);
  }

  /** Completing a request, and firing a timer, leave what is held alone. */
  lemma {:induction false} BegunQueued(c: Client, ev: Event, m: Message)
    requires Queued(c, m)
    ensures Stays(c, Begun(c, ev), m) && Queued(Begun(c, ev), m)
  {
    if ev.Fire? {
      if ev.i < |c.timers| { FireLeavesNone(c, ev.i, m); }
    } else {
      BegunFrame(c, ev);
    }
  }

  lemma {:induction false} AnyEventLeavesIff(c: Client, ev: Event, m: Message)
    requires Queued(c, m)
    ensures Leaves(c, Step(c, ev), m) <==> EventFlushes(c, ev)
  {
    BegunQueued(c, ev, m);
    EventPlan(c, ev);
    ApplyAllLeavesIff(Begun(c, ev), EventSteps(c, ev), m);
  }

  /** In every run and whatever the listeners do: a held message, in a batch or not, is sent by an event if and only if
      the end of the internal batch or of the outermost batch comes about in it, with no `_disconnect` before it. */
  lemma {:induction false} HeldTheorem(config: Config, evs: seq<Event>, ev: Event, m: Message)
    requires m in Run(Initialised(config), evs).messageQueue
    ensures var c := Run(Initialised(config), evs);
            LogCount(Step(c, ev).log, m) > LogCount(c.log, m) <==> EventFlushes(c, ev)
  {
    var c := Run(Initialised(config), evs);
    RunBooks(config, evs, m);
    CountIn(c.messageQueue, m);
    AnyEventLeavesIff(c, ev, m);
  }

  // ---------------------------------------------------------------- replies, while no listener ends a batch

  lemma {:induction false} ListenersQueued(c: Client, acts: seq<Act>, m: Message)
    requires Queued(c, m) && EndBatch !in acts
    ensures Queued(Listeners(c, acts), m) && Stays(c, Listeners(c, acts), m)
    decreases acts
  {
    if acts != [] {
      assert acts[0] in acts && EndBatch !in acts[1..];
      PerformQueued(c, acts[0], m);
      ListenersQueued(Perform(c, acts[0]), acts[1..], m);
    }
  }

  predicate Quiet(rs: seq<Reply>) {
    forall i :: 0 <= i < |rs| ==> EndBatch !in rs[i].acts
  }

  /** A successful connect reply is processed before any disconnect reply and before any reply that throws. */
  predicate Connects(rs: seq<Reply>) {
    rs != [] && !Negotiation(rs[0]) && rs[0].kind != DisconnectReply &&
    ((rs[0].kind == ConnectReply && rs[0].successful) || Connects(rs[1..]))
  }

  function Learned(c: Client, r: Reply): Client {
    if r.advice.Some? then c.(advice := r.advice.value) else c
  }

  lemma {:induction false} ConnectLeaves(c: Client, action: Reconnect, acts: seq<Act>, m: Message)
    requires Queued(c, m)
    ensures Leaves(c, ConnectSucceeded(c, action, acts), m) && Gone(ConnectSucceeded(c, action, acts), m)
  {
    var c1 := c.(internalBatch := false);
    FlushLeaves(c1, m);
    CountIn(c.messageQueue, m);
    var ps := ListenersPlan(FlushBatch(c1), acts);
    ApplyAllGone(FlushBatch(c1), ps, m);
  }

  /** Delays and status changes leave held messages alone. */
  lemma {:induction false} HandshakeStays(c: Client, acts: seq<Act>, m: Message)
    requires Queued(c, m) && EndBatch !in acts
    ensures Queued(HandshakeFailed(c, acts), m) && Stays(c, HandshakeFailed(c, acts), m)
    ensures Queued(HandshakeSucceeded(c, acts), m) && Stays(c, HandshakeSucceeded(c, acts), m)
  {
    ListenersQueued(c, acts, m);
    ListenersQueued(c.(status := Disconnected), acts, m);
  }

  lemma {:induction false} ConnectStays(c: Client, acts: seq<Act>, m: Message)
    requires Queued(c, m) && EndBatch !in acts
    ensures Queued(ConnectRefused(ConnectStatus(c), ConnectAction(c), acts), m)
    ensures Stays(c, ConnectRefused(ConnectStatus(c), ConnectAction(c), acts), m)
  {
    ListenersQueued(ConnectStatus(c), acts, m);
  }

  lemma {:induction false} ConnectFailedStays(c: Client, acts: seq<Act>, m: Message)
    requires Queued(c, m) && EndBatch !in acts
    ensures Queued(ConnectFailed(c, acts), m) && Stays(c, ConnectFailed(c, acts), m)
  {
    ListenersQueued(c, acts, m);
  }

  lemma {:induction false} DisconnectionGone(c: Client, abort: bool, acts: seq<Act>, m: Message)
    requires Queued(c, m)
    ensures var d := Listeners(Disconnection(c, abort), acts); Gone(d, m) && Stays(c, d, m)
  {
    var ps := ListenersPlan(Disconnection(c, abort), acts);
    ApplyAllGone(Disconnection(c, abort), ps, m);
  }

  lemma {:induction false} ReceiveLeaves(c: Client, r: Reply, m: Message)
    requires Queued(c, m) && EndBatch !in r.acts
    ensures r.kind == ConnectReply && r.successful ==> Leaves(c, Receive(c, r), m) && Gone(Receive(c, r), m)
    ensures r.kind == DisconnectReply ==> Stays(c, Receive(c, r), m) && Gone(Receive(c, r), m)
    ensures r.kind != DisconnectReply && !(r.kind == ConnectReply && r.successful) ==>
              Stays(c, Receive(c, r), m) && Queued(Receive(c, r), m)
  {
    var c1 := Learned(c, r);
    match r.kind {
      case HandshakeReply => HandshakeStays(c1, r.acts, m);
      case ConnectReply =>
        if r.successful {
          ConnectLeaves(ConnectStatus(c1), ConnectAction(c1), r.acts, m);
        } else {
          ConnectStays(c1, r.acts, m);
        }
      case DisconnectReply => DisconnectionGone(c1, !r.successful, r.acts, m);
      case OtherReply => ListenersQueued(c1, r.acts, m);
    }
  }

  lemma {:induction false} RepliesGone(c: Client, rs: seq<Reply>, m: Message)
    requires Gone(c, m)
    ensures Gone(Replies(c, rs), m) && Stays(c, Replies(c, rs), m)
  {
    var ps := RepliesPlan(c, rs);
    ApplyAllGone(c, ps, m);
  }

  lemma {:induction false} RepliesLeaveIff(c: Client, rs: seq<Reply>, m: Message)
    requires Queued(c, m) && Quiet(rs)
    ensures Leaves(c, Replies(c, rs), m) <==> Connects(rs)
    ensures !Connects(rs) ==> Stays(c, Replies(c, rs), m)
    decreases rs
  {
    if rs != [] {
      ReceiveLeaves(c, rs[0], m);
      assert Quiet(rs[1..]);
      if !Negotiation(rs[0]) {
        if Gone(Receive(c, rs[0]), m) {
          RepliesGone(Receive(c, rs[0]), rs[1..], m);
        } else {
          RepliesLeaveIff(Receive(c, rs[0]), rs[1..], m);
        }
      }
    }
  }

  // ---------------------------------------------------------------- failures

  predicate QuietActs(acts: seq<seq<Act>>) {
    forall i :: 0 <= i < |acts| ==> EndBatch !in acts[i]
  }

  lemma {:induction false} FailMessageStays(c: Client, own: Message, acts: seq<Act>, m: Message)
    requires Queued(c, m) && EndBatch !in acts
    ensures Stays(c, FailMessage(c, own, acts), m)
    ensures Queued(FailMessage(c, own, acts), m) || Gone(FailMessage(c, own, acts), m)
  {
    match own
    case Handshake => HandshakeStays(c, acts, m);
    case Connect => ConnectFailedStays(c, acts, m);
    case Disconnect => DisconnectionGone(c, true, acts, m);
    case App(_) => ListenersQueued(c, acts, m);
  }

  lemma {:induction false} FailMessagesStays(c: Client, ms: seq<Message>, acts: seq<seq<Act>>, m: Message)
    requires Queued(c, m) && QuietActs(acts)
    ensures Stays(c, FailMessages(c, ms, acts), m)
    decreases ms
  {
    if ms != [] {
      var now, later := if acts == [] then [] else acts[0], if acts == [] then [] else acts[1..];
      var d := FailMessage(c, ms[0], now);
      FailMessageStays(c, ms[0], now, m);
      if Queued(d, m) {
        FailMessagesStays(d, ms[1..], later, m);
      } else {
        var ps := FailMessagesPlan(d, ms[1..], later);
        ApplyAllGone(d, ps, m);
      }
    }
  }

  // ---------------------------------------------------------------- events

  /** No listener ends a batch in the middle of the event. */
  predicate QuietEvent(ev: Event) {
    match ev
    case Response(k, rs) => Quiet(rs)
    case NetFailure(k, acts) => QuietActs(acts)
    case Timeout(k, acts) => QuietActs(acts)
    case FailTask(j, acts) => QuietActs(acts)
    case _ => true
  }

  /** What a caller can check before an event: whether it sends what is held in a batch. */
  predicate Sends(c: Client, ev: Event) {
    match ev
    case Response(_, rs) => CallsBack(c, ev) && Connects(rs)
    case User(act) => act == EndBatch && c.batch == 1 && !IsDisconnected(c) && !c.internalBatch
    case _ => false
  }

  lemma {:induction false} EventLeavesIff(c: Client, ev: Event, m: Message)
    requires Queued(c, m) && QuietEvent(ev)
    ensures Leaves(c, Step(c, ev), m) <==> Sends(c, ev)
  {
    var d := Begun(c, ev);
    BegunQueued(c, ev, m);
    if CallsBack(c, ev) {
      match ev
      case Response(_, rs) => RepliesLeaveIff(d, rs, m);
      case NetFailure(k, acts) => FailMessagesStays(d, c.net.sent[k].job.envelope, acts, m);
      case Timeout(k, acts) => FailMessagesStays(d, c.net.sent[k].job.envelope, acts, m);
      case FailTask(j, acts) => FailMessagesStays(d, c.net.doomed[j].envelope, acts, m);
      case User(act) => PerformQueued(c, act, m);
    }
  }

  /** In every run, a held message is sent by an event in which no listener ends a batch if and only if the event
      ends the outermost batch of a client that is connected, or is a response with a successful connect reply,
      whatever the batch. */
  lemma {:induction false} FlushTheorem(config: Config, evs: seq<Event>, ev: Event, m: Message)
    requires m in Run(Initialised(config), evs).messageQueue
    requires QuietEvent(ev)
    ensures var c := Run(Initialised(config), evs);
            LogCount(Step(c, ev).log, m) > LogCount(c.log, m) <==> Sends(c, ev)
  {
    var c := Run(Initialised(config), evs);
    RunBooks(config, evs, m);
    CountIn(c.messageQueue, m);
    EventLeavesIff(c, ev, m);
  }
}
