/** Once the client has disconnected with no handshake outstanding it stays so until `handshake()` is called. */
module Disconnections {
  import opened Scheduler
  import opened Bayeux
  import opened ClientSteps
  import S = SchedulerRuns
  import Slots = SchedulerSlots
  import N = ClientNet
  import B = ClientRuns
  import D = SingleDriver
  import T = ClientTimers

  predicate HasHandshake(e: Envelope) {
    Handshake in e
  }

  /** Handshakes the browser still owes a callback for. */
  function InFlight(n: Net<Envelope>): nat {
    S.Armed(n.sent, HasHandshake)
  }

  /** Handshakes in the waiting queue. */
  function Waiting(n: Net<Envelope>): nat {
    S.Occurs(n.envelopes, HasHandshake)
  }

  /** Every ordinary slot is held by a request that no callback will ever complete. */
  ghost predicate Leaked(c: Client) {
    Slots.Leaked(c.config.maxConnections, c.net)
  }

  /** Disconnected, with nothing scheduled, and with no handshake that could still get an answer. */
  ghost predicate Absorbing(c: Client) {
    && c.status == Disconnected && c.timers == [] && D.AppQueue(c)
    && InFlight(c.net) == 0 && (Waiting(c.net) == 0 || Leaked(c))
  }

  // ---------------------------------------------------------------- small steps

  lemma {:induction false} QueueSendNoMore(maxConnections: int, n: Net<Envelope>, e: Envelope)
    requires !HasHandshake(e)
    ensures var m := QueueSend(maxConnections, n, e); InFlight(m) == InFlight(n) && Waiting(m) == Waiting(n)
  {
    var request := Request(n.requestIds + 1, false);
    S.ArmedAppend(n.sent, Sent(Job(e, request), true, false, true), HasHandshake);
    S.OccursAppend(n.envelopes, Job(e, request), HasHandshake);
  }

  lemma {:induction false} QueueSendAbsorbing(maxConnections: int, n: Net<Envelope>, e: Envelope)
    requires InFlight(n) == 0 && (Waiting(n) == 0 || Slots.Leaked(maxConnections, n)) && !HasHandshake(e)
    ensures var m := QueueSend(maxConnections, n, e);
            InFlight(m) == 0 && (Waiting(m) == 0 || Slots.Leaked(maxConnections, m))
  {
    QueueSendNoMore(maxConnections, n, e);
  }

  lemma {:induction false} SendAbsorbing(c: Client, ms: seq<Message>)
    requires Absorbing(c) && !HasHandshake(ms)
    ensures Absorbing(SendMessages(c, ms, false))
  {
    QueueSendAbsorbing(c.config.maxConnections, c.net.(submitted := c.net.submitted + [ms]), ms);
  }

  lemma {:induction false} FlushAbsorbing(c: Client)
    requires Absorbing(c)
    ensures Absorbing(FlushBatch(c))
  {
    if c.messageQueue != [] { SendAbsorbing(c.(messageQueue := []), c.messageQueue); }
  }

  lemma {:induction false} PerformAbsorbing(c: Client, act: Act)
    requires act != CallHandshake
    requires Absorbing(c)
    ensures Absorbing(Perform(c, act))
  {
    if act == Submit && c.batch <= 0 && !c.internalBatch {
      SendAbsorbing(c.(submitted := c.submitted + 1, overtaken := c.overtaken + HeldNumbers(c)), [App(c.submitted)]);
    }
  }

  lemma {:induction false} ListenersAbsorbing(c: Client, acts: seq<Act>)
    requires CallHandshake !in acts
    requires Absorbing(c)
    ensures Absorbing(Listeners(c, acts))
    decreases acts
  {
    if acts != [] {
      PerformAbsorbing(c, acts[0]);
      ListenersAbsorbing(Perform(c, acts[0]), acts[1..]);
    }
  }

  lemma {:induction false} CutAbsorbing(c: Client, abort: bool, acts: seq<Act>)
    requires CallHandshake !in acts
    requires Absorbing(c)
    ensures Absorbing(Listeners(Disconnection(c, abort), acts))
  {
    D.CancelEmpties(c);
    ListenersAbsorbing(Disconnection(c, abort), acts);
  }

  lemma {:induction false} ReceiveAbsorbing(c: Client, r: Reply)
    requires CallHandshake !in r.acts
    requires Absorbing(c) && r.kind != HandshakeReply
    ensures Absorbing(Receive(c, r))
  {
    var c1 := if r.advice.Some? then c.(advice := r.advice.value) else c;
    match r.kind {
      case ConnectReply =>
        if r.successful {
          FlushAbsorbing(c1.(internalBatch := false));
          ListenersAbsorbing(FlushBatch(c1.(internalBatch := false)), r.acts);
        } else {
          ListenersAbsorbing(c1, r.acts);
        }
      case DisconnectReply => CutAbsorbing(c1, !r.successful, r.acts);
      case OtherReply => ListenersAbsorbing(c1, r.acts);
    }
  }

  lemma {:induction false} RepliesAbsorbing(c: Client, rs: seq<Reply>)
    requires QuietReplies(rs)
    requires Absorbing(c) && forall r :: r in rs ==> r.kind != HandshakeReply
    ensures Absorbing(Replies(c, rs))
    decreases rs
  {
    if rs != [] {
      ReceiveAbsorbing(c, rs[0]);
      RepliesAbsorbing(Receive(c, rs[0]), rs[1..]);
    }
  }

  /** A handshake that fails looks at the status, so a doomed one changes nothing. */
  lemma {:induction false} FailMessageAbsorbing(c: Client, m: Message, acts: seq<Act>)
    requires CallHandshake !in acts
    requires Absorbing(c)
    ensures Absorbing(FailMessage(c, m, acts))
  {
    ListenersAbsorbing(c, acts);
    if m == Disconnect { CutAbsorbing(c, true, acts); }
    if m == Handshake { assert c.(status := Disconnected) == c; }
  }

  lemma {:induction false} FailMessagesAbsorbing(c: Client, ms: seq<Message>, acts: seq<seq<Act>>)
    requires NoHandshakes(acts)
    requires Absorbing(c)
    ensures Absorbing(FailMessages(c, ms, acts))
    decreases ms
  {
    if ms != [] {
      var now, later := if acts == [] then [] else acts[0], if acts == [] then [] else acts[1..];
      FailMessageAbsorbing(c, ms[0], now);
      FailMessagesAbsorbing(FailMessage(c, ms[0], now), ms[1..], later);
    }
  }

  // ---------------------------------------------------------------- completions

  lemma {:induction false} CompleteAbsorbing(maxConnections: int, n: Net<Envelope>, request: Request, success: bool)
    requires InFlight(n) == 0 && Waiting(n) == 0
    ensures var m := Complete(maxConnections, n, request, success); InFlight(m) == 0 && Waiting(m) == 0
  {
    if n.envelopes != [] {
      S.OccursHead(n.envelopes, HasHandshake);
      var rest := n.(requests := Without(n.requests, request), envelopes := n.envelopes[1..]);
      QueueSendNoMore(maxConnections, rest, n.envelopes[0].envelope);
    }
  }

  lemma {:induction false} TurnAbsorbing(maxConnections: int, n: Net<Envelope>, request: Request, success: bool)
    requires InFlight(n) == 0 && Slots.Leaked(maxConnections, n) && request !in n.requests
    ensures var m := S.Completion(maxConnections, n, request, success);
            InFlight(m) == 0 && Slots.Leaked(maxConnections, m)
  {
    Slots.LeakedComplete(maxConnections, n, request, success);
  }

  lemma {:induction false} CompletedAbsorbing(c: Client, request: Request, success: bool)
    requires Absorbing(c) && (Waiting(c.net) == 0 || request !in c.net.requests)
    ensures Absorbing(Completed(c, request, success))
  {
    if Waiting(c.net) == 0 {
      CompleteAbsorbing(c.config.maxConnections, c.net, request, success);
    } else {
      TurnAbsorbing(c.config.maxConnections, c.net, request, success);
    }
  }

  // ---------------------------------------------------------------- events

  /** Anything but a call of `handshake()`, be it by a listener; handshake replies only come in the response to a
      handshake. */
  predicate Permitted(c: Client, ev: Event) {
    NoHandshake(ev) &&
    (ev.Response? && ev.k < |c.net.sent| && !HasHandshake(c.net.sent[ev.k].job.envelope) ==>
       forall r :: r in ev.replies ==> r.kind != HandshakeReply)
  }

  predicate PermittedRun(c: Client, evs: seq<Event>)
    decreases evs
  {
    evs != [] ==> PermittedRun(c, evs[..|evs| - 1]) && Permitted(Run(c, evs[..|evs| - 1]), evs[|evs| - 1])
  }

  /** A callback for request `k`, which `n` has recorded, leaves the other requests as they were. */
  lemma {:induction false} CallbackAbsorbing(c: Client, k: nat, n: Net<Envelope>)
    requires Absorbing(c) && k < |c.net.sent| && |n.sent| == |c.net.sent|
    requires n == c.net.(sent := c.net.sent[k := n.sent[k]], finished := n.finished)
    requires n.sent[k].job == c.net.sent[k].job && (n.sent[k].timer ==> c.net.sent[k].timer)
    ensures Absorbing(WithNet(c, n))
    ensures c.net.sent[k].timer ==>
              !HasHandshake(c.net.sent[k].job.envelope) &&
              (Waiting(n) == 0 || c.net.sent[k].job.request !in n.requests)
  {
    S.ArmedUpdate(c.net.sent, k, n.sent[k], HasHandshake);
    if c.net.sent[k].timer && HasHandshake(c.net.sent[k].job.envelope) {
      S.ArmedUpdate(c.net.sent, k, c.net.sent[k].(timer := false), HasHandshake);
    }
    Slots.LeakedUpdate(c.net, k, n.sent[k]);
    if c.net.sent[k].timer { assert Slots.OwedFor(c.net.sent, c.net.sent[k].job.request); }
  }

  lemma {:induction false} ResponseAbsorbing(c: Client, k: nat, rs: seq<Reply>)
    requires Absorbing(c) && N.Sound(c) && k < |c.net.sent| && Permitted(c, Response(k, rs))
    ensures Absorbing(OnResponse(c, k, rs))
  {
    CallbackAbsorbing(c, k, Report(c.net, k));
    if Reports(c.net, k) {
      var c1, request := WithNet(c, Report(c.net, k)), c.net.sent[k].job.request;
      CompletedAbsorbing(c1, request, true);
      RepliesAbsorbing(Completed(c1, request, true), rs);
    }
  }

  /** The callback for request `k`, which `n` has recorded, fails its envelope. */
  lemma {:induction false} FailureAbsorbing(c: Client, k: nat, n: Net<Envelope>, acts: seq<seq<Act>>)
    requires NoHandshakes(acts)
    requires Absorbing(c) && k < |c.net.sent| && c.net.sent[k].timer && |n.sent| == |c.net.sent|
    requires n == c.net.(sent := c.net.sent[k := n.sent[k]], finished := n.finished)
    requires n.sent[k].job == c.net.sent[k].job
    ensures Absorbing(HandleFailure(WithNet(c, n), c.net.sent[k].job, acts))
  {
    CallbackAbsorbing(c, k, n);
    var job := c.net.sent[k].job;
    CompletedAbsorbing(WithNet(c, n), job.request, false);
    FailMessagesAbsorbing(Completed(WithNet(c, n), job.request, false), job.envelope, acts);
  }

  lemma {:induction false} FailTaskAbsorbing(c: Client, j: nat, acts: seq<seq<Act>>)
    requires NoHandshakes(acts)
    requires Absorbing(c) && N.Sound(c) && j < |c.net.doomed|
    ensures Absorbing(OnFailTask(c, j, acts))
  {
    var c1, job := WithNet(c, Doom(c.net, j)), c.net.doomed[j];
    CompletedAbsorbing(c1, job.request, false);
    FailMessagesAbsorbing(Completed(c1, job.request, false), job.envelope, acts);
  }

  lemma {:induction false} StepAbsorbing(c: Client, ev: Event)
    requires Absorbing(c) && N.Sound(c) && Permitted(c, ev)
    ensures Absorbing(Step(c, ev))
  {
    match ev
    case Response(k, rs) => if k < |c.net.sent| { ResponseAbsorbing(c, k, rs); }
    case Unreadable(k) => if k < |c.net.sent| { CallbackAbsorbing(c, k, Report(c.net, k)); }
    case NetFailure(k, acts) =>
      if k < |c.net.sent| {
        CallbackAbsorbing(c, k, Report(c.net, k));
        if Reports(c.net, k) { FailureAbsorbing(c, k, Report(c.net, k), acts); }
      }
    case Timeout(k, acts) =>
      if k < |c.net.sent| && c.net.sent[k].timer { FailureAbsorbing(c, k, Expire(c.net, k), acts); }
    case FailTask(j, acts) => if j < |c.net.doomed| { FailTaskAbsorbing(c, j, acts); }
    case Fire(i) =>
    case User(act) => PerformAbsorbing(c, act);
  }

  lemma {:induction false} RunAbsorbing(config: Config, evs: seq<Event>, more: seq<Event>)
    requires Absorbing(Run(Initialised(config), evs)) && PermittedRun(Run(Initialised(config), evs), more)
    ensures Absorbing(Run(Run(Initialised(config), evs), more))
    decreases more
  {
    if more != [] {
      var c := Run(Initialised(config), evs);
      RunAbsorbing(config, evs, more[..|more| - 1]);
      B.RunSplit(Initialised(config), evs, more[..|more| - 1]);
      N.RunSound(config, evs + more[..|more| - 1]);
      StepAbsorbing(Run(c, more[..|more| - 1]), more[|more| - 1]);
    }
  }

  // ---------------------------------------------------------------- how a disconnection gets there

  /** No handshake is in flight, and the only timer is the one that a disconnection cancels. */
  predicate Cuttable(c: Client) {
    InFlight(c.net) == 0 && D.OneTimer(c) && D.AppQueue(c)
  }

  /** Nothing in the middle of an event hands a handshake to the transport. */
  predicate NoMore(c: Client, d: Client) {
    Cuttable(d) && Waiting(d.net) <= Waiting(c.net)
  }

  lemma {:induction false} DisconnectionAbsorbs(c: Client, abort: bool)
    requires Cuttable(c) && (abort || Waiting(c.net) == 0)
    ensures Absorbing(Disconnection(c, abort))
  {
    D.CancelEmpties(c);
  }

  lemma {:induction false} SendNoMore(c: Client, ms: seq<Message>)
    requires Cuttable(c) && !HasHandshake(ms)
    ensures NoMore(c, SendMessages(c, ms, false))
  {
    QueueSendNoMore(c.config.maxConnections, c.net.(submitted := c.net.submitted + [ms]), ms);
  }

  lemma {:induction false} FlushNoMore(c: Client)
    requires Cuttable(c)
    ensures NoMore(c, FlushBatch(c))
  {
    if c.messageQueue != [] { SendNoMore(c.(messageQueue := []), c.messageQueue); }
  }

  lemma {:induction false} PerformNoMore(c: Client, act: Act)
    requires act != CallHandshake
    requires Cuttable(c)
    ensures NoMore(c, Perform(c, act))
  {
    match act
    case Submit =>
      if c.batch <= 0 && !c.internalBatch {
        SendNoMore(c.(submitted := c.submitted + 1, overtaken := c.overtaken + HeldNumbers(c)), [App(c.submitted)]);
      }
    case StartBatch =>
    case EndBatch =>
      FlushNoMore(c.(batch := c.batch - 1, heldBack := if HoldsBack(c) then c.heldBack + 1 else c.heldBack));
    case CallDisconnect => SendNoMore(c.(status := Disconnecting), [Disconnect]);
  }

  lemma {:induction false} ApplyNoMore(c: Client, p: Prim)
    requires p != Do(CallHandshake)
    requires Cuttable(c)
    ensures NoMore(c, Apply(c, p))
  {
    match p
    case Do(act) => PerformNoMore(c, act);
    case EndInternalBatch => FlushNoMore(c.(internalBatch := false));
    case Delay(operation) => D.CancelEmpties(c);
    case Cut(abort) => D.CancelEmpties(c);
    case _ =>
  }

  lemma {:induction false} ApplyAllNoMore(c: Client, ps: seq<Prim>)
    requires Do(CallHandshake) !in ps
    requires Cuttable(c)
    ensures NoMore(c, ApplyAll(c, ps))
    decreases ps
  {
    if ps != [] {
      ApplyNoMore(c, ps[0]);
      ApplyAllNoMore(Apply(c, ps[0]), ps[1..]);
    }
  }

  /** A disconnect reply is processed before any reply that throws. */
  predicate Disconnects(rs: seq<Reply>) {
    rs != [] && (rs[0].kind == DisconnectReply || (!Negotiation(rs[0]) && Disconnects(rs[1..])))
  }

  lemma {:induction false} RepliesDisconnect(c: Client, rs: seq<Reply>)
    requires QuietReplies(rs)
    requires Cuttable(c) && Waiting(c.net) == 0
    requires Disconnects(rs) && forall r :: r in rs ==> r.kind != HandshakeReply
    ensures Absorbing(Replies(c, rs))
    decreases rs
  {
    var r := rs[0];
    assert forall x :: x in rs[1..] ==> x in rs;
    if r.kind == DisconnectReply {
      var c1 := if r.advice.Some? then c.(advice := r.advice.value) else c;
      DisconnectionAbsorbs(c1, !r.successful);
      ListenersAbsorbing(Disconnection(c1, !r.successful), r.acts);
      RepliesAbsorbing(Receive(c, r), rs[1..]);
    } else {
      var ps := ReceivePlan(c, r);
      ApplyAllNoMore(c, ps);
      RepliesDisconnect(Receive(c, r), rs[1..]);
    }
  }

  /** The failure of a disconnect aborts the transport, so handshakes that wait do not matter. */
  lemma {:induction false} FailMessagesDisconnect(c: Client, ms: seq<Message>, acts: seq<seq<Act>>)
    requires NoHandshakes(acts)
    requires Cuttable(c) && Disconnect in ms
    ensures Absorbing(FailMessages(c, ms, acts))
    decreases ms
  {
    var now, later := if acts == [] then [] else acts[0], if acts == [] then [] else acts[1..];
    if ms[0] == Disconnect {
      DisconnectionAbsorbs(c, true);
      ListenersAbsorbing(Disconnection(c, true), now);
      FailMessagesAbsorbing(FailMessage(c, ms[0], now), ms[1..], later);
    } else {
      assert ms == [ms[0]] + ms[1..];
      var ps := FailMessagePlan(c, ms[0], now);
      ApplyAllNoMore(c, ps);
      FailMessagesDisconnect(FailMessage(c, ms[0], now), ms[1..], later);
    }
  }

  /** What a caller can check before an event: it runs `_disconnect`, and leaves no waiting handshake behind. */
  predicate Cuts(c: Client, ev: Event) {
    match ev
    case Response(k, rs) =>
      k < |c.net.sent| && Reports(c.net, k) && !Mismatch(c, c.net.sent[k].job.request) &&
      Disconnects(rs) && Waiting(c.net) == 0
    case NetFailure(k, acts) =>
      k < |c.net.sent| && Reports(c.net, k) && !Mismatch(c, c.net.sent[k].job.request) &&
      Disconnect in c.net.sent[k].job.envelope
    case Timeout(k, acts) =>
      k < |c.net.sent| && c.net.sent[k].timer && !Mismatch(c, c.net.sent[k].job.request) &&
      Disconnect in c.net.sent[k].job.envelope
    case FailTask(j, acts) => j < |c.net.doomed| && Disconnect in c.net.doomed[j].envelope
    case _ => false
  }

  lemma {:induction false} ResponseCuts(c: Client, k: nat, rs: seq<Reply>)
    requires Cuttable(c) && N.Sound(c) && Permitted(c, Response(k, rs)) && Cuts(c, Response(k, rs))
    ensures Absorbing(OnResponse(c, k, rs))
  {
    var n, request := Report(c.net, k), c.net.sent[k].job.request;
    S.ArmedUpdate(c.net.sent, k, n.sent[k], HasHandshake);
    if !request.longpoll { CompleteAbsorbing(c.config.maxConnections, n, request, true); }
    RepliesDisconnect(Completed(WithNet(c, n), request, true), rs);
  }

  lemma {:induction false} FailureCuts(c: Client, n: Net<Envelope>, job: Job<Envelope>, acts: seq<seq<Act>>)
    requires NoHandshakes(acts)
    requires Cuttable(WithNet(c, n)) && !Mismatch(WithNet(c, n), job.request) && Disconnect in job.envelope
    ensures Absorbing(HandleFailure(WithNet(c, n), job, acts))
  {
    FailMessagesDisconnect(Completed(WithNet(c, n), job.request, false), job.envelope, acts);
  }

  lemma {:induction false} CutAbsorbs(c: Client, ev: Event)
    requires Cuttable(c) && N.Sound(c) && Permitted(c, ev) && Cuts(c, ev)
    ensures Absorbing(Step(c, ev))
  {
    match ev
    case Response(k, rs) => ResponseCuts(c, k, rs);
    case NetFailure(k, acts) =>
      S.ArmedUpdate(c.net.sent, k, Report(c.net, k).sent[k], HasHandshake);
      FailureCuts(c, Report(c.net, k), c.net.sent[k].job, acts);
    case Timeout(k, acts) =>
      S.ArmedUpdate(c.net.sent, k, Expire(c.net, k).sent[k], HasHandshake);
      FailureCuts(c, Expire(c.net, k), c.net.sent[k].job, acts);
    case FailTask(j, acts) => FailureCuts(c, Doom(c.net, j), c.net.doomed[j], acts);
  }

  // ---------------------------------------------------------------- the theorems

  /** In every run, an event that runs `_disconnect`, be it a response with a disconnect reply or the failure of a
      disconnect, with no handshake in flight (and none waiting, unless the transport is aborted) leaves the client
      disconnected with nothing scheduled; and until `handshake()` is called it stays so, whatever else the network, the
      server, the listeners and the application do. */
  lemma {:induction false} DisconnectTheorem(config: Config, evs: seq<Event>, ev: Event, more: seq<Event>)
    requires var c := Run(Initialised(config), evs); InFlight(c.net) == 0 && Permitted(c, ev) && Cuts(c, ev)
    requires PermittedRun(Run(Initialised(config), evs + [ev]), more)
    ensures var d := Run(Initialised(config), evs + [ev] + more); d.status == Disconnected && d.timers == []
  {
    var c := Run(Initialised(config), evs);
    T.RunTimed(config, evs);
    B.RunBooks(config, evs, Connect);
    N.RunSound(config, evs);
    CutAbsorbs(c, ev);
    B.RunSnoc(Initialised(config), evs, ev);
    RunAbsorbing(config, evs + [ev], more);
    B.RunSplit(Initialised(config), evs + [ev], more);
  }
}
