/** Every handler of the client is a sequence of small steps; what each small step keeps, every handler keeps. */
module ClientSteps {
  import opened Scheduler
  import opened Bayeux

  datatype Prim =
    | Do(act: Act)
    | Learn(advice: Advice)
    | Become(status: Status)
    | ClearBackoff
    | RaiseBackoff
    | EndInternalBatch
    | Delay(operation: Operation)
    | Cut(abort: bool)

  function Apply(c: Client, p: Prim): Client {
    match p
    case Do(act) => Perform(c, act)
    case Learn(advice) => c.(advice := advice)
    case Become(status) => c.(status := status)
    case ClearBackoff => c.(backoff := 0)
    case RaiseBackoff => IncreaseBackoff(c)
    case EndInternalBatch => FlushBatch(c.(internalBatch := false))
    case Delay(operation) => if operation == SendConnect then DelayedConnect(c) else DelayedHandshake(c)
    case Cut(abort) => Disconnection(c, abort)
  }

  function ApplyAll(c: Client, ps: seq<Prim>): Client
    decreases ps
  {
    if ps == [] then c else ApplyAll(Apply(c, ps[0]), ps[1..])
  }

  /** The steps that neither start anything nor touch the status other than by `_disconnect`. */
  predicate Passive(p: Prim) {
    (p.Do? && p.act != CallHandshake) || p.Learn? || p.Cut?
  }

  predicate AllPassive(ps: seq<Prim>) {
    forall p :: p in ps ==> Passive(p)
  }

  lemma {:induction false} ApplyConcat(c: Client, ps: seq<Prim>, qs: seq<Prim>)
    ensures ApplyAll(c, ps + qs) == ApplyAll(ApplyAll(c, ps), qs)
    decreases ps
  {
    if ps == [] {
      assert ps + qs == qs;
    } else {
      assert (ps + qs)[1..] == ps[1..] + qs;
      ApplyConcat(Apply(c, ps[0]), ps[1..], qs);
    }
  }

  lemma {:induction false} ApplyOne(c: Client, p: Prim)
    ensures ApplyAll(c, [p]) == Apply(c, p)
  {
  }

  // ---------------------------------------------------------------- the steps of each handler

  function Calls(acts: seq<Act>): seq<Prim> {
    if acts == [] then [] else [Do(acts[0])] + Calls(acts[1..])
  }

  function HandshakeFailedSteps(c: Client, acts: seq<Act>): seq<Prim> {
    if !IsDisconnected(c) && c.advice.reconnect != Never then Calls(acts) + [RaiseBackoff] + [Delay(SendHandshake)]
    else [Become(Disconnected)] + Calls(acts)
  }

  function HandshakeSucceededSteps(c: Client, acts: seq<Act>): seq<Prim> {
    Calls(acts) + if Action(Listeners(c, acts).advice) == Retry then [Delay(SendConnect)] else []
  }

  function ConnectSucceededSteps(action: Reconnect, acts: seq<Act>): seq<Prim> {
    [EndInternalBatch] + Calls(acts) + [ClearBackoff] +
    [if action == Retry then Delay(SendConnect) else Become(Disconnected)]
  }

  function ConnectRefusedSteps(action: Reconnect, acts: seq<Act>): seq<Prim> {
    match action
    case Retry => Calls(acts) + [RaiseBackoff] + [Delay(SendConnect)]
    case Rehandshake => Calls(acts) + [ClearBackoff] + [Delay(SendHandshake)]
    case Never => Calls(acts) + [ClearBackoff] + [Become(Disconnected)]
    case _ => Calls(acts)
  }

  function ConnectResponseSteps(c: Client, successful: bool, acts: seq<Act>): seq<Prim> {
    [Become(ConnectStatus(c).status)] +
    if successful then ConnectSucceededSteps(ConnectAction(c), acts) else ConnectRefusedSteps(ConnectAction(c), acts)
  }

  function ConnectFailedSteps(c: Client, acts: seq<Act>): seq<Prim> {
    if IsDisconnected(Listeners(c, acts)) then Calls(acts)
    else
      match Action(Listeners(c, acts).advice)
      case Retry => Calls(acts) + [RaiseBackoff] + [Delay(SendConnect)]
      case Rehandshake => Calls(acts) + [ClearBackoff] + [Delay(SendHandshake)]
      case Never => Calls(acts) + [ClearBackoff]
      case _ => Calls(acts)
  }

  function ReceiveSteps(c: Client, r: Reply): seq<Prim> {
    var learn, c1 := if r.advice.Some? then [Learn(r.advice.value)] else [],
                     if r.advice.Some? then c.(advice := r.advice.value) else c;
    learn +
    match r.kind
    case HandshakeReply =>
      if !r.successful then HandshakeFailedSteps(c1, r.acts)
      else if r.negotiated then HandshakeSucceededSteps(c1, r.acts)
      else []
    case ConnectReply => ConnectResponseSteps(c1, r.successful, r.acts)
    case DisconnectReply => [Cut(!r.successful)] + Calls(r.acts)
    case OtherReply => Calls(r.acts)
  }

  function RepliesSteps(c: Client, rs: seq<Reply>): seq<Prim>
    decreases rs
  {
    if rs == [] then []
    else ReceiveSteps(c, rs[0]) + if Negotiation(rs[0]) then [] else RepliesSteps(Receive(c, rs[0]), rs[1..])
  }

  function FailMessageSteps(c: Client, m: Message, acts: seq<Act>): seq<Prim> {
    match m
    case Handshake => HandshakeFailedSteps(c, acts)
    case Connect => ConnectFailedSteps(c, acts)
    case Disconnect => [Cut(true)] + Calls(acts)
    case App(_) => Calls(acts)
  }

  function FailMessagesSteps(c: Client, ms: seq<Message>, acts: seq<seq<Act>>): seq<Prim>
    decreases ms
  {
    if ms == [] then []
    else
      var now, later := if acts == [] then [] else acts[0], if acts == [] then [] else acts[1..];
      FailMessageSteps(c, ms[0], now) + FailMessagesSteps(FailMessage(c, ms[0], now), ms[1..], later)
  }

  // ---------------------------------------------------------------- taking them one after the other

  lemma {:induction false} ListenersPlan(c: Client, acts: seq<Act>) returns (ps: seq<Prim>)
    ensures ps == Calls(acts)
    ensures ApplyAll(c, ps) == Listeners(c, acts)
    ensures forall p :: p in ps <==> p.Do? && p.act in acts
    decreases acts
  {
    if acts == [] {
      ps := [];
    } else {
      var rest := ListenersPlan(Perform(c, acts[0]), acts[1..]);
      ps := [Do(acts[0])] + rest;
      ApplyConcat(c, [Do(acts[0])], rest);
      ApplyOne(c, Do(acts[0]));
    }
  }

  lemma {:induction false} AddStep(c: Client, ps: seq<Prim>, p: Prim)
    ensures ApplyAll(c, ps + [p]) == Apply(ApplyAll(c, ps), p)
  {
    ApplyConcat(c, ps, [p]);
    ApplyOne(ApplyAll(c, ps), p);
  }

  lemma {:induction false} HandshakeFailedPlan(c: Client, acts: seq<Act>) returns (ps: seq<Prim>)
    ensures CallHandshake !in acts ==> Do(CallHandshake) !in ps
    ensures ps == HandshakeFailedSteps(c, acts)
    ensures ApplyAll(c, ps) == HandshakeFailed(c, acts)
  {
    if !IsDisconnected(c) && c.advice.reconnect != Never {
      ps := ListenersPlan(c, acts);
      AddStep(c, ps, RaiseBackoff);
      AddStep(c, ps + [RaiseBackoff], Delay(SendHandshake));
      ps := ps + [RaiseBackoff] + [Delay(SendHandshake)];
    } else {
      ApplyOne(c, Become(Disconnected));
      var rest := ListenersPlan(c.(status := Disconnected), acts);
      ApplyConcat(c, [Become(Disconnected)], rest);
      ps := [Become(Disconnected)] + rest;
    }
  }

  lemma {:induction false} HandshakeSucceededPlan(c: Client, acts: seq<Act>) returns (ps: seq<Prim>)
    ensures CallHandshake !in acts ==> Do(CallHandshake) !in ps
    ensures ps == HandshakeSucceededSteps(c, acts)
    ensures ApplyAll(c, ps) == HandshakeSucceeded(c, acts)
  {
    ps := ListenersPlan(c, acts);
    if Action(ApplyAll(c, ps).advice) == Retry {
      AddStep(c, ps, Delay(SendConnect));
      ps := ps + [Delay(SendConnect)];
    }
  }

  lemma {:induction false} ConnectSucceededPlan(c: Client, action: Reconnect, acts: seq<Act>) returns (ps: seq<Prim>)
    ensures CallHandshake !in acts ==> Do(CallHandshake) !in ps
    ensures ps == ConnectSucceededSteps(action, acts)
    ensures ApplyAll(c, ps) == ConnectSucceeded(c, action, acts)
  {
    ApplyOne(c, EndInternalBatch);
    var rest := ListenersPlan(Apply(c, EndInternalBatch), acts);
    ps := [EndInternalBatch] + rest;
    ApplyConcat(c, [EndInternalBatch], rest);
    AddStep(c, ps, ClearBackoff);
    var last := if action == Retry then Delay(SendConnect) else Become(Disconnected);
    ps := ps + [ClearBackoff];
    AddStep(c, ps, last);
    ps := ps + [last];
  }

  lemma {:induction false} ConnectRefusedPlan(c: Client, action: Reconnect, acts: seq<Act>) returns (ps: seq<Prim>)
    ensures CallHandshake !in acts ==> Do(CallHandshake) !in ps
    ensures ps == ConnectRefusedSteps(action, acts)
    ensures ApplyAll(c, ps) == ConnectRefused(c, action, acts)
  {
    ps := ListenersPlan(c, acts);
    match action
    case Retry =>
      AddStep(c, ps, RaiseBackoff);
      AddStep(c, ps + [RaiseBackoff], Delay(SendConnect));
      ps := ps + [RaiseBackoff] + [Delay(SendConnect)];
    case Rehandshake =>
      AddStep(c, ps, ClearBackoff);
      AddStep(c, ps + [ClearBackoff], Delay(SendHandshake));
      ps := ps + [ClearBackoff] + [Delay(SendHandshake)];
    case Never =>
      AddStep(c, ps, ClearBackoff);
      AddStep(c, ps + [ClearBackoff], Become(Disconnected));
      ps := ps + [ClearBackoff] + [Become(Disconnected)];
    case _ =>
  }

  lemma {:induction false} ConnectResponsePlan(c: Client, successful: bool, acts: seq<Act>) returns (ps: seq<Prim>)
    ensures CallHandshake !in acts ==> Do(CallHandshake) !in ps
    ensures ps == ConnectResponseSteps(c, successful, acts)
    ensures ApplyAll(c, ps) == ConnectResponse(c, successful, acts)
  {
    var rest;
    if successful {
      rest := ConnectSucceededPlan(ConnectStatus(c), ConnectAction(c), acts);
    } else {
      rest := ConnectRefusedPlan(ConnectStatus(c), ConnectAction(c), acts);
    }
    ApplyOne(c, Become(ConnectStatus(c).status));
    ApplyConcat(c, [Become(ConnectStatus(c).status)], rest);
    ps := [Become(ConnectStatus(c).status)] + rest;
  }

  lemma {:induction false} ConnectFailedPlan(c: Client, acts: seq<Act>) returns (ps: seq<Prim>)
    ensures CallHandshake !in acts ==> Do(CallHandshake) !in ps
    ensures ps == ConnectFailedSteps(c, acts)
    ensures ApplyAll(c, ps) == ConnectFailed(c, acts)
    ensures IsDisconnected(Listeners(c, acts)) && CallHandshake !in acts ==> AllPassive(ps)
  {
    ps := ListenersPlan(c, acts);
    if !IsDisconnected(ApplyAll(c, ps)) {
      match Action(ApplyAll(c, ps).advice)
      case Retry =>
        AddStep(c, ps, RaiseBackoff);
        AddStep(c, ps + [RaiseBackoff], Delay(SendConnect));
        ps := ps + [RaiseBackoff] + [Delay(SendConnect)];
      case Rehandshake =>
        AddStep(c, ps, ClearBackoff);
        AddStep(c, ps + [ClearBackoff], Delay(SendHandshake));
        ps := ps + [ClearBackoff] + [Delay(SendHandshake)];
      case Never =>
        AddStep(c, ps, ClearBackoff);
        ps := ps + [ClearBackoff];
      case _ =>
    }
  }

  lemma {:induction false} DisconnectionPlan(c: Client, abort: bool, acts: seq<Act>) returns (ps: seq<Prim>)
    ensures CallHandshake !in acts ==> Do(CallHandshake) !in ps
    ensures ps == [Cut(abort)] + Calls(acts)
    ensures ApplyAll(c, ps) == Listeners(Disconnection(c, abort), acts)
    ensures CallHandshake !in acts ==> AllPassive(ps)
  {
    var rest := ListenersPlan(Disconnection(c, abort), acts);
    ApplyOne(c, Cut(abort));
    ApplyConcat(c, [Cut(abort)], rest);
    ps := [Cut(abort)] + rest;
  }

  predicate DriverReply(r: Reply) {
    r.kind == HandshakeReply || r.kind == ConnectReply
  }

  lemma {:induction false} ReceivePlan(c: Client, r: Reply) returns (ps: seq<Prim>)
    ensures CallHandshake !in r.acts ==> Do(CallHandshake) !in ps
    ensures ps == ReceiveSteps(c, r)
    ensures ApplyAll(c, ps) == Receive(c, r)
    ensures !DriverReply(r) && CallHandshake !in r.acts ==> AllPassive(ps)
  {
    var learn := if r.advice.Some? then [Learn(r.advice.value)] else [];
    if r.advice.Some? { ApplyOne(c, Learn(r.advice.value)); }
    var c1 := ApplyAll(c, learn);
    match r.kind {
      case HandshakeReply =>
        if !r.successful { ps := HandshakeFailedPlan(c1, r.acts); }
        else if r.negotiated { ps := HandshakeSucceededPlan(c1, r.acts); }
        else { ps := []; }
      case ConnectReply => ps := ConnectResponsePlan(c1, r.successful, r.acts);
      case DisconnectReply => ps := DisconnectionPlan(c1, !r.successful, r.acts);
      case OtherReply => ps := ListenersPlan(c1, r.acts);
    }
    ApplyConcat(c, learn, ps);
    ps := learn + ps;
  }

  lemma {:induction false} RepliesPlan(c: Client, rs: seq<Reply>) returns (ps: seq<Prim>)
    ensures QuietReplies(rs) ==> Do(CallHandshake) !in ps
    ensures ps == RepliesSteps(c, rs)
    ensures ApplyAll(c, ps) == Replies(c, rs)
    ensures QuietReplies(rs) && (forall r :: r in rs ==> !DriverReply(r)) ==> AllPassive(ps)
    decreases rs
  {
    if rs == [] {
      ps := [];
    } else {
      ps := ReceivePlan(c, rs[0]);
      if !Negotiation(rs[0]) {
        var rest := RepliesPlan(Receive(c, rs[0]), rs[1..]);
        ApplyConcat(c, ps, rest);
        ps := ps + rest;
      }
    }
  }

  predicate NoHandshakes(acts: seq<seq<Act>>) {
    forall i :: 0 <= i < |acts| ==> CallHandshake !in acts[i]
  }

  predicate QuietReplies(rs: seq<Reply>) {
    forall i :: 0 <= i < |rs| ==> CallHandshake !in rs[i].acts
  }

  /** Neither the application nor a listener calls `handshake()`. */
  predicate NoHandshake(ev: Event) {
    match ev
    case Response(_, rs) => QuietReplies(rs)
    case NetFailure(_, acts) => NoHandshakes(acts)
    case Timeout(_, acts) => NoHandshakes(acts)
    case FailTask(_, acts) => NoHandshakes(acts)
    case User(act) => act != CallHandshake
    case _ => true
  }

  predicate IsDriver(e: Envelope) {
    Handshake in e || Connect in e
  }

  lemma {:induction false} FailMessagePlan(c: Client, m: Message, acts: seq<Act>) returns (ps: seq<Prim>)
    ensures CallHandshake !in acts ==> Do(CallHandshake) !in ps
    ensures ps == FailMessageSteps(c, m, acts)
    ensures ApplyAll(c, ps) == FailMessage(c, m, acts)
    ensures (m.Disconnect? || m.App?) && CallHandshake !in acts ==> AllPassive(ps)
  {
    match m
    case Handshake => ps := HandshakeFailedPlan(c, acts);
    case Connect => ps := ConnectFailedPlan(c, acts);
    case Disconnect => ps := DisconnectionPlan(c, true, acts);
    case App(_) => ps := ListenersPlan(c, acts);
  }

  lemma {:induction false} FailMessagesPlan(c: Client, ms: seq<Message>, acts: seq<seq<Act>>) returns (ps: seq<Prim>)
    ensures NoHandshakes(acts) ==> Do(CallHandshake) !in ps
    ensures ps == FailMessagesSteps(c, ms, acts)
    ensures ApplyAll(c, ps) == FailMessages(c, ms, acts)
    ensures !IsDriver(ms) && NoHandshakes(acts) ==> AllPassive(ps)
    decreases ms
  {
    if ms == [] {
      ps := [];
    } else {
      var now, later := if acts == [] then [] else acts[0], if acts == [] then [] else acts[1..];
      ps := FailMessagePlan(c, ms[0], now);
      var rest := FailMessagesPlan(FailMessage(c, ms[0], now), ms[1..], later);
      ApplyConcat(c, ps, rest);
      if !IsDriver(ms) {
        assert !ms[0].Handshake? && !ms[0].Connect?;
        assert !IsDriver(ms[1..]);
      }
      ps := ps + rest;
    }
  }

  // ---------------------------------------------------------------- the steps of an event

  /** The event reaches the client's handlers, or is a call of the application. */
  predicate CallsBack(c: Client, ev: Event) {
    match ev
    case Response(k, _) => k < |c.net.sent| && Reports(c.net, k) && !Mismatch(c, c.net.sent[k].job.request)
    case NetFailure(k, _) => k < |c.net.sent| && Reports(c.net, k) && !Mismatch(c, c.net.sent[k].job.request)
    case Timeout(k, _) => k < |c.net.sent| && c.net.sent[k].timer && !Mismatch(c, c.net.sent[k].job.request)
    case FailTask(j, _) => j < |c.net.doomed| && !Mismatch(c, c.net.doomed[j].request)
    case User(_) => true
    case _ => false
  }

  /** What they find: the request has been completed. */
  function Begun(c: Client, ev: Event): Client {
    if !CallsBack(c, ev) then Step(c, ev)
    else
      match ev
      case Response(k, _) => Completed(WithNet(c, Report(c.net, k)), c.net.sent[k].job.request, true)
      case NetFailure(k, _) => Completed(WithNet(c, Report(c.net, k)), c.net.sent[k].job.request, false)
      case Timeout(k, _) => Completed(WithNet(c, Expire(c.net, k)), c.net.sent[k].job.request, false)
      case FailTask(j, _) => Completed(WithNet(c, Doom(c.net, j)), c.net.doomed[j].request, false)
      case _ => c
  }

  lemma {:induction false} BegunFrame(c: Client, ev: Event)
    requires !ev.Fire?
    ensures Begun(c, ev) == c.(net := Begun(c, ev).net)
  {
  }

  /** The small steps they then take, one after the other. */
  function EventSteps(c: Client, ev: Event): seq<Prim> {
    if !CallsBack(c, ev) then []
    else
      match ev
      case Response(_, rs) => RepliesSteps(Begun(c, ev), rs)
      case NetFailure(k, acts) => FailMessagesSteps(Begun(c, ev), c.net.sent[k].job.envelope, acts)
      case Timeout(k, acts) => FailMessagesSteps(Begun(c, ev), c.net.sent[k].job.envelope, acts)
      case FailTask(j, acts) => FailMessagesSteps(Begun(c, ev), c.net.doomed[j].envelope, acts)
      case User(act) => [Do(act)]
      case _ => []
  }

  lemma {:induction false} EventPlan(c: Client, ev: Event)
    ensures Step(c, ev) == ApplyAll(Begun(c, ev), EventSteps(c, ev))
  {
    if CallsBack(c, ev) {
      var d := Begun(c, ev);
      match ev
      case Response(_, rs) => var ps := RepliesPlan(d, rs);
      case NetFailure(k, acts) => var ps := FailMessagesPlan(d, c.net.sent[k].job.envelope, acts);
      case Timeout(k, acts) => var ps := FailMessagesPlan(d, c.net.sent[k].job.envelope, acts);
      case FailTask(j, acts) => var ps := FailMessagesPlan(d, c.net.doomed[j].envelope, acts);
      case User(act) => ApplyOne(c, Do(act));
    }
  }
}
