/** The status in which each call, reply, failure and timer leaves the client, and what leaves first when a successful
    connect reply arrives. */
module Statuses {
  import opened Options
  import opened Bayeux
  import opened ClientSteps

  predicate Off(s: Status) {
    s == Disconnecting || s == Disconnected
  }

  /** The status after calls of the application or of listeners. */
  function AfterCalls(s: Status, acts: seq<Act>): Status
    decreases acts
  {
    if acts == [] then s
    else AfterCalls(match acts[0]
                    case CallHandshake => Handshaking
                    case CallDisconnect => if Off(s) then s else Disconnecting
                    case _ => s, acts[1..])
  }

  /** After a reply whose advice has been taken over; `action` is what the advice says, or else to retry. */
  function AfterReply(s: Status, action: Reconnect, r: Reply): Status {
    match r.kind
    case HandshakeReply =>
      if !r.successful then
        if !Off(s) && action != Never then Handshaking else AfterCalls(Disconnected, r.acts)
      else if !r.negotiated then s
      else if action == Retry then Connecting
      else AfterCalls(s, r.acts)
    case ConnectReply =>
      if Off(s) then Disconnected
      else if action == Retry then Connecting
      else if r.successful || action == Never then Disconnected
      else if action == Rehandshake then Handshaking
      else AfterCalls(Disconnecting, r.acts)
    case DisconnectReply => AfterCalls(Disconnected, r.acts)
    case OtherReply => AfterCalls(s, r.acts)
  }

  function AfterFailure(s: Status, action: Reconnect, m: Message, acts: seq<Act>): Status {
    match m
    case Handshake => if !Off(s) && action != Never then Handshaking else AfterCalls(Disconnected, acts)
    case Connect =>
      if Off(AfterCalls(s, acts)) then AfterCalls(s, acts)
      else if action == Retry then Connecting
      else if action == Rehandshake then Handshaking
      else AfterCalls(s, acts)
    case Disconnect => AfterCalls(Disconnected, acts)
    case App(_) => AfterCalls(s, acts)
  }

  function Advised(a: Advice): Reconnect {
    if a.reconnect == Unset then Retry else a.reconnect
  }

  lemma {:induction false} CallsLeave(c: Client, acts: seq<Act>)
    ensures Listeners(c, acts).status == AfterCalls(c.status, acts) && Listeners(c, acts).advice == c.advice
    decreases acts
  {
    if acts != [] { CallsLeave(Perform(c, acts[0]), acts[1..]); }
  }

  lemma {:induction false} ConnectSuccessLeaves(c: Client, action: Reconnect, acts: seq<Act>)
    ensures ConnectSucceeded(c, action, acts).status == if action == Retry then Connecting else Disconnected
  {
  }

  lemma {:induction false} ConnectRefusalLeaves(c: Client, action: Reconnect, acts: seq<Act>)
    ensures ConnectRefused(c, action, acts).status ==
            match action
            case Retry => Connecting
            case Rehandshake => Handshaking
            case Never => Disconnected
            case _ => AfterCalls(c.status, acts)
  {
    CallsLeave(c, acts);
  }

  lemma {:induction false} ConnectReplyLeaves(c: Client, r: Reply)
    requires r.kind == ConnectReply && r.advice.None?
    ensures Receive(c, r).status == AfterReply(c.status, Advised(c.advice), r)
  {
    ConnectSuccessLeaves(ConnectStatus(c), ConnectAction(c), r.acts);
    ConnectRefusalLeaves(ConnectStatus(c), ConnectAction(c), r.acts);
  }

  /** What a reply leaves behind, whatever its listeners call. */
  lemma {:induction false} ReplyLeaves(c: Client, r: Reply)
    ensures var advice := if r.advice.Some? then r.advice.value else c.advice;
            Receive(c, r).status == AfterReply(c.status, Advised(advice), r)
  {
    var c1 := if r.advice.Some? then c.(advice := r.advice.value) else c;
    match r.kind
    case HandshakeReply =>
      CallsLeave(c1, r.acts);
      CallsLeave(c1.(status := Disconnected), r.acts);
    case ConnectReply =>
      ConnectReplyLeaves(c1, r.(advice := None));
    case DisconnectReply => CallsLeave(Disconnection(c1, !r.successful), r.acts);
    case OtherReply => CallsLeave(c1, r.acts);
  }

  /** And the failure of a message. */
  lemma {:induction false} FailureLeaves(c: Client, m: Message, acts: seq<Act>)
    ensures FailMessage(c, m, acts).status == AfterFailure(c.status, Advised(c.advice), m, acts)
  {
    CallsLeave(c, acts);
    match m
    case Handshake => CallsLeave(c.(status := Disconnected), acts);
    case Disconnect => CallsLeave(Disconnection(c, true), acts);
    case _ =>
  }

  /** And a timer: the client is connected as soon as the long poll is on its way. */
  lemma {:induction false} TimerLeaves(c: Client, i: nat)
    requires i < |c.timers|
    ensures Step(c, Fire(i)).status ==
            if c.timers[i].operation == SendHandshake then Handshaking
            else if c.net.longpollRequest.None? then Connected
            else Connecting
  {
  }

  // ---------------------------------------------------------------- what is given up

  lemma {:induction false} SendDrops(c: Client, ms: seq<Message>, longpoll: bool)
    ensures SendMessages(c, ms, longpoll).net.dropped == c.net.dropped
  {
  }

  lemma {:induction false} CallDrops(c: Client, act: Act)
    ensures Perform(c, act).net.dropped == c.net.dropped + if act == CallHandshake then c.net.envelopes else []
  {
  }

  /** Of all small steps only a `handshake()` and a disconnection that aborts give up the envelopes waiting for a slot. */
  lemma {:induction false} StepDrops(c: Client, p: Prim)
    ensures Apply(c, p).net.dropped ==
            c.net.dropped + if p == Do(CallHandshake) || p == Cut(true) then c.net.envelopes else []
  {
    match p
    case Do(act) => CallDrops(c, act);
    case EndInternalBatch => SendDrops(c.(internalBatch := false, messageQueue := []), c.messageQueue, false);
    case _ =>
  }

  /** And of all timers only one that sends a handshake while the client is disconnected. */
  lemma {:induction false} TimerDrops(c: Client, i: nat)
    requires i < |c.timers|
    ensures Step(c, Fire(i)).net.dropped ==
            c.net.dropped + if c.timers[i].operation == SendHandshake && Off(c.status) then c.net.envelopes else []
  {
  }

  // ---------------------------------------------------------------- what leaves first

  /** The net only gets more submissions. */
  predicate Extends(c: Client, d: Client) {
    c.net.submitted <= d.net.submitted
  }

  lemma {:induction false} CallExtends(c: Client, act: Act)
    ensures Extends(c, Perform(c, act))
  {
  }

  lemma {:induction false} CallsExtend(c: Client, acts: seq<Act>)
    ensures Extends(c, Listeners(c, acts))
    decreases acts
  {
    if acts != [] {
      CallExtends(c, acts[0]);
      CallsExtend(Perform(c, acts[0]), acts[1..]);
    }
  }

  /** When a successful connect reply arrives, the messages held go out as one envelope of their own, ahead of anything
      that its listeners send. */
  lemma {:induction false} HeldLeaveFirst(c: Client, r: Reply)
    requires r.kind == ConnectReply && r.successful && c.messageQueue != []
    ensures var given := Receive(c, r).net.submitted; var n := |c.net.submitted|;
            n < |given| && given[..n] == c.net.submitted && given[n] == c.messageQueue
  {
    var c1 := if r.advice.Some? then c.(advice := r.advice.value) else c;
    var f := FlushBatch(ConnectStatus(c1).(internalBatch := false));
    CallsExtend(f, r.acts);
  }
}
