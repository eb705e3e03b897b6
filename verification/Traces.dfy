/** Runs of the client in which the promises of the previous modules fail outside the conditions stated there. */
module Traces {
  import opened Options
  import opened Scheduler
  import opened Bayeux
  import opened ClientSteps
  import opened ClientRuns
  import D = Disconnections
  import K = Keepalive
  import N = ClientNet
  import O = SingleDriver
  import S = SchedulerRuns
  import V = Revivals

  const CONFIG := Config(2, 1000, 60000)

  function Ordinary(id: nat): Request {
    Request(id, false)
  }

  /** A request just handed to the network. */
  function Wire(e: Envelope, request: Request): Sent<Envelope> {
    Sent(Job(e, request), true, false, true)
  }

  function Answered(e: Envelope, request: Request): Sent<Envelope> {
    Sent(Job(e, request), false, false, false)
  }

  function Accepted(kind: ReplyKind): Reply {
    Reply(kind, true, None, true, [])
  }

  function Refused(kind: ReplyKind): Reply {
    Reply(kind, false, None, true, [])
  }

  predicate NetIs(c: Client, requests: seq<Request>, longpoll: Option<Request>, sent: seq<Sent<Envelope>>) {
    && c.config == CONFIG && c.net.requestIds == |sent| && c.net.requests == requests
    && c.net.longpollRequest == longpoll && c.net.sent == sent && c.net.envelopes == [] && c.net.doomed == []
  }

  /** What the application's messages have come to. */
  predicate MessagesAre(c: Client, queue: seq<Message>, sent: seq<nat>, overtaken: set<nat>) {
    c.messageQueue == queue && c.submitted == |queue| + |sent| && Reached(c.log) == sent && c.overtaken == overtaken
  }

  lemma {:induction false} Started()
    ensures var c := Initialised(CONFIG);
            && NetIs(c, [Ordinary(1)], None, [Wire([Handshake], Ordinary(1))]) && MessagesAre(c, [], [], {})
            && c.status == Handshaking && c.timers == [] && c.timerIds == 0 && c.scheduledSend == None
            && c.backoff == 0 && c.advice == Advice(Unset, 0) && c.batch == 0
  {
    var c := Fresh(CONFIG).(net := Reset(EmptyNet()), batch := 0, internalBatch := true, status := Handshaking);
    SendBooks(c, [Handshake], false, Connect);
  }

  // ---------------------------------------------------------------- a handshake that revives the client

  const REHANDSHAKE: seq<Event> :=
    [Response(0, [Refused(HandshakeReply)])] + [User(CallDisconnect)] +
    ([Fire(0)] + [Response(1, [Accepted(DisconnectReply)])])

  lemma {:induction false} RefusedStep(c: Client)
    requires NetIs(c, [Ordinary(1)], None, [Wire([Handshake], Ordinary(1))])
    requires c.status == Handshaking && c.timers == [] && c.timerIds == 0 && c.scheduledSend == None
    requires c.backoff == 0 && c.advice == Advice(Unset, 0)
    ensures var d := Step(c, Response(0, [Refused(HandshakeReply)]));
            && NetIs(d, [], None, [Answered([Handshake], Ordinary(1))]) && d.status == Handshaking
            && d.timers == [Timer(1, SendHandshake, 1000)] && d.scheduledSend == Some(1)
            && d.advice == Advice(Unset, 0)
  {
  }

  lemma {:induction false} DisconnectStep(c: Client, sent: seq<Sent<Envelope>>, longpoll: Option<Request>)
    requires NetIs(c, [], longpoll, sent) && !IsDisconnected(c)
    ensures var d := Step(c, User(CallDisconnect)); var request := Ordinary(|sent| + 1);
            && NetIs(d, [request], longpoll, sent + [Wire([Disconnect], request)]) && d.status == Disconnecting
            && d.timers == c.timers && d.scheduledSend == c.scheduledSend && d.batch == c.batch
            && d.internalBatch == c.internalBatch && d.messageQueue == c.messageQueue && d.submitted == c.submitted
            && Reached(d.log) == Reached(c.log) && d.overtaken == c.overtaken && d.advice == c.advice
  {
    SendBooks(c.(status := Disconnecting), [Disconnect], false, Connect);
    assert Numbers([Disconnect]) == [];
  }

  lemma {:induction false} RehandshakeStep(c: Client)
    requires NetIs(c, [Ordinary(2)], None, [Answered([Handshake], Ordinary(1)), Wire([Disconnect], Ordinary(2))])
    requires c.status == Disconnecting && c.timers == [Timer(1, SendHandshake, 1000)] && c.scheduledSend == Some(1)
    ensures var d := Step(c, Fire(0));
            && NetIs(d, [Ordinary(3)], None, [Answered([Handshake], Ordinary(1)), Wire([Disconnect], Ordinary(2)),
                                              Wire([Handshake], Ordinary(3))])
            && d.status == Handshaking && d.timers == [] && d.scheduledSend == Some(1) && d.advice == c.advice
  {
  }

  lemma {:induction false} DisconnectedStep(c: Client)
    requires NetIs(c, [Ordinary(3)], None, [Answered([Handshake], Ordinary(1)), Wire([Disconnect], Ordinary(2)),
                                            Wire([Handshake], Ordinary(3))])
    requires c.timers == [] && c.scheduledSend == Some(1) && c.advice == Advice(Unset, 0)
    ensures var d := Step(c, Response(1, [Accepted(DisconnectReply)]));
            && NetIs(d, [Ordinary(3)], None, [Answered([Handshake], Ordinary(1)), Answered([Disconnect], Ordinary(2)),
                                              Wire([Handshake], Ordinary(3))])
            && d.status == Disconnected && d.timers == [] && d.scheduledSend == None && d.advice == Advice(Unset, 0)
  {
  }

  lemma {:induction false} RevivedStep(c: Client)
    requires NetIs(c, [Ordinary(3)], None, [Answered([Handshake], Ordinary(1)), Answered([Disconnect], Ordinary(2)),
                                            Wire([Handshake], Ordinary(3))])
    requires c.advice == Advice(Unset, 0)
    ensures Step(c, Response(2, [Accepted(HandshakeReply)])).status == Connecting
  {
  }

  lemma {:induction false} Two(c: Client, a: Event, b: Event)
    ensures Run(c, [a] + [b]) == Step(Step(c, a), b)
  {
    assert [a][..0] == [];
    RunSnoc(c, [a], b);
  }

  lemma {:induction false} DisconnectingRun()
    ensures var c := Run(Initialised(CONFIG), [Response(0, [Refused(HandshakeReply)])] + [User(CallDisconnect)]);
            && NetIs(c, [Ordinary(2)], None, [Answered([Handshake], Ordinary(1)), Wire([Disconnect], Ordinary(2))])
            && c.status == Disconnecting && c.timers == [Timer(1, SendHandshake, 1000)] && c.scheduledSend == Some(1)
            && c.advice == Advice(Unset, 0)
  {
    var c := Initialised(CONFIG);
    Started();
    RefusedStep(c);
    var d := Step(c, Response(0, [Refused(HandshakeReply)]));
    DisconnectStep(d, [Answered([Handshake], Ordinary(1))], None);
    Two(c, Response(0, [Refused(HandshakeReply)]), User(CallDisconnect));
  }

  lemma {:induction false} RehandshakingRun(c: Client)
    requires NetIs(c, [Ordinary(2)], None, [Answered([Handshake], Ordinary(1)), Wire([Disconnect], Ordinary(2))])
    requires c.status == Disconnecting && c.timers == [Timer(1, SendHandshake, 1000)] && c.scheduledSend == Some(1)
    requires c.advice == Advice(Unset, 0)
    ensures var d := Run(c, [Fire(0)] + [Response(1, [Accepted(DisconnectReply)])]);
            && NetIs(d, [Ordinary(3)], None, [Answered([Handshake], Ordinary(1)), Answered([Disconnect], Ordinary(2)),
                                              Wire([Handshake], Ordinary(3))])
            && d.status == Disconnected && d.timers == [] && d.advice == Advice(Unset, 0)
  {
    RehandshakeStep(c);
    DisconnectedStep(Step(c, Fire(0)));
    Two(c, Fire(0), Response(1, [Accepted(DisconnectReply)]));
  }

  lemma {:induction false} RehandshakeRun()
    ensures var c := Run(Initialised(CONFIG), REHANDSHAKE);
            && NetIs(c, [Ordinary(3)], None, [Answered([Handshake], Ordinary(1)), Answered([Disconnect], Ordinary(2)),
                                              Wire([Handshake], Ordinary(3))])
            && c.status == Disconnected && c.timers == [] && c.advice == Advice(Unset, 0)
  {
    var first := [Response(0, [Refused(HandshakeReply)])] + [User(CallDisconnect)];
    DisconnectingRun();
    RehandshakingRun(Run(Initialised(CONFIG), first));
    RunSplit(Initialised(CONFIG), first, [Fire(0)] + [Response(1, [Accepted(DisconnectReply)])]);
  }

  /** A client that rehandshakes after `disconnect()` was called: the disconnect reply leaves it disconnected with
      nothing scheduled, and the success of the handshake still in flight brings it back. */
  lemma {:induction false} HandshakeRevives()
    ensures var c := Run(Initialised(CONFIG), REHANDSHAKE);
            c.status == Disconnected && c.timers == [] && D.InFlight(c.net) > 0
    ensures Run(Initialised(CONFIG), REHANDSHAKE + [Response(2, [Accepted(HandshakeReply)])]).status == Connecting
  {
    RehandshakeRun();
    var c := Run(Initialised(CONFIG), REHANDSHAKE);
    RevivedStep(c);
    RunSnoc(Initialised(CONFIG), REHANDSHAKE, Response(2, [Accepted(HandshakeReply)]));
  }

  // ---------------------------------------------------------------- a client that has connected

  const CONNECT: seq<Event> :=
    [Response(0, [Accepted(HandshakeReply)])] + [Fire(0)] + ([Response(1, [Accepted(ConnectReply)])] + [Fire(0)])

  /** Connected, with the second long poll on its way. */
  predicate Ready(c: Client) {
    && NetIs(c, [], Some(Request(3, true)),
             [Answered([Handshake], Ordinary(1)), Answered([Connect], Request(2, true)),
              Wire([Connect], Request(3, true))])
    && MessagesAre(c, [], [], {}) && c.status == Connected && c.timers == [] && c.batch == 0 && !c.internalBatch
  }

  lemma {:induction false} AcceptedStep(c: Client)
    requires NetIs(c, [Ordinary(1)], None, [Wire([Handshake], Ordinary(1))]) && MessagesAre(c, [], [], {})
    requires c.timers == [] && c.scheduledSend == None && c.batch == 0 && c.advice == Advice(Unset, 0)
    ensures var d := Step(c, Response(0, [Accepted(HandshakeReply)]));
            && NetIs(d, [], None, [Answered([Handshake], Ordinary(1))]) && MessagesAre(d, [], [], {})
            && |d.timers| == 1 && d.timers[0].operation == SendConnect && d.scheduledSend == Some(d.timers[0].id)
            && d.batch == 0 && d.advice == c.advice
  {
  }

  /** The pending connect is sent. */
  lemma {:induction false} ConnectStep(c: Client, sent: seq<Sent<Envelope>>)
    requires NetIs(c, [], None, sent) && MessagesAre(c, [], [], {})
    requires |c.timers| == 1 && c.timers[0].operation == SendConnect && c.batch == 0
    ensures var d := Step(c, Fire(0)); var request := Request(|sent| + 1, true);
            && NetIs(d, [], Some(request), sent + [Wire([Connect], request)]) && MessagesAre(d, [], [], {})
            && d.status == Connected && d.timers == [] && d.batch == 0 && d.internalBatch == c.internalBatch
            && d.advice == c.advice && d.scheduledSend == c.scheduledSend
  {
    SendBooks(c.(timers := [], status := Connecting), [Connect], true, Connect);
    assert Numbers([Connect]) == [];
    assert c.timers[..0] + c.timers[1..] == [];
  }

  lemma {:induction false} ConnectedStep(c: Client)
    requires NetIs(c, [], Some(Request(2, true)),
                   [Answered([Handshake], Ordinary(1)), Wire([Connect], Request(2, true))])
    requires MessagesAre(c, [], [], {}) && c.status == Connected && c.timers == [] && c.batch == 0
    requires c.advice == Advice(Unset, 0)
    ensures var d := Step(c, Response(1, [Accepted(ConnectReply)]));
            && NetIs(d, [], None, [Answered([Handshake], Ordinary(1)), Answered([Connect], Request(2, true))])
            && MessagesAre(d, [], [], {}) && d.batch == 0 && !d.internalBatch
            && |d.timers| == 1 && d.timers[0].operation == SendConnect && d.advice == c.advice
  {
  }

  lemma {:induction false} FirstConnectRun()
    ensures var c := Run(Initialised(CONFIG), [Response(0, [Accepted(HandshakeReply)])] + [Fire(0)]);
            && NetIs(c, [], Some(Request(2, true)),
                     [Answered([Handshake], Ordinary(1)), Wire([Connect], Request(2, true))])
            && MessagesAre(c, [], [], {}) && c.status == Connected && c.timers == [] && c.batch == 0
            && c.advice == Advice(Unset, 0)
  {
    var c := Initialised(CONFIG);
    Started();
    AcceptedStep(c);
    ConnectStep(Step(c, Response(0, [Accepted(HandshakeReply)])), [Answered([Handshake], Ordinary(1))]);
    Two(c, Response(0, [Accepted(HandshakeReply)]), Fire(0));
  }

  lemma {:induction false} ConnectRun()
    ensures Ready(Run(Initialised(CONFIG), CONNECT))
  {
    var first := [Response(0, [Accepted(HandshakeReply)])] + [Fire(0)];
    var c := Run(Initialised(CONFIG), first);
    FirstConnectRun();
    ConnectedStep(c);
    ConnectStep(Step(c, Response(1, [Accepted(ConnectReply)])),
                [Answered([Handshake], Ordinary(1)), Answered([Connect], Request(2, true))]);
    Two(c, Response(1, [Accepted(ConnectReply)]), Fire(0));
    RunSplit(Initialised(CONFIG), first, [Response(1, [Accepted(ConnectReply)])] + [Fire(0)]);
  }

  // ---------------------------------------------------------------- a batch that is flushed from within

  /** A batch is open and holds the first message. */
  predicate Batched(c: Client) {
    && c.config == CONFIG && c.status == Connected && c.batch == 1 && !c.internalBatch
    && MessagesAre(c, [App(0)], [], {})
    && c.net.requests == [] && |c.net.sent| == 3 && c.net.envelopes == [] && c.net.doomed == [] && c.net.requestIds == 3
    && c.net.longpollRequest == Some(Request(3, true)) && c.net.sent[2] == Wire([Connect], Request(3, true))
  }

  lemma {:induction false} BatchSteps(c: Client)
    requires Ready(c)
    ensures Batched(Step(Step(c, User(StartBatch)), User(Submit)))
  {
  }

  /** What a flush does to the log. */
  lemma {:induction false} FlushReaches(c: Client)
    requires c.messageQueue == [App(0)]
    ensures var d := FlushBatch(c); Reached(d.log) == Reached(c.log) + [0] && d.batch == c.batch
  {
    SendBooks(c.(messageQueue := []), [App(0)], false, Connect);
    assert Numbers([App(0)]) == [0];
  }

  /** What a successful connect reply does while the second long poll is on its way. */
  lemma {:induction false} ReplyFlushes(c: Client)
    requires c.messageQueue == [App(0)] && c.net.longpollRequest == Some(Request(3, true))
    requires |c.net.sent| >= 3 && c.net.sent[2] == Wire([Connect], Request(3, true))
    ensures var d := Step(c, Response(2, [Accepted(ConnectReply)]));
            Reached(d.log) == Reached(c.log) + [0] && d.batch == c.batch
  {
    var c1 := Completed(WithNet(c, Report(c.net, 2)), Request(3, true), true);
    assert Replies(c1, [Accepted(ConnectReply)]) == ConnectResponse(c1, true, []) by {
      assert [Accepted(ConnectReply)][1..] == [];
    }
    FlushReaches(ConnectStatus(c1).(internalBatch := false));
  }

  const BATCH: seq<Event> := [User(StartBatch)] + [User(Submit)]

  lemma {:induction false} BatchRun()
    ensures Batched(Run(Initialised(CONFIG), CONNECT + BATCH))
  {
    var c := Run(Initialised(CONFIG), CONNECT);
    ConnectRun();
    BatchSteps(c);
    Two(c, User(StartBatch), User(Submit));
    RunSplit(Initialised(CONFIG), CONNECT, BATCH);
  }

  /** Connect, `startBatch`, publish: the next connect reply sends the message although its batch is still open. */
  lemma {:induction false} FlushedInsideBatch()
    ensures var c := Run(Initialised(CONFIG), CONNECT + BATCH); c.batch == 1 && c.messageQueue == [App(0)]
    ensures var c := Run(Initialised(CONFIG), CONNECT + BATCH + [Response(2, [Accepted(ConnectReply)])]);
            c.batch == 1 && Reached(c.log) == [0]
  {
    BatchRun();
    ReplyFlushes(Run(Initialised(CONFIG), CONNECT + BATCH));
    RunSnoc(Initialised(CONFIG), CONNECT + BATCH, Response(2, [Accepted(ConnectReply)]));
  }

  // ---------------------------------------------------------------- a message that is overtaken

  /** `disconnect()` and `endBatch()`: the first message is held outside any batch. */
  predicate LeftBehind(c: Client) {
    && c.config == CONFIG && c.status == Disconnecting && c.batch == 0 && !c.internalBatch
    && MessagesAre(c, [App(0)], [], {}) && c.net.longpollRequest == Some(Request(3, true))
    && |c.net.sent| == 4 && c.net.sent[2] == Wire([Connect], Request(3, true)) && c.net.requests == [Ordinary(4)]
  }

  lemma {:induction false} LeaveSteps(c: Client)
    requires Batched(c)
    ensures LeftBehind(Step(Step(c, User(CallDisconnect)), User(EndBatch)))
  {
    DisconnectStep(c, c.net.sent, Some(Request(3, true)));
  }

  /** The second message goes out past the first. */
  predicate Overtaken(c: Client) {
    && c.config == CONFIG && c.status == Disconnecting && !c.internalBatch && MessagesAre(c, [App(0)], [1], {0})
    && c.net.longpollRequest == Some(Request(3, true)) && |c.net.sent| == 4
    && c.net.sent[2] == Wire([Connect], Request(3, true))
  }

  lemma {:induction false} OvertakeStep(c: Client)
    requires LeftBehind(c)
    ensures Overtaken(Step(c, User(Submit)))
  {
    assert HeldNumbers(c) == {0} by { assert Numbers([App(0)]) == [0]; }
    var c1 := c.(submitted := 2, overtaken := {0});
    assert Step(c, User(Submit)) == SendMessages(c1, [App(1)], false);
    OvertakeSend(c1);
  }

  lemma {:induction false} OvertakeSend(c: Client)
    requires LeftBehind(c.(submitted := 1, overtaken := {})) && c.submitted == 2 && c.overtaken == {0}
    ensures Overtaken(SendMessages(c, [App(1)], false))
  {
    SendBooks(c, [App(1)], false, Connect);
    assert Numbers([App(1)]) == [1];
    var d := SendMessages(c, [App(1)], false);
    assert d.net == Send(2, c.net, [App(1)], false) && d.net.sent == c.net.sent;
  }

  const LEAVE: seq<Event> := [User(CallDisconnect)] + [User(EndBatch)]
  const OVERTAKE: seq<Event> := [User(Submit)] + [Response(2, [Accepted(ConnectReply)])]

  /** Connect, `startBatch`, publish, `disconnect()`, `endBatch`, publish: the second message is sent, and the next
      connect reply sends the first one after it. */
  lemma {:induction false} OvertakenRun()
    ensures Reached(Run(Initialised(CONFIG), CONNECT + BATCH + LEAVE + OVERTAKE).log) == [1, 0]
  {
    var c := Run(Initialised(CONFIG), CONNECT + BATCH);
    BatchRun();
    LeaveSteps(c);
    Two(c, User(CallDisconnect), User(EndBatch));
    RunSplit(Initialised(CONFIG), CONNECT + BATCH, LEAVE);
    var d := Run(Initialised(CONFIG), CONNECT + BATCH + LEAVE);
    OvertakeStep(d);
    ReplyFlushes(Step(d, User(Submit)));
    Two(d, User(Submit), Response(2, [Accepted(ConnectReply)]));
    RunSplit(Initialised(CONFIG), CONNECT + BATCH + LEAVE, OVERTAKE);
  }

  // ---------------------------------------------------------------- a handshake that waits for ever

  const REFUSED := Reply(ConnectReply, false, Some(Advice(Rehandshake, 0)), true, [])

  /** What has been sent by then; the three flags say whether the second long poll, the message and the second handshake
      are still on their way. */
  function Six(poll: bool, message: bool, handshake: bool): seq<Sent<Envelope>> {
    [Answered([Handshake], Ordinary(1)), Answered([Connect], Request(2, true)),
     if poll then Wire([Connect], Request(3, true)) else Answered([Connect], Request(3, true)),
     if message then Wire([App(0)], Ordinary(4)) else Answered([App(0)], Ordinary(4)),
     if handshake then Wire([Handshake], Ordinary(5)) else Answered([Handshake], Ordinary(5))]
  }

  predicate SlotHeld(c: Client, sent: seq<Sent<Envelope>>, waiting: seq<Job<Envelope>>) {
    && c.config == CONFIG && c.net.requests == [Ordinary(5)] && c.net.longpollRequest == None && c.net.sent == sent
    && c.net.envelopes == waiting && c.net.doomed == [] && c.net.requestIds == 5 + |waiting|
  }

  lemma {:induction false} PublishStep(c: Client)
    requires Ready(c)
    ensures var d := Step(c, User(Submit));
            && NetIs(d, [Ordinary(4)], Some(Request(3, true)), Six(true, true, true)[..4]) && d.timers == []
            && d.status == Connected
  {
  }

  lemma {:induction false} HandshakeStep(c: Client)
    requires NetIs(c, [Ordinary(4)], Some(Request(3, true)), Six(true, true, true)[..4]) && c.timers == []
    ensures var d := Step(c, User(CallHandshake));
            SlotHeld(d, Six(true, true, true), []) && d.timers == [] && d.status == Handshaking
  {
    assert Six(true, true, true)[..4] + [Wire([Handshake], Ordinary(5))] == Six(true, true, true);
  }

  lemma {:induction false} LeakStep(c: Client)
    requires SlotHeld(c, Six(true, true, true), []) && c.timers == [] && c.status == Handshaking
    ensures var d := Step(c, Unreadable(4));
            SlotHeld(d, Six(true, true, false), []) && d.timers == [] && d.status == Handshaking
  {
  }

  lemma {:induction false} RefusedConnectStep(c: Client)
    requires SlotHeld(c, Six(true, true, false), []) && c.timers == [] && c.status == Handshaking
    ensures var d := Step(c, Response(2, [REFUSED]));
            && SlotHeld(d, Six(false, true, false), []) && d.status == Handshaking
            && |d.timers| == 1 && d.timers[0].operation == SendHandshake && d.scheduledSend == Some(d.timers[0].id)
  {
    var c1 := Completed(WithNet(c, Report(c.net, 2)), Request(3, true), true);
    assert c1.net.sent == Six(false, true, false);
    assert Replies(c1, [REFUSED]) == Receive(c1, REFUSED) by { assert [REFUSED][1..] == []; }
    var c2 := c1.(advice := Advice(Rehandshake, 0), status := Disconnecting);
    assert Receive(c1, REFUSED) == DelayedHandshake(c2.(backoff := 0));
  }

  lemma {:induction false} WaitStep(c: Client)
    requires SlotHeld(c, Six(false, true, false), []) && c.status == Handshaking
    requires |c.timers| == 1 && c.timers[0].operation == SendHandshake
    ensures var d := Step(c, Fire(0));
            && SlotHeld(d, Six(false, true, false), [Job([Handshake], Ordinary(6))])
            && d.status == Handshaking && d.timers == []
  {
    assert c.timers[..0] + c.timers[1..] == [];
  }

  /** The stale success turns the queue, which has a single envelope, and the reply disconnects. */
  lemma {:induction false} LateDisconnectStep(c: Client)
    requires SlotHeld(c, Six(false, true, false), [Job([Handshake], Ordinary(6))]) && c.timers == []
    ensures var d := Step(c, Response(3, [Accepted(DisconnectReply)]));
            && d.config == CONFIG && d.net.requests == [Ordinary(5)] && d.net.sent == Six(false, false, false)
            && d.net.envelopes == [Job([Handshake], Ordinary(7))] && d.status == Disconnected && d.timers == []
  {
    assert Without([Ordinary(5)], Ordinary(4)) == [Ordinary(5)];
    assert c.net.envelopes[1..] == [];
  }

  lemma {:induction false} LeakRun(c: Client)
    requires Ready(c)
    ensures var d := Run(c, [User(Submit)] + [User(CallHandshake)] + [Unreadable(4)]);
            SlotHeld(d, Six(true, true, false), []) && d.timers == [] && d.status == Handshaking
  {
    PublishStep(c);
    HandshakeStep(Step(c, User(Submit)));
    Two(c, User(Submit), User(CallHandshake));
    LeakStep(Run(c, [User(Submit)] + [User(CallHandshake)]));
    RunSnoc(c, [User(Submit)] + [User(CallHandshake)], Unreadable(4));
  }

  lemma {:induction false} WaitRun(c: Client)
    requires SlotHeld(c, Six(true, true, false), []) && c.timers == [] && c.status == Handshaking
    ensures var d := Run(c, [Response(2, [REFUSED])] + [Fire(0)] + [Response(3, [Accepted(DisconnectReply)])]);
            && d.config == CONFIG && d.net.requests == [Ordinary(5)] && d.net.sent == Six(false, false, false)
            && d.net.envelopes == [Job([Handshake], Ordinary(7))] && d.status == Disconnected && d.timers == []
  {
    RefusedConnectStep(c);
    WaitStep(Step(c, Response(2, [REFUSED])));
    Two(c, Response(2, [REFUSED]), Fire(0));
    LateDisconnectStep(Run(c, [Response(2, [REFUSED])] + [Fire(0)]));
    RunSnoc(c, [Response(2, [REFUSED])] + [Fire(0)], Response(3, [Accepted(DisconnectReply)]));
  }

  const LEAK: seq<Event> := [User(Submit)] + [User(CallHandshake)] + [Unreadable(4)]
  const WAIT: seq<Event> := [Response(2, [REFUSED])] + [Fire(0)] + [Response(3, [Accepted(DisconnectReply)])]

  /** A handshake that waits behind a slot that was leaked to an unreadable response cannot revive the client: that a
      handshake waits is not enough, the queue has to be able to move. */
  lemma {:induction false} WaitingForEver()
    ensures var c := Run(Initialised(CONFIG), CONNECT + LEAK + WAIT);
            c.status == Disconnected && c.timers == [] && D.Waiting(c.net) > 0 && V.StaysAway(c)
  {
    ConnectRun();
    LeakRun(Run(Initialised(CONFIG), CONNECT));
    RunSplit(Initialised(CONFIG), CONNECT, LEAK);
    WaitRun(Run(Initialised(CONFIG), CONNECT + LEAK));
    RunSplit(Initialised(CONFIG), CONNECT + LEAK, WAIT);
    var c := Run(Initialised(CONFIG), CONNECT + LEAK + WAIT);
    NothingComes(c);
    V.RevivalTheorem(CONFIG, CONNECT + LEAK + WAIT);
  }

  lemma {:induction false} NothingComes(c: Client)
    requires c.config == CONFIG && c.net.requests == [Ordinary(5)] && c.net.sent == Six(false, false, false)
    requires c.net.envelopes == [Job([Handshake], Ordinary(7))]
    ensures D.Waiting(c.net) > 0 && !V.Revivable(c)
  {
    NoneArmed(c.net.sent, D.HasHandshake);
    assert c.net.envelopes[0].envelope == [Handshake];
  }

  lemma {:induction false} NoneArmed(sent: seq<Sent<Envelope>>, p: Envelope -> bool)
    requires forall k :: 0 <= k < |sent| && sent[k].timer ==> !p(sent[k].job.envelope)
    ensures S.Armed(sent, p) == 0
  {
    if sent != [] { NoneArmed(sent[..|sent| - 1], p); }
  }

  // ---------------------------------------------------------------- a client that comes to a halt

  const NEVER := Reply(OtherReply, true, Some(Advice(Never, 0)), true, [])

  lemma {:induction false} AdviceStep(c: Client)
    requires NetIs(c, [Ordinary(4)], Some(Request(3, true)), Six(true, true, true)[..4]) && c.timers == []
    requires c.status == Connected
    ensures var d := Step(c, Response(3, [NEVER]));
            && NetIs(d, [], Some(Request(3, true)), Six(true, false, true)[..4]) && d.timers == []
            && d.status == Connected && d.advice == Advice(Never, 0)
  {
    var c1 := Completed(WithNet(c, Report(c.net, 3)), Ordinary(4), true);
    assert c1.net.sent == Six(true, false, true)[..4];
    assert Replies(c1, [NEVER]) == Receive(c1, NEVER) by { assert [NEVER][1..] == []; }
    assert Receive(c1, NEVER) == c1.(advice := Advice(Never, 0));
  }

  lemma {:induction false} HaltStep(c: Client)
    requires NetIs(c, [], Some(Request(3, true)), Six(true, false, true)[..4]) && c.timers == []
    requires c.status == Connected && c.advice == Advice(Never, 0)
    ensures var d := Step(c, NetFailure(2, []));
            NetIs(d, [], None, Six(false, false, true)[..4]) && d.timers == [] && d.status == Connected
  {
    var c1 := Completed(WithNet(c, Report(c.net, 2)), Request(3, true), false);
    assert c1.net.sent == Six(false, false, true)[..4];
    assert FailMessages(c1, [Connect], []) == FailMessage(c1, Connect, []) by { assert [Connect][1..] == []; }
    assert FailMessage(c1, Connect, []) == c1.(backoff := 0);
  }

  predicate Anything(e: Envelope) {
    true
  }

  const HALT: seq<Event> := [User(Submit)] + [Response(3, [NEVER])] + [NetFailure(2, [])]

  predicate Halted(c: Client) {
    NetIs(c, [], None, Six(false, false, true)[..4]) && c.timers == [] && c.status == Connected
  }

  lemma {:induction false} HaltSteps(c: Client)
    requires Ready(c)
    ensures Halted(Run(c, HALT))
  {
    PublishStep(c);
    AdviceStep(Step(c, User(Submit)));
    Two(c, User(Submit), Response(3, [NEVER]));
    HaltStep(Run(c, [User(Submit)] + [Response(3, [NEVER])]));
    RunSnoc(c, [User(Submit)] + [Response(3, [NEVER])], NetFailure(2, []));
  }

  lemma {:induction false} HaltedSingle(c: Client)
    requires Halted(c) && S.RacesFair(c.net) && N.LongpollsConnect(c.net) && O.AppQueue(c)
    ensures O.Steady(c) && !K.Alive(c) && S.Live(c.net, Anything) == 0
  {
    NoneArmed(c.net.sent, Anything);
    NoneArmed(c.net.sent, IsDriver);
  }

  lemma {:induction false} HaltedSteady(evs: seq<Event>)
    requires Halted(Run(Initialised(CONFIG), evs))
    ensures var c := Run(Initialised(CONFIG), evs);
            O.Steady(c) && !K.Alive(c) && S.Live(c.net, Anything) == 0
  {
    RunBooks(CONFIG, evs, Connect);
    N.RunSound(CONFIG, evs);
    HaltedSingle(Run(Initialised(CONFIG), evs));
  }

  /** Connected, the reply to a message advises not to reconnect, and the long poll fails: the client stays 'connected'
      with no callback owed and no timer set, and remains without anything under way until an event restarts or
      disconnects it. */
  lemma {:induction false} HaltedRun(more: seq<Event>)
    requires K.NoneRestarts(Run(Initialised(CONFIG), CONNECT + HALT), more)
    ensures var c := Run(Initialised(CONFIG), CONNECT + HALT);
            c.status == Connected && c.timers == [] && S.Live(c.net, Anything) == 0
    ensures var d := Run(Initialised(CONFIG), CONNECT + HALT + more);
            !IsDisconnected(d) && d.timers == [] && S.Live(d.net, IsDriver) == 0
  {
    ConnectRun();
    HaltSteps(Run(Initialised(CONFIG), CONNECT));
    RunSplit(Initialised(CONFIG), CONNECT, HALT);
    HaltedSteady(CONNECT + HALT);
    K.HaltedTheorem(CONFIG, CONNECT + HALT, more);
  }

  // ---------------------------------------------------------------- a listener that starts a second driver

  const RESTARTED := Reply(HandshakeReply, false, None, true, [CallHandshake])

  /** The handshake that the listener has sent is on its way, and the handler has scheduled another one. */
  predicate Doubled(c: Client) {
    && NetIs(c, [Ordinary(2)], None, [Answered([Handshake], Ordinary(1)), Wire([Handshake], Ordinary(2))])
    && c.status == Handshaking && |c.timers| == 1 && c.timers[0].operation == SendHandshake
    && c.scheduledSend == Some(c.timers[0].id) && c.advice == Advice(Unset, 0)
  }

  lemma {:induction false} ListenerStep(c: Client)
    requires NetIs(c, [], None, [Answered([Handshake], Ordinary(1))]) && c.timers == [] && c.scheduledSend == None
    requires c.advice == Advice(Unset, 0)
    ensures var d := Listeners(c, [CallHandshake]);
            && NetIs(d, [Ordinary(2)], None, [Answered([Handshake], Ordinary(1)), Wire([Handshake], Ordinary(2))])
            && d.timers == [] && d.scheduledSend == None && d.advice == Advice(Unset, 0)
  {
    assert Listeners(c, [CallHandshake]) == PublicHandshake(c) by { assert [CallHandshake][1..] == []; }
  }

  lemma {:induction false} RestartedStep(c: Client)
    requires NetIs(c, [Ordinary(1)], None, [Wire([Handshake], Ordinary(1))])
    requires c.status == Handshaking && c.timers == [] && c.scheduledSend == None && c.advice == Advice(Unset, 0)
    ensures Doubled(Step(c, Response(0, [RESTARTED])))
  {
    var c1 := Completed(WithNet(c, Report(c.net, 0)), Ordinary(1), true);
    assert NetIs(c1, [], None, [Answered([Handshake], Ordinary(1))]);
    ListenerStep(c1);
    assert Replies(c1, [RESTARTED]) == HandshakeFailed(c1, [CallHandshake]) by { assert [RESTARTED][1..] == []; }
  }

  /** The second one finds the slot taken. */
  predicate Waits(c: Client) {
    && c.config == CONFIG && c.net.requests == [Ordinary(2)] && c.net.longpollRequest == None && c.net.doomed == []
    && c.net.sent == [Answered([Handshake], Ordinary(1)), Wire([Handshake], Ordinary(2))]
    && c.net.envelopes == [Job([Handshake], Ordinary(3))] && c.net.requestIds == 3
    && c.timers == [] && c.advice == Advice(Unset, 0)
  }

  lemma {:induction false} SecondStep(c: Client)
    requires Doubled(c)
    ensures Waits(Step(c, Fire(0)))
  {
    assert c.timers[..0] + c.timers[1..] == [];
  }

  /** The first handshake has succeeded, which has also sent the second one. */
  predicate Both(c: Client, sent: seq<Sent<Envelope>>, longpoll: Option<Request>) {
    && c.config == CONFIG && c.net.requests == [Ordinary(4)] && c.net.longpollRequest == longpoll
    && c.net.sent == sent && c.net.envelopes == [] && c.advice == Advice(Unset, 0)
  }

  predicate ConnectsLater(c: Client) {
    |c.timers| == 1 && c.timers[0].operation == SendConnect && c.scheduledSend == Some(c.timers[0].id)
  }

  function Handshakes(second: bool): seq<Sent<Envelope>> {
    [Answered([Handshake], Ordinary(1)), Answered([Handshake], Ordinary(2)),
     if second then Wire([Handshake], Ordinary(4)) else Answered([Handshake], Ordinary(4))]
  }

  lemma {:induction false} FirstSucceeds(c: Client)
    requires Waits(c)
    ensures var d := Step(c, Response(1, [Accepted(HandshakeReply)]));
            Both(d, Handshakes(true), None) && ConnectsLater(d) && d.net.requestIds == 4
  {
    var c1 := Completed(WithNet(c, Report(c.net, 1)), Ordinary(2), true);
    assert c.net.envelopes[1..] == [];
    assert c1.net.sent == Handshakes(true);
    assert Replies(c1, [Accepted(HandshakeReply)]) == DelayedConnect(c1) by {
      assert [Accepted(HandshakeReply)][1..] == [];
    }
  }

  lemma {:induction false} FirstPolls(c: Client)
    requires Both(c, Handshakes(true), None) && ConnectsLater(c) && c.net.requestIds == 4
    ensures var d := Step(c, Fire(0));
            Both(d, Handshakes(true) + [Wire([Connect], Request(5, true))], Some(Request(5, true))) && d.timers == []
  {
    assert c.timers[..0] + c.timers[1..] == [];
  }

  lemma {:induction false} SecondSucceeds(c: Client)
    requires Both(c, Handshakes(true) + [Wire([Connect], Request(5, true))], Some(Request(5, true))) && c.timers == []
    ensures O.Throws(Step(c, Response(2, [Accepted(HandshakeReply)])), Fire(0))
  {
    var c1 := Completed(WithNet(c, Report(c.net, 2)), Ordinary(4), true);
    assert Replies(c1, [Accepted(HandshakeReply)]) == DelayedConnect(c1) by {
      assert [Accepted(HandshakeReply)][1..] == [];
    }
    assert c1.net.longpollRequest.Some? && c1.timers == [];
  }

  const TWICE: seq<Event> :=
    [Fire(0)] + [Response(1, [Accepted(HandshakeReply)])] +
    ([Fire(0)] + [Response(2, [Accepted(HandshakeReply)])])

  lemma {:induction false} TwiceSteps(c: Client)
    requires Doubled(c)
    ensures O.Throws(Run(c, TWICE), Fire(0))
  {
    SecondStep(c);
    FirstSucceeds(Step(c, Fire(0)));
    Two(c, Fire(0), Response(1, [Accepted(HandshakeReply)]));
    var d := Run(c, [Fire(0)] + [Response(1, [Accepted(HandshakeReply)])]);
    FirstPolls(d);
    SecondSucceeds(Step(d, Fire(0)));
    Two(d, Fire(0), Response(2, [Accepted(HandshakeReply)]));
    RunSplit(c, [Fire(0)] + [Response(1, [Accepted(HandshakeReply)])],
             [Fire(0)] + [Response(2, [Accepted(HandshakeReply)])]);
  }

  /** The first handshake is refused, and a listener calls `handshake()`: two drivers are under way, both handshakes
      succeed, and the second long poll throws. */
  lemma {:induction false} TwoDriversRun()
    ensures var c := Run(Initialised(CONFIG), [Response(0, [RESTARTED])]);
            |c.timers| == 1 && c.net.sent == [Answered([Handshake], Ordinary(1)), Wire([Handshake], Ordinary(2))]
    ensures O.Throws(Run(Initialised(CONFIG), [Response(0, [RESTARTED])] + TWICE), Fire(0))
  {
    Started();
    RestartedStep(Initialised(CONFIG));
    var first := Response(0, [RESTARTED]);
    assert Run(Initialised(CONFIG), [first]) == Step(Initialised(CONFIG), first) by {
      assert [Response(0, [RESTARTED])][..0] == [];
    }
    TwiceSteps(Run(Initialised(CONFIG), [Response(0, [RESTARTED])]));
    RunSplit(Initialised(CONFIG), [Response(0, [RESTARTED])], TWICE);
  }
}
