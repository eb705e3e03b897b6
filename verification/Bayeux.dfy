/**
  The Bayeux client of media/js/cometd.js as a state machine over the request scheduler.

  The network, the timers and the server are events.  Listeners run in the middle of the handlers, so every
  handler takes the list of calls (`Act`) that the listeners notified there make on the client.
 */
module Bayeux {
  import opened Options
  import opened Scheduler

  datatype Status = Disconnected | Handshaking | Connecting | Connected | Disconnecting

  /** Application messages (publish, subscribe, unsubscribe, send) are numbered in the order they are given. */
  datatype Message = Handshake | Connect | Disconnect | App(number: nat)
  type Envelope = seq<Message>

  datatype Reconnect = Unset | Retry | Rehandshake | Never | Unknown
  datatype Advice = Advice(reconnect: Reconnect, interval: int)

  datatype Operation = SendConnect | SendHandshake
  datatype Timer = Timer(id: nat, operation: Operation, delay: int)

  datatype Config = Config(maxConnections: int, backoffIncrement: int, maxBackoff: int)

  /** A message that reached `_send`, with the internal batch flag at that moment. */
  datatype Logged = Logged(message: Message, internalBatch: bool)

  datatype Client = Client(
    config: Config,
    status: Status,
    batch: int,
    internalBatch: bool,
    messageQueue: seq<Message>,
    backoff: int,
    advice: Advice,
    scheduledSend: Option<nat>,
    net: Net<Envelope>,
    // the browser's live delayed-send timers
    timerIds: nat,
    timers: seq<Timer>,
    // what has happened so far
    submitted: nat,
    log: seq<Logged>,
    discarded: seq<Message>,
    left: seq<nat>,        // the application messages that reached `_send` or were discarded, in that order
    overtaken: set<nat>,   // those that were held, outside any batch, when a later one was sent
    heldBack: nat)         // the `endBatch` calls that left messages held because of a disconnection

  function Fresh(config: Config): Client {
    Client(config, Disconnected, 0, false, [], 0, Advice(Unset, 0), None, EmptyNet(), 0, [], 0, [], [], [], {}, 0)
  }

  /** What a listener or the application may call. */
  datatype Act = Submit | StartBatch | EndBatch | CallDisconnect | CallHandshake

  datatype ReplyKind = HandshakeReply | ConnectReply | DisconnectReply | OtherReply

  /** A message received from the server; `negotiated` says that a transport in common was found. */
  datatype Reply = Reply(kind: ReplyKind, successful: bool, advice: Option<Advice>, negotiated: bool, acts: seq<Act>)

  predicate IsDisconnected(c: Client) {
    c.status == Disconnecting || c.status == Disconnected
  }

  // ---------------------------------------------------------------- sending and batching

  function Log(messages: seq<Message>, internalBatch: bool): (r: seq<Logged>)
    ensures |r| == |messages|
    ensures forall i :: 0 <= i < |r| ==> r[i] == Logged(messages[i], internalBatch)
  {
    if messages == [] then [] else [Logged(messages[0], internalBatch)] + Log(messages[1..], internalBatch)
  }

  /** The numbers of the application messages among them. */
  function Numbers(ms: seq<Message>): seq<nat> {
    if ms == [] then [] else (if ms[0].App? then [ms[0].number] else []) + Numbers(ms[1..])
  }

  /** `_send`: a concurrent long poll throws after the message has reached `_send`. */
  function SendMessages(c: Client, messages: seq<Message>, longpoll: bool): Client {
    c.(log := c.log + Log(messages, c.internalBatch), left := c.left + Numbers(messages),
       net := Send(c.config.maxConnections, c.net, messages, longpoll))
  }

  function HeldNumbers(c: Client): set<nat> {
    set n | n in Numbers(c.messageQueue)
  }

  function QueueMessage(c: Client): Client {
    var m, c1 := App(c.submitted), c.(submitted := c.submitted + 1);
    if c.batch > 0 || c.internalBatch then c1.(messageQueue := c.messageQueue + [m])
    else SendMessages(c1.(overtaken := c.overtaken + HeldNumbers(c)), [m], false)
  }

  function FlushBatch(c: Client): Client {
    if c.messageQueue == [] then c
    else SendMessages(c.(messageQueue := []), c.messageQueue, false)
  }

  /** An `endBatch` that closes the last batch while disconnected leaves the queue as it is. */
  predicate HoldsBack(c: Client) {
    c.batch == 1 && IsDisconnected(c) && !c.internalBatch && c.messageQueue != []
  }

  /** `_endBatch`: an unpaired call throws, but only after the counter has gone below zero. */
  function DoEndBatch(c: Client): Client {
    var c1 := c.(batch := c.batch - 1, heldBack := if HoldsBack(c) then c.heldBack + 1 else c.heldBack);
    if c1.batch == 0 && !IsDisconnected(c) && !c.internalBatch then FlushBatch(c1) else c1
  }

  function DoDisconnect(c: Client): Client {
    if IsDisconnected(c) then c else SendMessages(c.(status := Disconnecting), [Disconnect], false)
  }

  // ---------------------------------------------------------------- delayed sends, handshake, connect

  function LiveExcept(timers: seq<Timer>, id: nat): seq<Timer> {
    if timers == [] then []
    else (if timers[0].id == id then [] else [timers[0]]) + LiveExcept(timers[1..], id)
  }

  function CancelDelayedSend(c: Client): Client {
    c.(scheduledSend := None,
       timers := if c.scheduledSend.Some? then LiveExcept(c.timers, c.scheduledSend.value) else c.timers)
  }

  function DelayedSend(c: Client, operation: Operation): Client {
    var c1 := CancelDelayedSend(c);
    var delay := c.backoff + if c.advice.interval > 0 then c.advice.interval else 0;
    var id := c.timerIds + 1;
    c1.(timerIds := id, timers := c1.timers + [Timer(id, operation, delay)], scheduledSend := Some(id))
  }

  function IncreaseBackoff(c: Client): Client {
    if c.backoff < c.config.maxBackoff then c.(backoff := c.backoff + c.config.backoffIncrement) else c
  }

  function DoConnect(c: Client): Client {
    var c1 := SendMessages(c.(status := Connecting), [Connect], true);
    if ConcurrentLongpoll(c.net) then c1 else c1.(status := Connected)
  }

  function DelayedConnect(c: Client): Client {
    DelayedSend(c.(status := Connecting), SendConnect)
  }

  function DoHandshake(c: Client): Client {
    var c1 := if IsDisconnected(c) then c.(net := Reset(c.net)) else c;
    SendMessages(c1.(batch := 0, internalBatch := true, status := Handshaking), [Handshake], false)
  }

  /** The public `handshake()`. */
  function PublicHandshake(c: Client): Client {
    DoHandshake(c.(status := Disconnected))
  }

  function DelayedHandshake(c: Client): Client {
    DelayedSend(c.(status := Handshaking, internalBatch := true), SendHandshake)
  }

  // ---------------------------------------------------------------- what the application and listeners call

  function Perform(c: Client, act: Act): Client {
    match act
    case Submit => QueueMessage(c)
    case StartBatch => c.(batch := c.batch + 1)
    case EndBatch => DoEndBatch(c)
    case CallDisconnect => DoDisconnect(c)
    case CallHandshake => PublicHandshake(c)
  }

  function Listeners(c: Client, acts: seq<Act>): Client
    decreases acts
  {
    if acts == [] then c else Listeners(Perform(c, acts[0]), acts[1..])
  }

  // ---------------------------------------------------------------- replies

  function Action(advice: Advice): Reconnect {
    if advice.reconnect == Unset then Retry else advice.reconnect
  }

  /** Shared by an unsuccessful handshake reply and a failed handshake request. */
  function HandshakeFailed(c: Client, acts: seq<Act>): Client {
    var retry := !IsDisconnected(c) && c.advice.reconnect != Never;
    if retry then DelayedHandshake(IncreaseBackoff(Listeners(c, acts)))
    else Listeners(c.(status := Disconnected), acts)
  }

  function HandshakeSucceeded(c: Client, acts: seq<Act>): Client {
    var c1 := Listeners(c, acts);
    if Action(c1.advice) == Retry then DelayedConnect(c1) else c1
  }

  /** The action a connect reply is going to take, decided before the listeners run. */
  function ConnectAction(c: Client): Reconnect {
    if IsDisconnected(c) then Never else Action(c.advice)
  }

  function ConnectStatus(c: Client): Client {
    if IsDisconnected(c) then c
    else c.(status := if ConnectAction(c) == Retry then Connecting else Disconnecting)
  }

  /** A successful connect ends the internal batch and flushes, even inside a user batch. */
  function ConnectSucceeded(c: Client, action: Reconnect, acts: seq<Act>): Client {
    var c1 := Listeners(FlushBatch(c.(internalBatch := false)), acts).(backoff := 0);
    if action == Retry then DelayedConnect(c1) else c1.(status := Disconnected)
  }

  function ConnectRefused(c: Client, action: Reconnect, acts: seq<Act>): Client {
    var c1 := Listeners(c, acts);
    match action
    case Retry => DelayedConnect(IncreaseBackoff(c1))
    case Rehandshake => DelayedHandshake(c1.(backoff := 0))
    case Never => c1.(backoff := 0, status := Disconnected)
    case _ => c1
  }

  function ConnectResponse(c: Client, successful: bool, acts: seq<Act>): Client {
    if successful then ConnectSucceeded(ConnectStatus(c), ConnectAction(c), acts)
    else ConnectRefused(ConnectStatus(c), ConnectAction(c), acts)
  }

  function ConnectFailed(c: Client, acts: seq<Act>): Client {
    var c1 := Listeners(c, acts);
    if IsDisconnected(c1) then c1
    else
      match Action(c1.advice)
      case Retry => DelayedConnect(IncreaseBackoff(c1))
      case Rehandshake => DelayedHandshake(c1.(backoff := 0))
      case Never => c1.(backoff := 0)
      case _ => c1
  }

  /** `_disconnect(abort)`. */
  function Disconnection(c: Client, abort: bool): Client {
    var c1 := CancelDelayedSend(c);
    c1.(net := if abort then Reset(c.net) else c.net,
        status := Disconnected, batch := 0, messageQueue := [], backoff := 0,
        discarded := c.discarded + c.messageQueue, left := c.left + Numbers(c.messageQueue))
  }

  /** True when processing this reply throws, which abandons the rest of the response. */
  predicate Negotiation(r: Reply) {
    r.kind == HandshakeReply && r.successful && !r.negotiated
  }

  function Receive(c: Client, r: Reply): Client {
    var c1 := if r.advice.Some? then c.(advice := r.advice.value) else c;
    match r.kind
    case HandshakeReply =>
      if !r.successful then HandshakeFailed(c1, r.acts)
      else if r.negotiated then HandshakeSucceeded(c1, r.acts)
      else c1
    case ConnectReply => ConnectResponse(c1, r.successful, r.acts)
    case DisconnectReply => Listeners(Disconnection(c1, !r.successful), r.acts)
    case OtherReply => Listeners(c1, r.acts)
  }

  function Replies(c: Client, rs: seq<Reply>): Client
    decreases rs
  {
    if rs == [] then c
    else if Negotiation(rs[0]) then Receive(c, rs[0])
    else Replies(Receive(c, rs[0]), rs[1..])
  }

  /** The failure of one message; `acts` is what its listeners do. */
  function FailMessage(c: Client, m: Message, acts: seq<Act>): Client {
    match m
    case Handshake => HandshakeFailed(c, acts)
    case Connect => ConnectFailed(c, acts)
    case Disconnect => Listeners(Disconnection(c, true), acts)
    case App(_) => Listeners(c, acts)
  }

  function FailMessages(c: Client, ms: seq<Message>, acts: seq<seq<Act>>): Client
    decreases ms
  {
    if ms == [] then c
    else FailMessages(FailMessage(c, ms[0], if acts == [] then [] else acts[0]), ms[1..],
                      if acts == [] then [] else acts[1..])
  }

  // ---------------------------------------------------------------- callbacks and events

  predicate Mismatch(c: Client, request: Request) {
    request.longpoll && LongpollMismatch(c.net, request)
  }

  function Completed(c: Client, request: Request, success: bool): Client {
    c.(net := CompleteAny(c.config.maxConnections, c.net, request, success, request.longpoll))
  }

  /** `_handleResponse` of a response that could be read. */
  function HandleResponse(c: Client, request: Request, rs: seq<Reply>): Client {
    if Mismatch(c, request) then c else Replies(Completed(c, request, true), rs)
  }

  function HandleFailure(c: Client, job: Job<Envelope>, acts: seq<seq<Act>>): Client {
    if Mismatch(c, job.request) then c
    else FailMessages(Completed(c, job.request, false), job.envelope, acts)
  }

  datatype Event =
    | Response(k: nat, replies: seq<Reply>)
    | Unreadable(k: nat)
    | NetFailure(k: nat, acts: seq<seq<Act>>)
    | Timeout(k: nat, acts: seq<seq<Act>>)
    | FailTask(j: nat, acts: seq<seq<Act>>)
    | Fire(i: nat)
    | User(act: Act)

  function WithNet(c: Client, net: Net<Envelope>): Client {
    c.(net := net)
  }

  function OnResponse(c: Client, k: nat, rs: seq<Reply>): Client
    requires k < |c.net.sent|
  {
    var c1 := WithNet(c, Report(c.net, k));
    if Reports(c.net, k) then HandleResponse(c1, c.net.sent[k].job.request, rs) else c1
  }

  function OnNetFailure(c: Client, k: nat, acts: seq<seq<Act>>): Client
    requires k < |c.net.sent|
  {
    var c1 := WithNet(c, Report(c.net, k));
    if Reports(c.net, k) then HandleFailure(c1, c.net.sent[k].job, acts) else c1
  }

  function OnTimeout(c: Client, k: nat, acts: seq<seq<Act>>): Client
    requires k < |c.net.sent|
  {
    if c.net.sent[k].timer then HandleFailure(WithNet(c, Expire(c.net, k)), c.net.sent[k].job, acts) else c
  }

  function OnFailTask(c: Client, j: nat, acts: seq<seq<Act>>): Client
    requires j < |c.net.doomed|
  {
    HandleFailure(WithNet(c, Doom(c.net, j)), c.net.doomed[j], acts)
  }

  function OnFire(c: Client, i: nat): Client
    requires i < |c.timers|
  {
    var c1 := c.(timers := c.timers[..i] + c.timers[i + 1..]);
    match c.timers[i].operation
    case SendConnect => DoConnect(c1)
    case SendHandshake => DoHandshake(c1)
  }

  function Step(c: Client, ev: Event): Client {
    match ev
    case Response(k, rs) => if k < |c.net.sent| then OnResponse(c, k, rs) else c
    case Unreadable(k) => if k < |c.net.sent| then WithNet(c, Report(c.net, k)) else c
    case NetFailure(k, acts) => if k < |c.net.sent| then OnNetFailure(c, k, acts) else c
    case Timeout(k, acts) => if k < |c.net.sent| then OnTimeout(c, k, acts) else c
    case FailTask(j, acts) => if j < |c.net.doomed| then OnFailTask(c, j, acts) else c
    case Fire(i) => if i < |c.timers| then OnFire(c, i) else c
    case User(act) => Perform(c, act)
  }

  function Run(c: Client, evs: seq<Event>): Client
    decreases evs
  {
    if evs == [] then c else Step(Run(c, evs[..|evs| - 1]), evs[|evs| - 1])
  }

  /** The state that `init(config)` leaves behind. */
  function Initialised(config: Config): Client {
    PublicHandshake(Fresh(config))
  }
}
