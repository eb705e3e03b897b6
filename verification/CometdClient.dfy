/** `org.cometd.Cometd` itself: the client whose handlers update its fields, each tied to the machine of Bayeux. */
module CometdClient {
  import opened Options
  import opened Scheduler
  import opened Transports
  import M = Bayeux
  import opened Bayeux

  class Cometd {
    const config: Config
    const transport: Transport<Envelope>
    var status: Status
    var batch: int
    var internalBatch: bool
    var messageQueue: seq<Message>
    var backoff: int
    var advice: Advice
    var scheduledSend: Option<nat>
    var timerIds: nat
    var timers: seq<Timer>
    var submitted: nat
    ghost var log: seq<Logged>
    ghost var discarded: seq<Message>
    ghost var left: seq<nat>
    ghost var overtaken: set<nat>
    ghost var heldBack: nat

    ghost predicate Valid()
      reads this, transport
    {
      transport.maxConnections == config.maxConnections
    }

    ghost function View(): Client
      reads this, transport
    {
      Client(config, status, batch, internalBatch, messageQueue, backoff, advice, scheduledSend, transport.View(),
             timerIds, timers, submitted, log, discarded, left, overtaken, heldBack)
    }

    constructor (config: Config)
      ensures Valid() && fresh(transport)
      ensures View() == Fresh(config)
    {
      this.config := config;
      transport := new Transport(config.maxConnections);
      status, batch, internalBatch, messageQueue, backoff := Status.Disconnected, 0, false, [], 0;
      advice, scheduledSend, timerIds, timers, submitted := Advice(Unset, 0), None, 0, [], 0;
      log, discarded, left, overtaken, heldBack := [], [], [], {}, 0;
    }

    // -------------------------------------------------------------- sending and batching

    method Send(messages: seq<Message>, longpoll: bool) returns (threw: bool)
      requires Valid()
      modifies this, transport
      ensures Valid() && threw == (longpoll && ConcurrentLongpoll(old(transport.View())))
      ensures View() == SendMessages(old(View()), messages, longpoll)
    {
      log := log + Log(messages, internalBatch);
      left := left + Numbers(messages);
      threw := transport.Send(messages, longpoll);
    }

    method QueueSend()
      requires Valid()
      modifies this, transport
      ensures Valid() && View() == QueueMessage(old(View()))
    {
      var message := App(submitted);
      submitted := submitted + 1;
      if batch > 0 || internalBatch {
        messageQueue := messageQueue + [message];
      } else {
        overtaken := overtaken + HeldNumbers(View());
        var _ := Send([message], false);
      }
    }

    method FlushBatch()
      requires Valid()
      modifies this, transport
      ensures Valid() && View() == M.FlushBatch(old(View()))
    {
      var messages := messageQueue;
      messageQueue := [];
      if |messages| > 0 {
        var _ := Send(messages, false);
      }
    }

    method StartBatch()
      requires Valid()
      modifies this
      ensures Valid() && View() == M.Perform(old(View()), Act.StartBatch)
    {
      batch := batch + 1;
    }

    /** Throws when the calls are not paired. */
    method EndBatch() returns (threw: bool)
      requires Valid()
      modifies this, transport
      ensures Valid() && threw == (old(batch) <= 0)
      ensures View() == DoEndBatch(old(View()))
    {
      if HoldsBack(View()) {
        heldBack := heldBack + 1;
      }
      batch := batch - 1;
      if batch < 0 {
        return true;
      }
      if batch == 0 && status != Disconnecting && status != Status.Disconnected && !internalBatch {
        FlushBatch();
      }
      return false;
    }

    method CallDisconnect()
      requires Valid()
      modifies this, transport
      ensures Valid() && View() == DoDisconnect(old(View()))
    {
      if status == Disconnecting || status == Status.Disconnected {
        return;
      }
      status := Disconnecting;
      var _ := Send([Message.Disconnect], false);
    }

    method Perform(act: Act)
      requires Valid()
      modifies this, transport
      ensures Valid() && View() == M.Perform(old(View()), act)
    {
      match act
      case Submit => QueueSend();
      case StartBatch => StartBatch();
      case EndBatch => var _ := EndBatch();
      case CallDisconnect => CallDisconnect();
      case CallHandshake => Handshake();
    }

    /** `_notifyListeners`, as far as the client's own state is concerned. */
    method NotifyListeners(acts: seq<Act>)
      requires Valid()
      modifies this, transport
      ensures Valid() && View() == Listeners(old(View()), acts)
    {
      var i := 0;
      while i < |acts|
        invariant 0 <= i <= |acts| && Valid()
        invariant Listeners(View(), acts[i..]) == Listeners(old(View()), acts)
      {
        Perform(acts[i]);
        assert acts[i..][1..] == acts[i + 1..];
        i := i + 1;
      }
    }

    // -------------------------------------------------------------- delayed sends, handshake, connect

    method CancelDelayedSend()
      requires Valid()
      modifies this
      ensures Valid() && View() == M.CancelDelayedSend(old(View()))
    {
      if scheduledSend.Some? {
        timers := LiveExcept(timers, scheduledSend.value);
      }
      scheduledSend := None;
    }

    method DelayedSend(operation: Operation)
      requires Valid()
      modifies this
      ensures Valid() && View() == M.DelayedSend(old(View()), operation)
    {
      CancelDelayedSend();
      var delay := backoff;
      if advice.interval > 0 {
        delay := delay + advice.interval;
      }
      timerIds := timerIds + 1;
      timers := timers + [Timer(timerIds, operation, delay)];
      scheduledSend := Some(timerIds);
    }

    method IncreaseBackoff()
      requires Valid()
      modifies this
      ensures Valid() && View() == M.IncreaseBackoff(old(View()))
    {
      if backoff < config.maxBackoff {
        backoff := backoff + config.backoffIncrement;
      }
    }

    /** Throws, and leaves the status 'connecting', when a long poll is already outstanding. */
    method Connect() returns (threw: bool)
      requires Valid()
      modifies this, transport
      ensures Valid() && threw == ConcurrentLongpoll(old(transport.View()))
      ensures View() == DoConnect(old(View()))
    {
      status := Connecting;
      threw := Send([Message.Connect], true);
      if !threw {
        status := Connected;
      }
    }

    method DelayedConnect()
      requires Valid()
      modifies this
      ensures Valid() && View() == M.DelayedConnect(old(View()))
    {
      status := Connecting;
      DelayedSend(SendConnect);
    }

    method StartHandshake()
      requires Valid()
      modifies this, transport
      ensures Valid() && View() == DoHandshake(old(View()))
    {
      if status == Disconnecting || status == Status.Disconnected {
        transport.Reset();
      }
      batch := 0;
      // Hold the application's messages until the first connect succeeds
      internalBatch := true;
      status := Handshaking;
      var _ := Send([Message.Handshake], false);
    }

    method Handshake()
      requires Valid()
      modifies this, transport
      ensures Valid() && View() == PublicHandshake(old(View()))
    {
      status := Status.Disconnected;
      StartHandshake();
    }

    method DelayedHandshake()
      requires Valid()
      modifies this
      ensures Valid() && View() == M.DelayedHandshake(old(View()))
    {
      status := Handshaking;
      internalBatch := true;
      DelayedSend(SendHandshake);
    }

    // -------------------------------------------------------------- replies and failures

    method HandshakeFailed(acts: seq<Act>)
      requires Valid()
      modifies this, transport
      ensures Valid() && View() == M.HandshakeFailed(old(View()), acts)
    {
      var retry := status != Disconnecting && status != Status.Disconnected && advice.reconnect != Never;
      if !retry {
        status := Status.Disconnected;
      }
      NotifyListeners(acts);
      if retry {
        IncreaseBackoff();
        DelayedHandshake();
      }
    }

    method HandshakeResponse(r: Reply) returns (threw: bool)
      requires Valid() && r.kind == HandshakeReply
      modifies this, transport
      ensures Valid() && threw == Negotiation(r)
      ensures View() == if !r.successful then M.HandshakeFailed(old(View()), r.acts)
                        else if r.negotiated then HandshakeSucceeded(old(View()), r.acts)
                        else old(View())
    {
      threw := false;
      if r.successful {
        if !r.negotiated {
          return true;
        }
        NotifyListeners(r.acts);
        if Action(advice) == Retry {
          DelayedConnect();
        }
      } else {
        HandshakeFailed(r.acts);
      }
    }

    method ConnectResponse(successful: bool, acts: seq<Act>)
      requires Valid()
      modifies this, transport
      ensures Valid() && View() == M.ConnectResponse(old(View()), successful, acts)
    {
      var action := Never;
      if status != Disconnecting && status != Status.Disconnected {
        action := Action(advice);
        status := if action == Retry then Connecting else Disconnecting;
      }
      if successful {
        ConnectSucceeded(action, acts);
      } else {
        ConnectRefused(action, acts);
      }
    }

    method ConnectSucceeded(action: Reconnect, acts: seq<Act>)
      requires Valid()
      modifies this, transport
      ensures Valid() && View() == M.ConnectSucceeded(old(View()), action, acts)
    {
      internalBatch := false;
      FlushBatch();
      NotifyListeners(acts);
      backoff := 0;
      if action == Retry {
        DelayedConnect();
      } else {
        status := Status.Disconnected;
      }
    }

    method ConnectRefused(action: Reconnect, acts: seq<Act>)
      requires Valid()
      modifies this, transport
      ensures Valid() && View() == M.ConnectRefused(old(View()), action, acts)
    {
      NotifyListeners(acts);
      match action
      case Retry =>
        IncreaseBackoff();
        DelayedConnect();
      case Rehandshake =>
        backoff := 0;
        DelayedHandshake();
      case Never =>
        backoff := 0;
        status := Status.Disconnected;
      case _ =>
    }

    method ConnectFailure(acts: seq<Act>)
      requires Valid()
      modifies this, transport
      ensures Valid() && View() == ConnectFailed(old(View()), acts)
    {
      NotifyListeners(acts);
      if status != Disconnecting && status != Status.Disconnected {
        match Action(advice)
        case Retry =>
          IncreaseBackoff();
          DelayedConnect();
        case Rehandshake =>
          backoff := 0;
          DelayedHandshake();
        case Never =>
          backoff := 0;
        case _ =>
      }
    }

    method Disconnect(abort: bool)
      requires Valid()
      modifies this, transport
      ensures Valid() && View() == Disconnection(old(View()), abort)
    {
      CancelDelayedSend();
      if abort {
        transport.Reset();
      }
      status := Status.Disconnected;
      batch := 0;
      discarded := discarded + messageQueue;
      left := left + Numbers(messageQueue);
      messageQueue := [];
      backoff := 0;
    }

    method Receive(r: Reply) returns (threw: bool)
      requires Valid()
      modifies this, transport
      ensures Valid() && threw == Negotiation(r)
      ensures View() == M.Receive(old(View()), r)
    {
      if r.advice.Some? {
        advice := r.advice.value;
      }
      threw := false;
      match r.kind
      case HandshakeReply => threw := HandshakeResponse(r);
      case ConnectReply => ConnectResponse(r.successful, r.acts);
      case DisconnectReply =>
        Disconnect(!r.successful);
        NotifyListeners(r.acts);
      case OtherReply => NotifyListeners(r.acts);
    }

    method HandleResponse(request: Request, replies: seq<Reply>)
      requires Valid()
      modifies this, transport
      ensures Valid() && View() == M.HandleResponse(old(View()), request, replies)
    {
      var threw := transport.CompleteAny(request, true, request.longpoll);
      var i := 0;
      ghost var start := View();
      while i < |replies| && !threw
        invariant 0 <= i <= |replies| && Valid()
        invariant Mismatch(old(View()), request) ==> threw && i == 0 && View() == old(View())
        invariant !Mismatch(old(View()), request) && !threw ==> Replies(View(), replies[i..]) == Replies(start, replies)
        invariant !Mismatch(old(View()), request) && threw ==> View() == Replies(start, replies)
      {
        threw := Receive(replies[i]);
        assert replies[i..][1..] == replies[i + 1..];
        i := i + 1;
      }
    }

    method FailMessage(message: Message, acts: seq<Act>)
      requires Valid()
      modifies this, transport
      ensures Valid() && View() == M.FailMessage(old(View()), message, acts)
    {
      match message
      case Handshake => HandshakeFailed(acts);
      case Connect => ConnectFailure(acts);
      case Disconnect =>
        Disconnect(true);
        NotifyListeners(acts);
      case App(_) => NotifyListeners(acts);
    }

    method HandleFailure(job: Job<Envelope>, acts: seq<seq<Act>>)
      requires Valid()
      modifies this, transport
      ensures Valid() && View() == M.HandleFailure(old(View()), job, acts)
    {
      var threw := transport.CompleteAny(job.request, false, job.request.longpoll);
      if threw {
        return;
      }
      var messages, rest := job.envelope, acts;
      ghost var start := View();
      for i := 0 to |messages|
        invariant Valid()
        invariant FailMessages(View(), messages[i..], rest) == FailMessages(start, messages, acts)
      {
        FailMessage(messages[i], if rest == [] then [] else rest[0]);
        assert messages[i..][1..] == messages[i + 1..];
        rest := if rest == [] then [] else rest[1..];
      }
    }

    // -------------------------------------------------------------- what the browser reports

    method OnResponse(k: nat, replies: seq<Reply>)
      requires Valid() && k < |transport.sent|
      modifies this, transport
      ensures Valid() && View() == M.OnResponse(old(View()), k, replies)
    {
      var request := transport.sent[k].job.request;
      var callback := transport.Report(k);
      if callback {
        HandleResponse(request, replies);
      }
    }

    method OnNetFailure(k: nat, acts: seq<seq<Act>>)
      requires Valid() && k < |transport.sent|
      modifies this, transport
      ensures Valid() && View() == M.OnNetFailure(old(View()), k, acts)
    {
      var job := transport.sent[k].job;
      var callback := transport.Report(k);
      if callback {
        HandleFailure(job, acts);
      }
    }

    method OnTimeout(k: nat, acts: seq<seq<Act>>)
      requires Valid() && k < |transport.sent|
      modifies this, transport
      ensures Valid() && View() == M.OnTimeout(old(View()), k, acts)
    {
      var job := transport.sent[k].job;
      var callback := transport.Expire(k);
      if callback {
        HandleFailure(job, acts);
      }
    }

    method OnFailTask(j: nat, acts: seq<seq<Act>>)
      requires Valid() && j < |transport.doomed|
      modifies this, transport
      ensures Valid() && View() == M.OnFailTask(old(View()), j, acts)
    {
      var job := transport.Doom(j);
      HandleFailure(job, acts);
    }

    method OnFire(i: nat)
      requires Valid() && i < |timers|
      modifies this, transport
      ensures Valid() && View() == M.OnFire(old(View()), i)
    {
      var operation := timers[i].operation;
      timers := timers[..i] + timers[i + 1..];
      match operation
      case SendConnect => var _ := Connect();
      case SendHandshake => StartHandshake();
    }
  }
}
