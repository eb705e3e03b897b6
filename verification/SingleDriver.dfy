/**
  At any moment at most one thing keeps the conversation with the server going: a handshake on its way, a pending
  delayed send, or a long poll on its way.
 */
module SingleDriver {
  import opened Options
  import opened Scheduler
  import opened Bayeux
  import opened ClientSteps
  import S = SchedulerRuns
  import N = ClientNet

  function Carried(n: Net<Envelope>): nat {
    S.Live(n, IsDriver)
  }

  /** Handshakes outstanding, long polls outstanding and live delayed-send timers. */
  function Drivers(c: Client): nat {
    |c.timers| + Carried(c.net)
  }

  /** The only live timer is the one that `_cancelDelayedSend` would cancel. */
  predicate OneTimer(c: Client) {
    |c.timers| <= 1 && (c.timers != [] ==> c.scheduledSend == Some(c.timers[0].id))
  }

  ghost predicate LongpollsAreDrivers(n: Net<Envelope>) {
    && (forall k :: 0 <= k < |n.sent| && n.sent[k].job.request.longpoll ==> IsDriver(n.sent[k].job.envelope))
    && (n.longpollRequest.Some? ==> n.longpollRequest.value.longpoll)
  }

  /** The reserved slot is held by a request that is still owed its callback. */
  ghost predicate SlotInUse(n: Net<Envelope>) {
    exists k :: 0 <= k < |n.sent| && n.sent[k].timer && Some(n.sent[k].job.request) == n.longpollRequest
  }

  ghost predicate Base(c: Client) {
    OneTimer(c) && S.RacesFair(c.net) && LongpollsAreDrivers(c.net)
  }

  ghost predicate Single(c: Client) {
    Base(c) && Drivers(c) <= 1 && (c.net.longpollRequest.Some? && Drivers(c) > 0 ==> SlotInUse(c.net))
  }

  /** Nothing is on its way and the reserved slot is free: a new driver may start. */
  ghost predicate Quiet(c: Client) {
    Base(c) && Carried(c.net) == 0 && c.net.longpollRequest.None?
  }

  // ---------------------------------------------------------------- counting

  lemma {:induction false} ArmedOne(s: seq<Sent<Envelope>>, k: nat)
    requires k < |s| && s[k].timer && IsDriver(s[k].job.envelope)
    ensures S.Armed(s, IsDriver) >= 1
  {
    if k < |s| - 1 { ArmedOne(s[..|s| - 1], k); }
  }

  lemma {:induction false} ArmedTwo(s: seq<Sent<Envelope>>, j: nat, k: nat)
    requires j < k < |s| && s[j].timer && IsDriver(s[j].job.envelope) && s[k].timer && IsDriver(s[k].job.envelope)
    ensures S.Armed(s, IsDriver) >= 2
  {
    if k < |s| - 1 { ArmedTwo(s[..|s| - 1], j, k); } else { ArmedOne(s[..|s| - 1], j); }
  }

  // ---------------------------------------------------------------- steps that leave the drivers alone

  /** `d` differs from `c` at most in what ordinary, driverless sending does. */
  ghost predicate Calm(c: Client, d: Client) {
    && d.timers == c.timers && d.scheduledSend == c.scheduledSend
    && Carried(d.net) == Carried(c.net) && d.net.longpollRequest == c.net.longpollRequest
    && c.net.sent <= d.net.sent
    && S.RacesFair(d.net) && LongpollsAreDrivers(d.net)
  }

  lemma {:induction false} CalmKeeps(c: Client, d: Client)
    requires Calm(c, d) && OneTimer(c)
    ensures Single(c) ==> Single(d)
    ensures Quiet(c) ==> Quiet(d)
  {
    if Single(c) && c.net.longpollRequest.Some? && Drivers(c) > 0 {
      var k :| 0 <= k < |c.net.sent| && c.net.sent[k].timer && Some(c.net.sent[k].job.request) == c.net.longpollRequest;
      assert d.net.sent[k] == c.net.sent[k];
    }
  }

  lemma {:induction false} SendCalm(c: Client, ms: seq<Message>)
    requires Base(c) && !IsDriver(ms)
    ensures Calm(c, SendMessages(c, ms, false))
  {
    var n1 := c.net.(submitted := c.net.submitted + [ms]);
    S.QueueSendLive(c.config.maxConnections, n1, ms, IsDriver);
  }

  /** The queue only ever holds application messages. */
  predicate AppQueue(c: Client) {
    forall i :: 0 <= i < |c.messageQueue| ==> c.messageQueue[i].App?
  }

  lemma {:induction false} FlushCalm(c: Client)
    requires Base(c) && AppQueue(c)
    ensures Calm(c, FlushBatch(c)) && AppQueue(FlushBatch(c))
  {
    if c.messageQueue != [] { SendCalm(c.(messageQueue := []), c.messageQueue); }
  }

  lemma {:induction false} EndBatchCalm(c: Client)
    requires Base(c) && AppQueue(c)
    ensures Calm(c, DoEndBatch(c)) && AppQueue(DoEndBatch(c))
  {
    FlushCalm(c.(batch := c.batch - 1, heldBack := if HoldsBack(c) then c.heldBack + 1 else c.heldBack));
  }

  lemma {:induction false} PerformCalm(c: Client, act: Act)
    requires Base(c) && AppQueue(c) && act != CallHandshake
    ensures Calm(c, Perform(c, act)) && AppQueue(Perform(c, act))
  {
    match act
    case Submit => SendCalm(c.(submitted := c.submitted + 1), [App(c.submitted)]);
    case StartBatch =>
    case EndBatch => EndBatchCalm(c);
    case CallDisconnect => SendCalm(c.(status := Disconnecting), [Disconnect]);
  }

  lemma {:induction false} ResetKeeps(n: Net<Envelope>)
    ensures Carried(Reset(n)) <= Carried(n)
  {
    S.ResetPlaces(n, IsDriver);
  }

  lemma {:induction false} CancelEmpties(c: Client)
    requires OneTimer(c)
    ensures CancelDelayedSend(c).timers == []
  {
    if c.timers != [] { assert LiveExcept(c.timers[1..], c.timers[0].id) == []; }
  }

  lemma {:induction false} CutKeeps(c: Client, abort: bool)
    requires Single(c) || Quiet(c)
    ensures var d := Disconnection(c, abort);
            d.timers == [] && AppQueue(d) && (Single(c) ==> Single(d)) && (Quiet(c) ==> Quiet(d))
  {
    ResetKeeps(c.net);
    var d := Disconnection(c, abort);
    CancelEmpties(c);
    if Single(c) && d.net.longpollRequest.Some? && Drivers(d) > 0 {
      assert SlotInUse(c.net);
    }
  }

  // ---------------------------------------------------------------- small steps

  /** `handshake()` resets the transport, so of the drivers only those that wait for a slot are given up. */
  predicate MayHandshake(c: Client) {
    c.timers == [] && Carried(Reset(c.net)) == 0
  }

  /** A delayed send replaces the one before it, and nothing else. */
  predicate MayDelay(c: Client) {
    Carried(c.net) == 0 && c.net.longpollRequest.None?
  }

  /** What is to be asked before a small step that starts something. */
  predicate Safe(c: Client, p: Prim) {
    match p
    case Do(act) => act == CallHandshake ==> MayHandshake(c)
    case Delay(_) => MayDelay(c)
    case _ => true
  }

  predicate AllSafe(c: Client, ps: seq<Prim>)
    decreases ps
  {
    ps == [] || (Safe(c, ps[0]) && AllSafe(Apply(c, ps[0]), ps[1..]))
  }

  lemma {:induction false} DelayIff(c: Client, operation: Operation)
    requires Single(c)
    ensures Single(Apply(c, Delay(operation))) <==> MayDelay(c)
  {
    CancelEmpties(c);
    if Carried(c.net) == 0 && c.net.longpollRequest.Some? && SlotInUse(c.net) {
      var k :| 0 <= k < |c.net.sent| && c.net.sent[k].timer && Some(c.net.sent[k].job.request) == c.net.longpollRequest;
      ArmedOne(c.net.sent, k);
    }
  }

  /** Every small step keeps the drivers at one if and only if it is safe. */
  lemma {:induction false} StepSafeIff(c: Client, p: Prim)
    requires Single(c) && AppQueue(c)
    ensures AppQueue(Apply(c, p)) && (Single(Apply(c, p)) <==> Safe(c, p))
  {
    match p
    case Do(act) =>
      if act == CallHandshake {
        HandshakeCallIff(c);
      } else {
        PerformCalm(c, act);
        CalmKeeps(c, Perform(c, act));
      }
    case EndInternalBatch =>
      FlushCalm(c.(internalBatch := false));
      CalmKeeps(c.(internalBatch := false), Apply(c, p));
    case Delay(operation) => DelayIff(c, operation);
    case Cut(abort) => CutKeeps(c, abort);
    case _ =>
  }

  /** So a sequence of them keeps the drivers at one all the way if and only if each is safe when its turn comes. */
  lemma {:induction false} AllSafeIff(c: Client, ps: seq<Prim>)
    requires Single(c) && AppQueue(c)
    ensures AllSafe(c, ps) <==> forall i :: 0 <= i <= |ps| ==> Single(ApplyAll(c, ps[..i]))
    ensures AllSafe(c, ps) ==> AppQueue(ApplyAll(c, ps))
    decreases ps
  {
    if ps == [] {
      assert ps[..0] == [];
    } else {
      StepSafeIff(c, ps[0]);
      var d := Apply(c, ps[0]);
      assert forall i :: 0 < i <= |ps| ==> ps[..i] == [ps[0]] + ps[1..][..i - 1];
      forall i | 0 < i <= |ps| ensures ApplyAll(c, ps[..i]) == ApplyAll(d, ps[1..][..i - 1]) {
        assert ps[..i][1..] == ps[1..][..i - 1];
      }
      assert ps[..0] == [] && ps[1..][..0] == [] && ApplyAll(c, ps[..1]) == d;
      if Safe(c, ps[0]) {
        AllSafeIff(d, ps[1..]);
        if AllSafe(d, ps[1..]) {
          forall i | 0 <= i <= |ps| ensures Single(ApplyAll(c, ps[..i])) {
            if i > 0 { assert Single(ApplyAll(d, ps[1..][..i - 1])); }
          }
        } else {
          var j :| 0 <= j <= |ps[1..]| && !Single(ApplyAll(d, ps[1..][..j]));
          assert ApplyAll(c, ps[..j + 1]) == ApplyAll(d, ps[1..][..j]);
        }
      }
    }
  }

  lemma {:induction false} AllSafeSingle(c: Client, ps: seq<Prim>)
    requires Single(c) && AppQueue(c) && AllSafe(c, ps)
    ensures Single(ApplyAll(c, ps)) && AppQueue(ApplyAll(c, ps))
  {
    AllSafeIff(c, ps);
    assert ps[..|ps|] == ps;
  }

  lemma {:induction false} ApplyQuiet(c: Client, p: Prim)
    requires Quiet(c) && AppQueue(c) && p != Do(CallHandshake)
    ensures Quiet(Apply(c, p)) && AppQueue(Apply(c, p)) && Safe(c, p)
  {
    match p
    case Do(act) =>
      PerformCalm(c, act);
      CalmKeeps(c, Perform(c, act));
    case EndInternalBatch =>
      FlushCalm(c.(internalBatch := false));
      CalmKeeps(c.(internalBatch := false), Apply(c, p));
    case Delay(operation) => CancelEmpties(c);
    case Cut(abort) => CutKeeps(c, abort);
    case _ =>
  }

  /** With nothing on its way, all is safe but a listener's `handshake()`. */
  lemma {:induction false} QuietSafe(c: Client, ps: seq<Prim>)
    requires Quiet(c) && AppQueue(c) && Do(CallHandshake) !in ps
    ensures AllSafe(c, ps)
    decreases ps
  {
    if ps != [] {
      assert ps[0] in ps && Do(CallHandshake) !in ps[1..];
      ApplyQuiet(c, ps[0]);
      QuietSafe(Apply(c, ps[0]), ps[1..]);
    }
  }

  /** Nothing is started: neither a delayed send nor, by a listener, a handshake. */
  predicate Harmless(ps: seq<Prim>) {
    forall p :: p in ps ==> !p.Delay? && p != Do(CallHandshake)
  }

  lemma {:induction false} HarmlessSafe(c: Client, ps: seq<Prim>)
    requires Harmless(ps)
    ensures AllSafe(c, ps)
    decreases ps
  {
    if ps != [] {
      assert ps[0] in ps;
      HarmlessSafe(Apply(c, ps[0]), ps[1..]);
    }
  }

  // ---------------------------------------------------------------- callbacks

  /** The driver that was on its way has just been reported on. */
  ghost predicate DriverGone(c: Client, request: Request) {
    Drivers(c) == 0 && (c.net.longpollRequest.Some? ==> c.net.longpollRequest.value == request)
  }

  lemma {:induction false} ReportSingle(c: Client, k: nat)
    requires Single(c) && k < |c.net.sent|
    ensures var d := WithNet(c, Report(c.net, k));
            Single(d) && (Reports(c.net, k) && IsDriver(c.net.sent[k].job.envelope) ==>
                            DriverGone(d, c.net.sent[k].job.request))
  {
    S.ReportPlaces(c.net, k, IsDriver);
    SlotAfter(c, WithNet(c, Report(c.net, k)), k);
  }

  lemma {:induction false} ExpireSingle(c: Client, k: nat)
    requires Single(c) && k < |c.net.sent| && c.net.sent[k].timer
    ensures var d := WithNet(c, Expire(c.net, k));
            Single(d) && (IsDriver(c.net.sent[k].job.envelope) ==> DriverGone(d, c.net.sent[k].job.request))
  {
    S.ExpirePlaces(c.net, k, IsDriver);
    SlotAfter(c, WithNet(c, Expire(c.net, k)), k);
  }

  /** The reserved slot after request `k` has been reported on or has timed out. */
  lemma {:induction false} SlotAfter(c: Client, d: Client, k: nat)
    requires Single(c) && k < |c.net.sent|
    requires |d.net.sent| == |c.net.sent| && d.net.sent[k].job == c.net.sent[k].job
    requires forall j :: 0 <= j < |c.net.sent| && j != k ==> d.net.sent[j] == c.net.sent[j]
    requires !c.net.sent[k].timer ==> !d.net.sent[k].timer
    requires d.net.longpollRequest == c.net.longpollRequest && d.timers == c.timers
    requires Carried(c.net) ==
             Carried(d.net) + if c.net.sent[k].timer && !d.net.sent[k].timer
                              then S.One(c.net.sent[k].job.envelope, IsDriver) else 0
    requires c.net.sent[k].timer ==> !d.net.sent[k].timer
    ensures d.net.longpollRequest.Some? && Drivers(d) > 0 ==> SlotInUse(d.net)
    ensures c.net.sent[k].timer && IsDriver(c.net.sent[k].job.envelope) ==> DriverGone(d, c.net.sent[k].job.request)
  {
    if c.net.longpollRequest.Some? && Drivers(c) > 0 {
      var j :| 0 <= j < |c.net.sent| && c.net.sent[j].timer && Some(c.net.sent[j].job.request) == c.net.longpollRequest;
      assert IsDriver(c.net.sent[j].job.envelope);
      ArmedOne(c.net.sent, j);
      if j != k {
        assert d.net.sent[j] == c.net.sent[j];
        if c.net.sent[k].timer && IsDriver(c.net.sent[k].job.envelope) {
          ArmedTwo(c.net.sent, if j < k then j else k, if j < k then k else j);
        }
      }
    }
  }

  lemma {:induction false} DoomSingle(c: Client, j: nat)
    requires Single(c) && j < |c.net.doomed|
    ensures var d := WithNet(c, Doom(c.net, j));
            Single(d) && (IsDriver(c.net.doomed[j].envelope) ==> DriverGone(d, c.net.doomed[j].request))
  {
    S.DoomPlaces(c.net, j, IsDriver);
    var d := WithNet(c, Doom(c.net, j));
    if c.net.longpollRequest.Some? && Drivers(c) > 0 {
      var k :| 0 <= k < |c.net.sent| && c.net.sent[k].timer && Some(c.net.sent[k].job.request) == c.net.longpollRequest;
      ArmedOne(c.net.sent, k);
      assert d.net.sent[k] == c.net.sent[k];
    }
  }

  lemma {:induction false} CompletedCalm(c: Client, request: Request, success: bool)
    requires Base(c) && !request.longpoll
    ensures Calm(c, Completed(c, request, success)) && OneTimer(Completed(c, request, success))
  {
    S.CompleteLive(c.config.maxConnections, c.net, request, success, IsDriver);
  }

  lemma {:induction false} CompletedKeeps(c: Client, request: Request, success: bool)
    requires Single(c) && AppQueue(c) && !Mismatch(c, request)
    ensures var d := Completed(c, request, success);
            Single(d) && AppQueue(d) && (DriverGone(c, request) ==> Quiet(d))
  {
    if !request.longpoll {
      CompletedCalm(c, request, success);
      CalmKeeps(c, Completed(c, request, success));
    }
  }

  /** A response to anything but a handshake or a connect carries no handshake or connect reply. */
  predicate Expected(e: Envelope, rs: seq<Reply>) {
    !IsDriver(e) ==> forall r :: r in rs ==> !DriverReply(r)
  }

  // ---------------------------------------------------------------- timers and handshakes

  lemma {:induction false} FiredQuiet(c: Client, i: nat)
    requires Single(c) && i < |c.timers|
    ensures Quiet(c.(timers := c.timers[..i] + c.timers[i + 1..])) && c.timers[..i] + c.timers[i + 1..] == []
  {
    if c.net.longpollRequest.Some? {
      var k :| 0 <= k < |c.net.sent| && c.net.sent[k].timer && Some(c.net.sent[k].job.request) == c.net.longpollRequest;
      ArmedOne(c.net.sent, k);
    }
  }

  lemma {:induction false} ConnectKeeps(c: Client)
    requires Quiet(c) && c.timers == []
    ensures Single(DoConnect(c))
  {
    var n1 := c.net.(submitted := c.net.submitted + [[Connect]]);
    S.LongpollSendLive(n1, [Connect], IsDriver);
    var d := DoConnect(c);
    var k := |d.net.sent| - 1;
    assert d.net.sent[k].timer && Some(d.net.sent[k].job.request) == d.net.longpollRequest;
  }

  lemma {:induction false} HandshakeKeeps(c: Client)
    requires Quiet(c) && c.timers == []
    ensures Single(DoHandshake(c))
  {
    ResetKeeps(c.net);
    HandshakeSendKeeps(c.(net := if IsDisconnected(c) then Reset(c.net) else c.net, batch := 0, internalBatch := true,
                          status := Handshaking));
  }

  lemma {:induction false} HandshakeSendKeeps(c: Client)
    requires Quiet(c) && c.timers == []
    ensures Single(SendMessages(c, [Handshake], false))
  {
    OrdinaryBase(c, [Handshake]);
    var n1 := c.net.(submitted := c.net.submitted + [[Handshake]]);
    S.QueueSendLive(c.config.maxConnections, n1, [Handshake], IsDriver);
  }

  /** Calling `handshake()` keeps the drivers at one exactly when nothing but a waiting handshake was under way. */
  lemma {:induction false} HandshakeCallIff(c: Client)
    requires Single(c)
    ensures Drivers(PublicHandshake(c)) == |c.timers| + Carried(Reset(c.net)) + 1
    ensures Single(PublicHandshake(c)) <==> MayHandshake(c)
  {
    ResetKeeps(c.net);
    var d := c.(status := Handshaking, net := Reset(c.net), batch := 0, internalBatch := true);
    var n1 := d.net.(submitted := d.net.submitted + [[Handshake]]);
    S.QueueSendLive(c.config.maxConnections, n1, [Handshake], IsDriver);
    if MayHandshake(c) { HandshakeSendKeeps(d); }
  }

  lemma {:induction false} OrdinaryBase(c: Client, ms: seq<Message>)
    requires Base(c)
    ensures Base(SendMessages(c, ms, false))
    ensures SendMessages(c, ms, false).net.longpollRequest == c.net.longpollRequest
  {
  }

  // ---------------------------------------------------------------- runs

  /** What may happen next: an event all of whose small steps are safe, be they its own or those of the listeners. */
  predicate Allowed(c: Client, ev: Event) {
    AllSafe(Begun(c, ev), EventSteps(c, ev))
  }

  predicate AllowedRun(c: Client, evs: seq<Event>)
    decreases evs
  {
    evs != [] ==> AllowedRun(c, evs[..|evs| - 1]) && Allowed(Run(c, evs[..|evs| - 1]), evs[|evs| - 1])
  }

  /** The event would raise "Concurrent longpoll requests not allowed" or "Longpoll request mismatch". */
  predicate Throws(c: Client, ev: Event) {
    match ev
    case Fire(i) => i < |c.timers| && c.timers[i].operation == SendConnect && ConcurrentLongpoll(c.net)
    case Response(k, _) => k < |c.net.sent| && Reports(c.net, k) && Mismatch(c, c.net.sent[k].job.request)
    case NetFailure(k, _) => k < |c.net.sent| && Reports(c.net, k) && Mismatch(c, c.net.sent[k].job.request)
    case Timeout(k, _) => k < |c.net.sent| && c.net.sent[k].timer && Mismatch(c, c.net.sent[k].job.request)
    case FailTask(j, _) => j < |c.net.doomed| && Mismatch(c, c.net.doomed[j].request)
    case _ => false
  }

  ghost predicate Steady(c: Client) {
    Single(c) && AppQueue(c) && N.Ordinary(c.net.doomed)
  }

  lemma {:induction false} NeverThrows(c: Client, ev: Event)
    requires Steady(c)
    ensures !Throws(c, ev)
  {
    match ev
    case Fire(i) => if i < |c.timers| { FiredQuiet(c, i); }
    case Response(k, _) => if k < |c.net.sent| { ReportSingle(c, k); }
    case NetFailure(k, _) => if k < |c.net.sent| { ReportSingle(c, k); }
    case Timeout(k, _) => if k < |c.net.sent| && c.net.sent[k].timer { ExpireSingle(c, k); }
    case _ =>
  }

  lemma {:induction false} FireSingle(c: Client, i: nat)
    requires Steady(c) && i < |c.timers|
    ensures Single(OnFire(c, i)) && AppQueue(OnFire(c, i))
  {
    FiredQuiet(c, i);
    var d := c.(timers := c.timers[..i] + c.timers[i + 1..]);
    if c.timers[i].operation == SendConnect { ConnectKeeps(d); } else { HandshakeKeeps(d); }
  }

  /** The event is the callback for a handshake or a long poll. */
  predicate TakesDriver(c: Client, ev: Event) {
    match ev
    case Response(k, _) => k < |c.net.sent| && IsDriver(c.net.sent[k].job.envelope)
    case NetFailure(k, _) => k < |c.net.sent| && IsDriver(c.net.sent[k].job.envelope)
    case Timeout(k, _) => k < |c.net.sent| && IsDriver(c.net.sent[k].job.envelope)
    case FailTask(j, _) => j < |c.net.doomed| && IsDriver(c.net.doomed[j].envelope)
    case _ => false
  }

  lemma {:induction false} ReportedSingle(c: Client, k: nat, success: bool)
    requires Steady(c) && k < |c.net.sent|
    ensures var job, d := c.net.sent[k].job, WithNet(c, Report(c.net, k));
            Single(d) &&
            (Reports(c.net, k) ==>
               && !Mismatch(c, job.request)
               && var e := Completed(d, job.request, success);
                  Single(e) && AppQueue(e) && (IsDriver(job.envelope) ==> Quiet(e)))
  {
    NeverThrows(c, Response(k, []));
    ReportSingle(c, k);
    if Reports(c.net, k) { CompletedKeeps(WithNet(c, Report(c.net, k)), c.net.sent[k].job.request, success); }
  }

  /** The handlers find at most one driver, and none if the event is the callback for it. */
  lemma {:induction false} BegunSingle(c: Client, ev: Event)
    requires Steady(c)
    ensures Single(Begun(c, ev)) && AppQueue(Begun(c, ev))
    ensures CallsBack(c, ev) && TakesDriver(c, ev) ==> Quiet(Begun(c, ev))
  {
    match ev
    case Response(k, _) => if k < |c.net.sent| { ReportedSingle(c, k, true); }
    case Unreadable(k) => if k < |c.net.sent| { ReportedSingle(c, k, true); }
    case NetFailure(k, _) => if k < |c.net.sent| { ReportedSingle(c, k, false); }
    case Timeout(k, _) =>
      NeverThrows(c, ev);
      if k < |c.net.sent| && c.net.sent[k].timer {
        ExpireSingle(c, k);
        CompletedKeeps(WithNet(c, Expire(c.net, k)), c.net.sent[k].job.request, false);
      }
    case FailTask(j, _) =>
      if j < |c.net.doomed| {
        DoomSingle(c, j);
        CompletedKeeps(WithNet(c, Doom(c.net, j)), c.net.doomed[j].request, false);
      }
    case Fire(i) => if i < |c.timers| { FireSingle(c, i); }
    case User(_) =>
  }

  lemma {:induction false} StepSingle(c: Client, ev: Event)
    requires Steady(c) && Allowed(c, ev)
    ensures Single(Step(c, ev)) && AppQueue(Step(c, ev))
  {
    BegunSingle(c, ev);
    EventPlan(c, ev);
    AllSafeSingle(Begun(c, ev), EventSteps(c, ev));
  }

  lemma {:induction false} RunSingle(config: Config, evs: seq<Event>)
    requires AllowedRun(Initialised(config), evs)
    ensures Steady(Run(Initialised(config), evs))
  {
    var c := Run(Initialised(config), evs);
    if evs == [] {
      HandshakeKeeps(Fresh(config).(status := Disconnected));
    } else {
      RunSingle(config, evs[..|evs| - 1]);
      StepSingle(Run(Initialised(config), evs[..|evs| - 1]), evs[|evs| - 1]);
    }
    RunDoomed(config, evs);
  }

  /** No long poll is ever scheduled to fail. */
  lemma {:induction false} RunDoomed(config: Config, evs: seq<Event>)
    ensures N.Ordinary(Run(Initialised(config), evs).net.doomed)
  {
    var c := Run(Initialised(config), evs);
    N.ClientRefinesScheduler(config, evs);
    var trace: seq<S.Event<Envelope>> :| S.Run(c.config.maxConnections, trace) == c.net;
    N.RunOrdinary(c.config.maxConnections, trace);
  }

  /** After `init()`, as long as every small step is safe when its turn comes, at most one handshake, long poll or
      delayed send is under way, whatever the network, the server and the listeners do; so neither of the
      scheduler's two exceptions can occur. */
  lemma {:induction false} SingleDriverTheorem(config: Config, evs: seq<Event>, ev: Event)
    requires AllowedRun(Initialised(config), evs)
    ensures var c := Run(Initialised(config), evs);
            |c.timers| + S.Live(c.net, IsDriver) <= 1 && !Throws(c, ev)
  {
    RunSingle(config, evs);
    NeverThrows(Run(Initialised(config), evs), ev);
  }

  /** At every moment of every event there is at most one driver, and the reserved slot is not taken by anything
      else. */
  ghost predicate AlwaysSingle(c: Client, evs: seq<Event>)
    decreases evs
  {
    if evs == [] then Single(c)
    else
      var before, ev := Run(c, evs[..|evs| - 1]), evs[|evs| - 1];
      var ps := EventSteps(before, ev);
      AlwaysSingle(c, evs[..|evs| - 1]) &&
      forall i :: 0 <= i <= |ps| ==> Single(ApplyAll(Begun(before, ev), ps[..i]))
  }

  /** And that is the exact condition: in every run there is never more than one driver, not even in the middle of an
      event, if and only if every small step was safe when its turn came. */
  lemma {:induction false} AlwaysSingleIff(config: Config, evs: seq<Event>)
    ensures AlwaysSingle(Initialised(config), evs) <==> AllowedRun(Initialised(config), evs)
  {
    if evs == [] {
      RunSingle(config, evs);
    } else {
      var most, ev := evs[..|evs| - 1], evs[|evs| - 1];
      AlwaysSingleIff(config, most);
      if AllowedRun(Initialised(config), most) {
        RunSingle(config, most);
        var c := Run(Initialised(config), most);
        BegunSingle(c, ev);
        AllSafeIff(Begun(c, ev), EventSteps(c, ev));
      }
    }
  }

  // ---------------------------------------------------------------- when that is so

  /** Replies come where they are expected, listeners do not call `handshake()`, and the application calls it only while
      nothing but a waiting handshake is under way. */
  predicate Orderly(c: Client, ev: Event) {
    && (ev.Response? && ev.k < |c.net.sent| ==> Expected(c.net.sent[ev.k].job.envelope, ev.replies))
    && (NoHandshake(ev) || (ev == User(CallHandshake) && MayHandshake(c)))
  }

  lemma {:induction false} OrderlyIsAllowed(c: Client, ev: Event)
    requires Steady(c) && Orderly(c, ev)
    ensures Allowed(c, ev)
  {
    if CallsBack(c, ev) && !ev.User? {
      var d := Begun(c, ev);
      BegunSingle(c, ev);
      var ps := EventSteps(c, ev);
      OrderlySteps(c, ev);
      if TakesDriver(c, ev) { QuietSafe(d, ps); } else { HarmlessSafe(d, ps); }
    }
  }

  lemma {:induction false} OrderlySteps(c: Client, ev: Event)
    requires Orderly(c, ev) && CallsBack(c, ev) && !ev.User?
    ensures Do(CallHandshake) !in EventSteps(c, ev)
    ensures !TakesDriver(c, ev) ==> AllPassive(EventSteps(c, ev))
  {
    var d := Begun(c, ev);
    match ev
    case Response(_, rs) => var ps := RepliesPlan(d, rs);
    case NetFailure(k, acts) => var ps := FailMessagesPlan(d, c.net.sent[k].job.envelope, acts);
    case Timeout(k, acts) => var ps := FailMessagesPlan(d, c.net.sent[k].job.envelope, acts);
    case FailTask(j, acts) => var ps := FailMessagesPlan(d, c.net.doomed[j].envelope, acts);
  }

  predicate OrderlyRun(c: Client, evs: seq<Event>)
    decreases evs
  {
    evs != [] ==> OrderlyRun(c, evs[..|evs| - 1]) && Orderly(Run(c, evs[..|evs| - 1]), evs[|evs| - 1])
  }

  lemma {:induction false} OrderlyRunIsAllowed(config: Config, evs: seq<Event>)
    requires OrderlyRun(Initialised(config), evs)
    ensures AllowedRun(Initialised(config), evs)
  {
    if evs != [] {
      OrderlyRunIsAllowed(config, evs[..|evs| - 1]);
      RunSingle(config, evs[..|evs| - 1]);
      OrderlyIsAllowed(Run(Initialised(config), evs[..|evs| - 1]), evs[|evs| - 1]);
    }
  }

  /** A listener that calls `handshake()` when it is told of a failed handshake finds nothing under way, and still the
      handler that notified it starts a second driver. */
  lemma {:induction false} ListenerStartsSecond(c: Client)
    requires Quiet(c) && c.timers == [] && !IsDisconnected(c) && c.advice.reconnect != Never
    ensures MayHandshake(c) && Drivers(HandshakeFailed(c, [CallHandshake])) == 2
  {
    ResetKeeps(c.net);
    HandshakeCallIff(c);
    assert Listeners(c, [CallHandshake]) == PublicHandshake(c) by { assert [CallHandshake][1..] == []; }
    CancelEmpties(IncreaseBackoff(PublicHandshake(c)));
  }
}
