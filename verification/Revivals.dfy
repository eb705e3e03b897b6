/** Exactly when a disconnected client can come back without a call of `handshake()`. */
module Revivals {
  import opened Options
  import opened Scheduler
  import opened Bayeux
  import opened ClientSteps
  import opened Disconnections
  import S = SchedulerRuns
  import Slots = SchedulerSlots
  import N = ClientNet
  import B = ClientRuns
  import D = SingleDriver

  // ---------------------------------------------------------------- what is still to come

  predicate Ordinary(n: Net<Envelope>, k: nat) {
    k < |n.sent| && n.sent[k].timer && !n.sent[k].job.request.longpoll
  }

  predicate FreeSlot(c: Client) {
    |c.net.requests| < c.config.maxConnections - 1
  }

  /** The success of request `k` hands the first waiting envelope to the network. */
  predicate Frees(c: Client, k: nat) {
    Ordinary(c.net, k) && (c.net.sent[k].job.request in c.net.requests || FreeSlot(c))
  }

  /** Request `k` is still owed a callback, and its completion will not throw. */
  predicate Answerable(n: Net<Envelope>, k: nat) {
    k < |n.sent| && n.sent[k].timer && !(n.sent[k].job.request.longpoll && LongpollMismatch(n, n.sent[k].job.request))
  }

  /** The waiting queue can still move: by a success that frees a slot, or through a slot that is free already by
      whatever the application or a connect reply may send there. */
  ghost predicate QueueMoves(c: Client) {
    (exists k: nat :: Frees(c, k)) || (FreeSlot(c) && (!c.internalBatch || exists k: nat :: Answerable(c.net, k)))
  }

  /** A handshake is in flight, or one waits in a queue that can still move. */
  ghost predicate Revivable(c: Client) {
    InFlight(c.net) > 0 || (Waiting(c.net) > 0 && QueueMoves(c))
  }

  // ---------------------------------------------------------------- a queue that cannot move

  /** The application's messages are held, and every callback still to come throws. */
  ghost predicate Stuck(c: Client) {
    && c.status == Disconnected && c.timers == [] && D.AppQueue(c) && InFlight(c.net) == 0
    && c.internalBatch && forall k: nat :: !Answerable(c.net, k)
  }

  ghost predicate Settled(c: Client) {
    Absorbing(c) || Stuck(c)
  }

  lemma {:induction false} NotRevivable(c: Client)
    requires c.status == Disconnected && c.timers == [] && D.AppQueue(c) && N.Sound(c) && !Revivable(c)
    ensures Settled(c)
  {
    if Waiting(c.net) > 0 && !FreeSlot(c) {
      forall r | r in c.net.requests ensures !Slots.OwedFor(c.net.sent, r) {
        if Slots.OwedFor(c.net.sent, r) {
          var k :| 0 <= k < |c.net.sent| && c.net.sent[k].timer && c.net.sent[k].job.request == r;
          assert Slots.Known(c.net.requestIds, r);
          assert Frees(c, k);
        }
      }
    }
  }

  lemma {:induction false} PerformStuck(c: Client, act: Act)
    requires act != CallHandshake
    requires Stuck(c)
    ensures Stuck(Perform(c, act)) && Perform(c, act).net == c.net
  {
  }

  lemma {:induction false} ListenersStuck(c: Client, acts: seq<Act>)
    requires CallHandshake !in acts
    requires Stuck(c)
    ensures Stuck(Listeners(c, acts)) && Listeners(c, acts).net == c.net
    decreases acts
  {
    if acts != [] {
      PerformStuck(c, acts[0]);
      ListenersStuck(Perform(c, acts[0]), acts[1..]);
    }
  }

  lemma {:induction false} FailMessagesStuck(c: Client, ms: seq<Message>, acts: seq<seq<Act>>)
    requires NoHandshakes(acts)
    requires Stuck(c)
    ensures Settled(FailMessages(c, ms, acts))
    decreases ms
  {
    if ms != [] {
      var now, later := if acts == [] then [] else acts[0], if acts == [] then [] else acts[1..];
      ListenersStuck(c, now);
      if ms[0] == Disconnect {
        D.CancelEmpties(c);
        ListenersAbsorbing(Disconnection(c, true), now);
        FailMessagesAbsorbing(FailMessage(c, ms[0], now), ms[1..], later);
      } else {
        if ms[0] == Handshake { assert c.(status := Disconnected) == c; }
        FailMessagesStuck(FailMessage(c, ms[0], now), ms[1..], later);
      }
    }
  }

  lemma {:induction false} FailTaskStuck(c: Client, j: nat, acts: seq<seq<Act>>)
    requires NoHandshakes(acts)
    requires Stuck(c) && N.Sound(c) && j < |c.net.doomed|
    ensures Settled(OnFailTask(c, j, acts))
  {
    var c1, job := WithNet(c, Doom(c.net, j)), c.net.doomed[j];
    Slots.WithoutNothing(c.net.requests, job.request);
    var d := Completed(c1, job.request, false);
    assert forall k: nat :: Answerable(d.net, k) <==> Answerable(c.net, k);
    FailMessagesStuck(d, job.envelope, acts);
  }

  /** A callback that throws is only recorded. */
  lemma {:induction false} CallbackStuck(c: Client, k: nat, n: Net<Envelope>)
    requires Stuck(c) && k < |c.net.sent| && |n.sent| == |c.net.sent|
    requires n == c.net.(sent := c.net.sent[k := n.sent[k]], finished := n.finished)
    requires n.sent[k].job == c.net.sent[k].job && (n.sent[k].timer ==> c.net.sent[k].timer)
    ensures Stuck(WithNet(c, n))
    ensures c.net.sent[k].timer ==> Mismatch(WithNet(c, n), c.net.sent[k].job.request)
  {
    S.ArmedUpdate(c.net.sent, k, n.sent[k], HasHandshake);
    var d := WithNet(c, n);
    assert !Answerable(c.net, k);
    forall l: nat ensures !Answerable(d.net, l) { assert !Answerable(c.net, l); }
  }

  lemma {:induction false} StepStuck(c: Client, ev: Event)
    requires Stuck(c) && N.Sound(c) && Permitted(c, ev)
    ensures Settled(Step(c, ev))
  {
    match ev
    case Response(k, rs) => if k < |c.net.sent| { CallbackStuck(c, k, Report(c.net, k)); }
    case Unreadable(k) => if k < |c.net.sent| { CallbackStuck(c, k, Report(c.net, k)); }
    case NetFailure(k, acts) => if k < |c.net.sent| { CallbackStuck(c, k, Report(c.net, k)); }
    case Timeout(k, acts) => if k < |c.net.sent| && c.net.sent[k].timer { CallbackStuck(c, k, Expire(c.net, k)); }
    case FailTask(j, acts) => if j < |c.net.doomed| { FailTaskStuck(c, j, acts); }
    case Fire(i) =>
    case User(act) => PerformStuck(c, act);
  }

  lemma {:induction false} RunSettled(config: Config, evs: seq<Event>, more: seq<Event>)
    requires Settled(Run(Initialised(config), evs)) && PermittedRun(Run(Initialised(config), evs), more)
    ensures Settled(Run(Run(Initialised(config), evs), more))
    decreases more
  {
    if more != [] {
      var c, most := Run(Initialised(config), evs), more[..|more| - 1];
      RunSettled(config, evs, most);
      B.RunSplit(Initialised(config), evs, most);
      N.RunSound(config, evs + most);
      if Absorbing(Run(c, most)) {
        StepAbsorbing(Run(c, most), more[|more| - 1]);
      } else {
        StepStuck(Run(c, most), more[|more| - 1]);
      }
    }
  }

  // ---------------------------------------------------------------- ways back

  /** A state of a run, disconnected with nothing scheduled. */
  ghost predicate Idle(config: Config, evs: seq<Event>, c: Client) {
    c == Run(Initialised(config), evs) && c.status == Disconnected && c.timers == []
  }

  ghost predicate WayBack(c: Client, more: seq<Event>) {
    PermittedRun(c, more) && Run(c, more).status != Disconnected
  }

  ghost predicate CanReturn(c: Client) {
    exists more :: WayBack(c, more)
  }

  lemma {:induction false} RunCons(c: Client, ev: Event, rest: seq<Event>)
    ensures Run(c, [ev] + rest) == Run(Step(c, ev), rest)
    ensures Permitted(c, ev) && PermittedRun(Step(c, ev), rest) ==> PermittedRun(c, [ev] + rest)
    decreases rest
  {
    var all := [ev] + rest;
    if rest == [] {
      assert all == [ev] && all[..0] == [];
    } else {
      var most := rest[..|rest| - 1];
      assert all[..|all| - 1] == [ev] + most;
      RunCons(c, ev, most);
    }
  }

  /** One more event on the way. */
  lemma {:induction false} Lead(c: Client, ev: Event)
    requires Permitted(c, ev) && CanReturn(Step(c, ev))
    ensures CanReturn(c)
  {
    var rest :| WayBack(Step(c, ev), rest);
    RunCons(c, ev, rest);
    assert WayBack(c, [ev] + rest);
  }

  lemma {:induction false} Back(c: Client)
    requires c.status != Disconnected
    ensures CanReturn(c)
  {
    var none: seq<Event> := [];
    assert WayBack(c, none);
  }

  /** A handshake in flight comes back with its success. */
  lemma {:induction false} ReviveInFlight(c: Client, k: nat)
    requires c.status == Disconnected && c.timers == [] && N.Sound(c)
    requires k < |c.net.sent| && c.net.sent[k].timer && HasHandshake(c.net.sent[k].job.envelope)
    ensures CanReturn(c)
  {
    var ev := Response(k, [Reply(HandshakeReply, true, Some(Advice(Retry, 0)), true, [])]);
    assert !c.net.sent[k].job.request.longpoll;
    assert Reports(c.net, k);
    assert Step(c, ev).status == Connecting;
    Back(Step(c, ev));
    Lead(c, ev);
  }

  lemma {:induction false} ArmedAt(s: seq<Sent<Envelope>>) returns (k: nat)
    requires S.Armed(s, HasHandshake) > 0
    ensures k < |s| && s[k].timer && HasHandshake(s[k].job.envelope)
  {
    if s[|s| - 1].timer && HasHandshake(s[|s| - 1].job.envelope) {
      k := |s| - 1;
    } else {
      k := ArmedAt(s[..|s| - 1]);
    }
  }

  lemma {:induction false} OccursAt(s: seq<Job<Envelope>>) returns (i: nat)
    requires S.Occurs(s, HasHandshake) > 0
    ensures i < |s| && HasHandshake(s[i].envelope)
  {
    if HasHandshake(s[|s| - 1].envelope) {
      i := |s| - 1;
    } else {
      i := OccursAt(s[..|s| - 1]);
    }
  }

  /** The success of a request that frees a slot: the first waiting envelope is on the wire and can do the same. */
  lemma {:induction false} SuccessFrees(c: Client, k: nat)
    requires c.status == Disconnected && c.timers == [] && N.Sound(c) && Frees(c, k) && c.net.envelopes != []
    ensures var d := Step(c, Response(k, []));
            && d.status == Disconnected && d.timers == [] && d.net.envelopes == c.net.envelopes[1..]
            && |d.net.sent| == |c.net.sent| + 1 && Frees(d, |c.net.sent|)
            && d.net.sent[|c.net.sent|].job.envelope == c.net.envelopes[0].envelope
  {
    assert Reports(c.net, k);
  }

  /** One success after the other, the envelope that waits in place `i` gets out. */
  lemma {:induction false} ReviveWaiting(config: Config, evs: seq<Event>, c: Client, k: nat, i: nat)
    requires Idle(config, evs, c) && Frees(c, k) && i < |c.net.envelopes| && HasHandshake(c.net.envelopes[i].envelope)
    ensures CanReturn(c)
    decreases i
  {
    var ev := Response(k, []);
    N.RunSound(config, evs);
    SuccessFrees(c, k);
    B.RunSnoc(Initialised(config), evs, ev);
    if i == 0 {
      N.RunSound(config, evs + [ev]);
      ReviveInFlight(Step(c, ev), |c.net.sent|);
    } else {
      assert Step(c, ev).net.envelopes[i - 1] == c.net.envelopes[i];
      ReviveWaiting(config, evs + [ev], Step(c, ev), |c.net.sent|, i - 1);
    }
    Lead(c, ev);
  }

  /** What an application message does that is sent into a free slot. */
  lemma {:induction false} SubmitFrees(c: Client)
    requires FreeSlot(c) && !c.internalBatch && c.batch <= 0
    ensures var d := Step(c, User(Submit));
            && d.status == c.status && d.timers == c.timers && d.net.envelopes == c.net.envelopes
            && |d.net.sent| == |c.net.sent| + 1 && Frees(d, |c.net.sent|)
  {
  }

  /** With a free slot and no internal batch, the application ends its batches and sends something. */
  lemma {:induction false} ReviveByMessage(config: Config, evs: seq<Event>, c: Client, i: nat)
    requires Idle(config, evs, c) && FreeSlot(c) && !c.internalBatch
    requires i < |c.net.envelopes| && HasHandshake(c.net.envelopes[i].envelope)
    ensures CanReturn(c)
    decreases c.batch
  {
    var ev := User(if c.batch > 0 then EndBatch else Submit);
    B.RunSnoc(Initialised(config), evs, ev);
    if c.batch > 0 {
      ReviveByMessage(config, evs + [ev], Step(c, ev), i);
    } else {
      SubmitFrees(c);
      ReviveWaiting(config, evs + [ev], Step(c, ev), |c.net.sent|, i);
    }
    Lead(c, ev);
  }

  /** A successful connect reply ends the internal batch, and sends what the application has given meanwhile. */
  lemma {:induction false} ConnectOpens(c: Client, k: nat)
    requires c.status == Disconnected && c.timers == [] && N.Sound(c) && FreeSlot(c)
    requires Answerable(c.net, k) && c.net.sent[k].job.request.longpoll
    ensures var d := Step(c, Response(k, [Reply(ConnectReply, true, None, true, [])]));
            && d.status == Disconnected && d.timers == [] && !d.internalBatch && d.net.envelopes == c.net.envelopes
            && (if c.messageQueue == [] then FreeSlot(d)
                else |d.net.sent| == |c.net.sent| + 1 && Frees(d, |c.net.sent|))
  {
    assert Reports(c.net, k);
  }

  lemma {:induction false} ReviveByConnect(config: Config, evs: seq<Event>, c: Client, k: nat, i: nat)
    requires Idle(config, evs, c) && FreeSlot(c) && Answerable(c.net, k) && c.net.sent[k].job.request.longpoll
    requires i < |c.net.envelopes| && HasHandshake(c.net.envelopes[i].envelope)
    ensures CanReturn(c)
  {
    N.RunSound(config, evs);
    var ev := Response(k, [Reply(ConnectReply, true, None, true, [])]);
    ConnectOpens(c, k);
    B.RunSnoc(Initialised(config), evs, ev);
    if c.messageQueue == [] {
      ReviveByMessage(config, evs + [ev], Step(c, ev), i);
    } else {
      ReviveWaiting(config, evs + [ev], Step(c, ev), |c.net.sent|, i);
    }
    Lead(c, ev);
  }

  lemma {:induction false} Revive(config: Config, evs: seq<Event>, c: Client)
    requires Idle(config, evs, c) && Revivable(c)
    ensures CanReturn(c)
  {
    N.RunSound(config, evs);
    if InFlight(c.net) > 0 {
      var k := ArmedAt(c.net.sent);
      ReviveInFlight(c, k);
    } else {
      var i := OccursAt(c.net.envelopes);
      if k: nat :| Frees(c, k) {
        ReviveWaiting(config, evs, c, k, i);
      } else if !c.internalBatch {
        ReviveByMessage(config, evs, c, i);
      } else {
        var k: nat :| Answerable(c.net, k);
        if c.net.sent[k].job.request.longpoll {
          ReviveByConnect(config, evs, c, k, i);
        } else {
          assert Frees(c, k);
          ReviveWaiting(config, evs, c, k, i);
        }
      }
    }
  }

  /** As long as no response has been unreadable and no failure task is pending, a waiting queue can always move. */
  lemma {:induction false} UsuallyMoves(c: Client)
    requires N.Sound(c) && Slots.Owed(c.net) && c.net.doomed == [] && c.config.maxConnections >= 2
    requires Waiting(c.net) > 0
    ensures QueueMoves(c)
  {
    var i := OccursAt(c.net.envelopes);
    var r := c.net.requests[0];
    assert r in c.net.requests;
    var k :| 0 <= k < |c.net.sent| && c.net.sent[k].timer && c.net.sent[k].job.request == r;
    assert Frees(c, k);
  }

  // ---------------------------------------------------------------- the theorem

  /** Whatever happens short of a call of `handshake()`, the client stays disconnected with nothing scheduled. */
  ghost predicate StaysAway(c: Client) {
    forall more :: PermittedRun(c, more) ==> Run(c, more).status == Disconnected && Run(c, more).timers == []
  }

  /** In every run: a client that is disconnected with nothing scheduled stays so, whatever the network, the server,
      the listeners and the application do, if and only if no handshake is in flight and none waits in a queue that
      can still move. */
  lemma {:induction false} RevivalTheorem(config: Config, evs: seq<Event>)
    requires var c := Run(Initialised(config), evs); c.status == Disconnected && c.timers == []
    ensures StaysAway(Run(Initialised(config), evs)) <==> !Revivable(Run(Initialised(config), evs))
  {
    var c := Run(Initialised(config), evs);
    if Revivable(c) {
      Revive(config, evs, c);
      var more :| WayBack(c, more);
      assert PermittedRun(c, more) && Run(c, more).status != Disconnected;
    } else {
      N.RunSound(config, evs);
      B.RunBooks(config, evs, Connect);
      NotRevivable(c);
      forall more | PermittedRun(c, more)
        ensures Run(c, more).status == Disconnected && Run(c, more).timers == []
      {
        RunSettled(config, evs, more);
      }
    }
  }
}
