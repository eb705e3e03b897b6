/** How long the client waits before it connects or handshakes again: the advised interval, and a backoff that grows
    with each failure in a row up to a limit. */
module Delays {
  import opened Options
  import opened Scheduler
  import opened Bayeux
  import opened ClientSteps
  import D = SingleDriver
  import T = ClientTimers

  function Positive(x: int): int {
    if x > 0 then x else 0
  }

  /** The backoff after `n` failures in a row. */
  function Capped(config: Config, n: nat): int {
    if n == 0 then 0
    else
      var b := Capped(config, n - 1);
      if b < config.maxBackoff then b + config.backoffIncrement else b
  }

  /** It grows by increments until it has reached the maximum. */
  lemma {:induction false} CappedIs(config: Config, n: nat)
    requires config.backoffIncrement > 0 && config.maxBackoff >= 0
    ensures var steps := (config.maxBackoff + config.backoffIncrement - 1) / config.backoffIncrement;
            Capped(config, n) == config.backoffIncrement * if n < steps then n else steps
  {
    var inc, max := config.backoffIncrement, config.maxBackoff;
    var steps := (max + inc - 1) / inc;
    if n > 0 {
      CappedIs(config, n - 1);
      if n - 1 < steps { Below(inc, max, n - 1); } else { AtLeast(inc, max); }
    }
  }

  lemma {:induction false} Below(inc: int, max: int, n: int)
    requires inc > 0 && n < (max + inc - 1) / inc
    ensures inc * n < max && inc * (n + 1) == inc * n + inc
  {
    var q := (max + inc - 1) / inc;
    assert inc * q <= max + inc - 1;
    assert inc * (n + 1) <= inc * q;
  }

  lemma {:induction false} AtLeast(inc: int, max: int)
    requires inc > 0
    ensures inc * ((max + inc - 1) / inc) >= max
  {
  }

  // ---------------------------------------------------------------- what each step does

  /** The timer that a delayed send sets: the delay is the backoff and the advised interval, if that is positive. */
  function TimerSet(c: Client, operation: Operation): Timer {
    Timer(c.timerIds + 1, operation, c.backoff + Positive(c.advice.interval))
  }

  function BackoffAfter(c: Client, p: Prim): int {
    match p
    case RaiseBackoff => if c.backoff < c.config.maxBackoff then c.backoff + c.config.backoffIncrement else c.backoff
    case ClearBackoff => 0
    case Cut(_) => 0
    case _ => c.backoff
  }

  lemma {:induction false} PerformWaits(c: Client, act: Act)
    ensures var d := Perform(c, act);
            && d.timers == c.timers && d.timerIds == c.timerIds && d.scheduledSend == c.scheduledSend
            && d.backoff == c.backoff && d.advice == c.advice && d.config == c.config
  {
  }

  /** Of all small steps only a delayed send sets a timer, in place of any other, and only a disconnection clears it. */
  lemma {:induction false} StepWaits(c: Client, p: Prim)
    requires D.OneTimer(c)
    ensures var d := Apply(c, p);
            && D.OneTimer(d) && d.config == c.config && d.backoff == BackoffAfter(c, p)
            && d.advice == (if p.Learn? then p.advice else c.advice)
            && d.timers == match p
                           case Delay(operation) => [TimerSet(c, operation)]
                           case Cut(_) => []
                           case _ => c.timers
  {
    match p
    case Do(act) => PerformWaits(c, act);
    case Delay(_) => D.CancelEmpties(c);
    case Cut(_) => D.CancelEmpties(c);
    case _ =>
  }

  // ---------------------------------------------------------------- in every run

  /** One of the steps set this timer, with the backoff and the advice that were in force there and then. */
  predicate SetDuring(c: Client, ps: seq<Prim>, t: Timer)
    decreases ps
  {
    ps != [] &&
    ((ps[0].Delay? && t == TimerSet(c, ps[0].operation)) || SetDuring(Apply(c, ps[0]), ps[1..], t))
  }

  predicate SetIn(config: Config, evs: seq<Event>, t: Timer) {
    evs != [] &&
    var before, ev := Run(Initialised(config), evs[..|evs| - 1]), evs[|evs| - 1];
    SetIn(config, evs[..|evs| - 1], t) || SetDuring(Begun(before, ev), EventSteps(before, ev), t)
  }

  lemma {:induction false} StepsSet(c: Client, ps: seq<Prim>, t: Timer)
    requires D.OneTimer(c) && t in ApplyAll(c, ps).timers
    ensures t in c.timers || SetDuring(c, ps, t)
    decreases ps
  {
    if ps != [] {
      StepWaits(c, ps[0]);
      StepsSet(Apply(c, ps[0]), ps[1..], t);
    }
  }

  /** In every run the delay of the live timer is the backoff plus the positive part of the interval in the advice, both
      as they were when it was set. */
  lemma {:induction false} DelayTheorem(config: Config, evs: seq<Event>, t: Timer)
    requires t in Run(Initialised(config), evs).timers
    ensures SetIn(config, evs, t)
  {
    if evs != [] {
      var most, ev := evs[..|evs| - 1], evs[|evs| - 1];
      var c := Run(Initialised(config), most);
      T.RunTimed(config, most);
      EventPlan(c, ev);
      BegunWaits(c, ev);
      StepsSet(Begun(c, ev), EventSteps(c, ev), t);
      if t in c.timers { DelayTheorem(config, most, t); }
    }
  }

  lemma {:induction false} BegunWaits(c: Client, ev: Event)
    requires D.OneTimer(c)
    ensures var d := Begun(c, ev);
            && D.OneTimer(d) && d.backoff == c.backoff && d.advice == c.advice && d.config == c.config
            && forall t :: t in d.timers ==> t in c.timers
    ensures !ev.Fire? ==> Begun(c, ev).timers == c.timers && Begun(c, ev).timerIds == c.timerIds
  {
    if !ev.Fire? { BegunFrame(c, ev); }
  }

  /** How many failures in a row the steps bring it to. */
  function Streak(n: nat, ps: seq<Prim>): nat
    decreases ps
  {
    if ps == [] then n
    else Streak(match ps[0]
                case RaiseBackoff => n + 1
                case ClearBackoff => 0
                case Cut(_) => 0
                case _ => n, ps[1..])
  }

  function RunStreak(config: Config, evs: seq<Event>): nat {
    if evs == [] then 0
    else
      var before, ev := Run(Initialised(config), evs[..|evs| - 1]), evs[|evs| - 1];
      Streak(RunStreak(config, evs[..|evs| - 1]), EventSteps(before, ev))
  }

  lemma {:induction false} StepsStreak(c: Client, ps: seq<Prim>, n: nat)
    requires D.OneTimer(c) && c.backoff == Capped(c.config, n)
    ensures var d := ApplyAll(c, ps); d.config == c.config && d.backoff == Capped(c.config, Streak(n, ps))
    decreases ps
  {
    if ps != [] {
      StepWaits(c, ps[0]);
      var m := match ps[0]
        case RaiseBackoff => n + 1
        case ClearBackoff => 0
        case Cut(_) => 0
        case _ => n;
      StepsStreak(Apply(c, ps[0]), ps[1..], m);
    }
  }

  /** In every run the backoff is that of the failures since it was last cleared. */
  lemma {:induction false} BackoffTheorem(config: Config, evs: seq<Event>)
    ensures var c := Run(Initialised(config), evs);
            c.config == config && c.backoff == Capped(config, RunStreak(config, evs))
  {
    if evs != [] {
      var most, ev := evs[..|evs| - 1], evs[|evs| - 1];
      var c := Run(Initialised(config), most);
      BackoffTheorem(config, most);
      T.RunTimed(config, most);
      EventPlan(c, ev);
      BegunWaits(c, ev);
      StepsStreak(Begun(c, ev), EventSteps(c, ev), RunStreak(config, most));
    }
  }

  // ---------------------------------------------------------------- what each reply and each failure brings

  /** The timers and the backoff afterwards. */
  datatype Wait = Wait(timers: seq<Timer>, backoff: int)

  function WaitOf(c: Client): Wait {
    Wait(c.timers, c.backoff)
  }

  function Raised(c: Client): int {
    if c.backoff < c.config.maxBackoff then c.backoff + c.config.backoffIncrement else c.backoff
  }

  function Later(c: Client, operation: Operation, backoff: int): Wait {
    Wait([Timer(c.timerIds + 1, operation, backoff + Positive(c.advice.interval))], backoff)
  }

  predicate Retries(a: Advice) {
    a.reconnect == Unset || a.reconnect == Retry
  }

  /** Whether the calls leave the client disconnected. */
  predicate Leaves(disconnected: bool, acts: seq<Act>)
    decreases acts
  {
    if acts == [] then disconnected
    else Leaves(acts[0] == CallDisconnect || (acts[0] != CallHandshake && disconnected), acts[1..])
  }

  /** With the advice of the reply already taken over. */
  function ReplyBrings(c: Client, r: Reply): Wait {
    match r.kind
    case HandshakeReply =>
      if !r.successful then
        if !IsDisconnected(c) && c.advice.reconnect != Never then Later(c, SendHandshake, Raised(c)) else WaitOf(c)
      else if r.negotiated && Retries(c.advice) then Later(c, SendConnect, c.backoff)
      else WaitOf(c)
    case ConnectReply =>
      if r.successful then
        if !IsDisconnected(c) && Retries(c.advice) then Later(c, SendConnect, 0) else Wait(c.timers, 0)
      else if IsDisconnected(c) || c.advice.reconnect == Never then Wait(c.timers, 0)
      else if Retries(c.advice) then Later(c, SendConnect, Raised(c))
      else if c.advice.reconnect == Rehandshake then Later(c, SendHandshake, 0)
      else WaitOf(c)
    case DisconnectReply => Wait([], 0)
    case OtherReply => WaitOf(c)
  }

  function FailureBrings(c: Client, m: Message, acts: seq<Act>): Wait {
    match m
    case Handshake =>
      if !IsDisconnected(c) && c.advice.reconnect != Never then Later(c, SendHandshake, Raised(c)) else WaitOf(c)
    case Connect =>
      if Leaves(IsDisconnected(c), acts) then WaitOf(c)
      else if Retries(c.advice) then Later(c, SendConnect, Raised(c))
      else if c.advice.reconnect == Rehandshake then Later(c, SendHandshake, 0)
      else if c.advice.reconnect == Never then Wait(c.timers, 0)
      else WaitOf(c)
    case Disconnect => Wait([], 0)
    case App(_) => WaitOf(c)
  }

  /** What delayed sends depend on, but for the backoff. */
  predicate Alike(c: Client, d: Client) {
    && d.timers == c.timers && d.timerIds == c.timerIds && d.scheduledSend == c.scheduledSend
    && d.advice == c.advice && d.config == c.config
  }

  lemma {:induction false} ListenersWait(c: Client, acts: seq<Act>)
    ensures var d := Listeners(c, acts);
            Alike(c, d) && d.backoff == c.backoff && (IsDisconnected(d) <==> Leaves(IsDisconnected(c), acts))
    decreases acts
  {
    if acts != [] {
      PerformWaits(c, acts[0]);
      ListenersWait(Perform(c, acts[0]), acts[1..]);
    }
  }

  lemma {:induction false} DelayedWaits(c: Client, d: Client)
    requires D.OneTimer(c) && Alike(c, d)
    ensures WaitOf(DelayedConnect(d)) == Later(c, SendConnect, d.backoff)
    ensures WaitOf(DelayedHandshake(d)) == Later(c, SendHandshake, d.backoff)
  {
    D.CancelEmpties(d);
  }

  lemma {:induction false} RaisedWaits(c: Client, d: Client)
    requires D.OneTimer(c) && Alike(c, d) && d.backoff == c.backoff
    ensures WaitOf(DelayedConnect(IncreaseBackoff(d))) == Later(c, SendConnect, Raised(c))
    ensures WaitOf(DelayedHandshake(IncreaseBackoff(d))) == Later(c, SendHandshake, Raised(c))
  {
    DelayedWaits(c, IncreaseBackoff(d));
  }

  lemma {:induction false} HandshakeFailedWaits(c: Client, acts: seq<Act>)
    requires D.OneTimer(c)
    ensures WaitOf(HandshakeFailed(c, acts)) ==
            if !IsDisconnected(c) && c.advice.reconnect != Never then Later(c, SendHandshake, Raised(c)) else WaitOf(c)
  {
    if !IsDisconnected(c) && c.advice.reconnect != Never {
      ListenersWait(c, acts);
      RaisedWaits(c, Listeners(c, acts));
    } else {
      ListenersWait(c.(status := Disconnected), acts);
    }
  }

  lemma {:induction false} HandshakeSucceededWaits(c: Client, acts: seq<Act>)
    requires D.OneTimer(c)
    ensures WaitOf(HandshakeSucceeded(c, acts)) ==
            if Retries(c.advice) then Later(c, SendConnect, c.backoff) else WaitOf(c)
  {
    ListenersWait(c, acts);
    DelayedWaits(c, Listeners(c, acts));
  }

  lemma {:induction false} SucceededWaits(c: Client, action: Reconnect, acts: seq<Act>)
    requires D.OneTimer(c)
    ensures WaitOf(ConnectSucceeded(c, action, acts)) ==
            if action == Retry then Later(c, SendConnect, 0) else Wait(c.timers, 0)
  {
    var f := FlushBatch(c.(internalBatch := false));
    ListenersWait(f, acts);
    if action == Retry { DelayedWaits(c, Listeners(f, acts).(backoff := 0)); }
  }

  lemma {:induction false} RefusedWaits(c: Client, action: Reconnect, acts: seq<Act>)
    requires D.OneTimer(c)
    ensures WaitOf(ConnectRefused(c, action, acts)) ==
            match action
            case Retry => Later(c, SendConnect, Raised(c))
            case Rehandshake => Later(c, SendHandshake, 0)
            case Never => Wait(c.timers, 0)
            case _ => WaitOf(c)
  {
    ListenersWait(c, acts);
    var l := Listeners(c, acts);
    if action == Retry {
      RaisedWaits(c, l);
      assert ConnectRefused(c, action, acts) == DelayedConnect(IncreaseBackoff(l));
    } else if action == Rehandshake {
      DelayedWaits(c, l.(backoff := 0));
      assert ConnectRefused(c, action, acts) == DelayedHandshake(l.(backoff := 0));
    }
  }

  lemma {:induction false} ConnectReplyWaits(c: Client, r: Reply)
    requires D.OneTimer(c) && r.kind == ConnectReply && r.advice.None?
    ensures WaitOf(Receive(c, r)) == ReplyBrings(c, r)
  {
    if r.successful {
      SucceededWaits(ConnectStatus(c), ConnectAction(c), r.acts);
    } else {
      RefusedWaits(ConnectStatus(c), ConnectAction(c), r.acts);
    }
  }

  /** What a single reply does to the timers and to the backoff, whatever its listeners call. */
  lemma {:induction false} ReplyWaits(c: Client, r: Reply)
    requires D.OneTimer(c)
    ensures var c1 := if r.advice.Some? then c.(advice := r.advice.value) else c;
            WaitOf(Receive(c, r)) == ReplyBrings(c1, r)
  {
    var c1 := if r.advice.Some? then c.(advice := r.advice.value) else c;
    var r1 := r.(advice := None);
    assert Receive(c, r) == Receive(c1, r1);
    match r.kind
    case HandshakeReply =>
      if r.successful { HandshakeSucceededWaits(c1, r.acts); } else { HandshakeFailedWaits(c1, r.acts); }
    case ConnectReply => ConnectReplyWaits(c1, r1);
    case DisconnectReply =>
      D.CancelEmpties(c1);
      ListenersWait(Disconnection(c1, !r.successful), r.acts);
    case OtherReply => ListenersWait(c1, r.acts);
  }

  lemma {:induction false} ConnectFailureWaits(c: Client, acts: seq<Act>)
    requires D.OneTimer(c)
    ensures WaitOf(ConnectFailed(c, acts)) == FailureBrings(c, Connect, acts)
  {
    var l := Listeners(c, acts);
    ListenersWait(c, acts);
    if !IsDisconnected(l) {
      if Retries(c.advice) {
        RaisedWaits(c, l);
      } else if c.advice.reconnect == Rehandshake {
        DelayedWaits(c, l.(backoff := 0));
      }
    }
  }

  /** And what the failure of a single message does. */
  lemma {:induction false} FailureWaits(c: Client, m: Message, acts: seq<Act>)
    requires D.OneTimer(c)
    ensures WaitOf(FailMessage(c, m, acts)) == FailureBrings(c, m, acts)
  {
    match m
    case Handshake => HandshakeFailedWaits(c, acts);
    case Connect => ConnectFailureWaits(c, acts);
    case Disconnect =>
      D.CancelEmpties(c);
      ListenersWait(Disconnection(c, true), acts);
    case App(_) => ListenersWait(c, acts);
  }

  // ---------------------------------------------------------------- events

  /** After a successful connect reply with advice to retry the next long poll waits for the advised interval only. */
  lemma {:induction false} SuccessDelay(c: Client, k: nat, interval: int, acts: seq<Act>)
    requires D.OneTimer(c) && !IsDisconnected(c)
    requires CallsBack(c, Response(k, [Reply(ConnectReply, true, Some(Advice(Retry, interval)), true, acts)]))
    ensures var r := Reply(ConnectReply, true, Some(Advice(Retry, interval)), true, acts);
            var d := Step(c, Response(k, [r]));
            d.timers == [Timer(c.timerIds + 1, SendConnect, Positive(interval))] && d.backoff == 0
  {
    var r := Reply(ConnectReply, true, Some(Advice(Retry, interval)), true, acts);
    var ev := Response(k, [r]);
    var b := Begun(c, ev);
    BegunFrame(c, ev);
    ReplyWaits(b, r);
    assert Replies(b, [r]) == Receive(b, r) by { assert [r][1..] == []; }
    assert Step(c, ev) == Receive(b, r);
  }

  /** A client that waits to connect. */
  predicate Waiting(c: Client, advice: Advice, backoff: int) {
    && |c.timers| == 1 && c.timers[0].operation == SendConnect && c.scheduledSend == Some(c.timers[0].id)
    && c.net.longpollRequest.None? && c.advice == advice && c.backoff == backoff
  }

  /** The timer fires and the long poll fails. */
  function Attempt(c: Client): Client
    requires |c.timers| > 0
  {
    var d := Step(c, Fire(0));
    if d.net.sent == [] then d else Step(d, NetFailure(|d.net.sent| - 1, []))
  }

  /** The long poll that the timer sends. */
  lemma {:induction false} AttemptSends(c: Client, advice: Advice, backoff: int)
    requires Waiting(c, advice, backoff)
    ensures var d := Step(c, Fire(0));
            && d.timers == [] && d.advice == advice && d.backoff == backoff && d.config == c.config
            && d.status == Connected && d.net.sent != []
            && var s := d.net.sent[|d.net.sent| - 1];
               s == Sent(Job([Connect], s.job.request), true, false, true) && s.job.request.longpoll &&
               d.net.longpollRequest == Some(s.job.request)
  {
    assert c.timers[..0] + c.timers[1..] == [];
  }

  /** Its failure. */
  lemma {:induction false} AttemptFails(c: Client, k: nat)
    requires c.timers == [] && Retries(c.advice) && c.status == Connected && k < |c.net.sent|
    requires Reports(c.net, k) && c.net.sent[k].job.envelope == [Connect] && c.net.sent[k].job.request.longpoll
    requires c.net.longpollRequest == Some(c.net.sent[k].job.request)
    ensures var d := Step(c, NetFailure(k, []));
            Waiting(d, c.advice, Raised(c)) && WaitOf(d) == Later(c, SendConnect, Raised(c)) && d.config == c.config
  {
    var ev := NetFailure(k, []);
    var b := Begun(c, ev);
    BegunFrame(c, ev);
    assert FailMessages(b, [Connect], []) == ConnectFailed(b, []) by { assert [Connect][1..] == []; }
    assert Step(c, ev) == ConnectFailed(b, []);
    ConnectFailureWaits(b, []);
    assert ConnectFailed(b, []) == DelayedConnect(IncreaseBackoff(b));
  }

  lemma {:induction false} NextAttempt(c: Client, advice: Advice, backoff: int)
    requires Waiting(c, advice, backoff) && Retries(advice)
    ensures var d := Attempt(c);
            && Waiting(d, advice, Raised(c)) && d.config == c.config
            && d.timers[0].delay == Raised(c) + Positive(advice.interval)
  {
    AttemptSends(c, advice, backoff);
    var d := Step(c, Fire(0));
    AttemptFails(d, |d.net.sent| - 1);
  }

  /** The client before the first of several attempts, after it, and so on. */
  ghost predicate AttemptsInARow(cs: seq<Client>) {
    forall i, j :: 0 <= i < |cs| && 0 <= j < |cs| && j == i + 1 ==> cs[i].timers != [] && cs[j] == Attempt(cs[i])
  }

  /** After `n` failed connects in a row the next one waits for the backoff of `n` capped increments and for the advised
      interval. */
  lemma {:induction false} FailuresInARow(cs: seq<Client>, n: nat, advice: Advice)
    requires AttemptsInARow(cs) && n < |cs| && Waiting(cs[0], advice, 0) && Retries(advice)
    ensures Waiting(cs[n], advice, Capped(cs[0].config, n)) && cs[n].config == cs[0].config
    ensures n > 0 ==> cs[n].timers[0].delay == Capped(cs[0].config, n) + Positive(advice.interval)
  {
    if n > 0 {
      FailuresInARow(cs, n - 1, advice);
      NextAttempt(cs[n - 1], advice, Capped(cs[0].config, n - 1));
      assert cs[n] == Attempt(cs[n - 1]);
    }
  }
}
