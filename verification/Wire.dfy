/** What reaches `_send` is what the transport is given: the log of the client and the submissions of its scheduler. */
module Wire {
  import opened Scheduler
  import opened Bayeux
  import opened ClientSteps
  import opened ClientRuns
  import F = ClientFlush
  import D = SingleDriver
  import O = SchedulerOrder

  /** The messages of the envelopes, one envelope after the other. */
  function Flat(envelopes: seq<Envelope>): seq<Message> {
    if envelopes == [] then [] else Flat(envelopes[..|envelopes| - 1]) + envelopes[|envelopes| - 1]
  }

  /** The logged messages, but those at the given places. */
  function Keeping(log: seq<Logged>, dropped: set<nat>): seq<Message> {
    if log == [] then []
    else
      var n := |log| - 1;
      Keeping(log[..n], dropped) + if n in dropped then [] else [log[n].message]
  }

  lemma {:induction false} FlatConcat(a: seq<Envelope>, b: seq<Envelope>)
    ensures Flat(a + b) == Flat(a) + Flat(b)
  {
    if b == [] {
      assert a + b == a;
    } else {
      assert (a + b)[..|a + b| - 1] == a + b[..|b| - 1];
      FlatConcat(a, b[..|b| - 1]);
    }
  }

  lemma {:induction false} FlatOne(e: Envelope)
    ensures Flat([e]) == e
  {
    assert [e][..0] == [];
  }

  lemma {:induction false} KeepingAppend(log: seq<Logged>, l: Logged, dropped: set<nat>)
    ensures Keeping(log + [l], dropped) == Keeping(log, dropped) + if |log| in dropped then [] else [l.message]
  {
    assert (log + [l])[..|log|] == log;
  }

  lemma {:induction false} KeepingConcat(log: seq<Logged>, ms: seq<Message>, internalBatch: bool, dropped: set<nat>)
    requires forall i :: i in dropped ==> i < |log|
    ensures Keeping(log + Log(ms, internalBatch), dropped) == Keeping(log, dropped) + ms
    decreases ms
  {
    if ms == [] {
      assert log + Log(ms, internalBatch) == log;
    } else {
      var first := Logged(ms[0], internalBatch);
      KeepingAppend(log, first, dropped);
      KeepingConcat(log + [first], ms[1..], internalBatch, dropped);
      O.Associate(log, [first], Log(ms[1..], internalBatch));
      O.Associate(Keeping(log, dropped), [ms[0]], ms[1..]);
      assert ms == [ms[0]] + ms[1..];
    }
  }

  // ---------------------------------------------------------------- small steps

  /** The envelopes that a small step gives to the transport. */
  function Given(c: Client, p: Prim): seq<Envelope> {
    if F.Flushes(c, p) then if c.messageQueue == [] then [] else [c.messageQueue]
    else
      match p
      case Do(Submit) => if c.batch > 0 || c.internalBatch then [] else [[App(c.submitted)]]
      case Do(CallDisconnect) => if IsDisconnected(c) then [] else [[Disconnect]]
      case Do(CallHandshake) => [[Handshake]]
      case _ => []
  }

  /** `d` has given the transport these envelopes and logged their messages, and has done neither otherwise. */
  ghost predicate Gives(c: Client, d: Client, envelopes: seq<Envelope>) {
    && d.net.submitted == c.net.submitted + envelopes && c.log <= d.log
    && forall dropped :: (forall i :: i in dropped ==> i < |c.log|) ==>
         Keeping(d.log, dropped) == Keeping(c.log, dropped) + Flat(envelopes)
  }

  lemma {:induction false} GivesNothing(c: Client, d: Client)
    requires d.net.submitted == c.net.submitted && d.log == c.log
    ensures Gives(c, d, [])
  {
  }

  lemma {:induction false} SendGives(c: Client, ms: seq<Message>)
    ensures Gives(c, SendMessages(c, ms, false), [ms])
  {
    FlatOne(ms);
    forall dropped | forall i :: i in dropped ==> i < |c.log|
      ensures Keeping(SendMessages(c, ms, false).log, dropped) == Keeping(c.log, dropped) + Flat([ms])
    {
      KeepingConcat(c.log, ms, c.internalBatch, dropped);
    }
  }

  lemma {:induction false} GivesAlike(b: Client, c: Client, d: Client, envelopes: seq<Envelope>)
    requires b.log == c.log && b.net.submitted == c.net.submitted && Gives(b, d, envelopes)
    ensures Gives(c, d, envelopes)
  {
  }

  lemma {:induction false} FlushGives(c: Client)
    ensures Gives(c, FlushBatch(c), if c.messageQueue == [] then [] else [c.messageQueue])
  {
    if c.messageQueue == [] {
      GivesNothing(c, c);
    } else {
      SendGives(c.(messageQueue := []), c.messageQueue);
      GivesAlike(c.(messageQueue := []), c, FlushBatch(c), [c.messageQueue]);
    }
  }

  lemma {:induction false} HandshakeGives(c: Client)
    ensures Gives(c, DoHandshake(c), [[Handshake]])
  {
    var c1 := if IsDisconnected(c) then c.(net := Reset(c.net)) else c;
    var c2 := c1.(batch := 0, internalBatch := true, status := Handshaking);
    SendGives(c2, [Handshake]);
    GivesAlike(c2, c, DoHandshake(c), [[Handshake]]);
  }

  lemma {:induction false} PerformGives(c: Client, act: Act)
    ensures Gives(c, Perform(c, act), Given(c, Do(act)))
  {
    match act
    case Submit =>
      if c.batch > 0 || c.internalBatch {
        GivesNothing(c, Perform(c, act));
      } else {
        var c1 := c.(submitted := c.submitted + 1, overtaken := c.overtaken + HeldNumbers(c));
        SendGives(c1, [App(c.submitted)]);
        GivesAlike(c1, c, Perform(c, act), [[App(c.submitted)]]);
      }
    case StartBatch => GivesNothing(c, Perform(c, act));
    case EndBatch =>
      var c1 := c.(batch := c.batch - 1, heldBack := if HoldsBack(c) then c.heldBack + 1 else c.heldBack);
      if F.Flushes(c, Do(EndBatch)) {
        FlushGives(c1);
        GivesAlike(c1, c, Perform(c, act), Given(c, Do(act)));
      } else {
        GivesNothing(c, Perform(c, act));
      }
    case CallDisconnect =>
      if IsDisconnected(c) {
        GivesNothing(c, c);
      } else {
        SendGives(c.(status := Disconnecting), [Disconnect]);
        GivesAlike(c.(status := Disconnecting), c, Perform(c, act), [[Disconnect]]);
      }
    case CallHandshake =>
      HandshakeGives(c.(status := Disconnected));
      GivesAlike(c.(status := Disconnected), c, Perform(c, act), [[Handshake]]);
  }

  /** Every small step submits these envelopes and no others, each whole: what is flushed leaves in a single one. */
  lemma {:induction false} StepGives(c: Client, p: Prim)
    ensures Gives(c, Apply(c, p), Given(c, p))
  {
    match p
    case Do(act) => PerformGives(c, act);
    case EndInternalBatch =>
      FlushGives(c.(internalBatch := false));
      GivesAlike(c.(internalBatch := false), c, Apply(c, p), Given(c, p));
    case _ => GivesNothing(c, Apply(c, p));
  }

  function AllGiven(c: Client, ps: seq<Prim>): seq<Envelope>
    decreases ps
  {
    if ps == [] then [] else Given(c, ps[0]) + AllGiven(Apply(c, ps[0]), ps[1..])
  }

  lemma {:induction false} GivesThen(b: Client, c: Client, d: Client, first: seq<Envelope>, second: seq<Envelope>)
    requires Gives(b, c, first) && Gives(c, d, second)
    ensures Gives(b, d, first + second)
  {
    FlatConcat(first, second);
    forall dropped | forall i :: i in dropped ==> i < |b.log|
      ensures Keeping(d.log, dropped) == Keeping(b.log, dropped) + Flat(first + second)
    {
      assert Keeping(c.log, dropped) == Keeping(b.log, dropped) + Flat(first);
      assert Keeping(d.log, dropped) == Keeping(c.log, dropped) + Flat(second);
    }
  }

  lemma {:induction false} AllGives(c: Client, ps: seq<Prim>)
    ensures Gives(c, ApplyAll(c, ps), AllGiven(c, ps))
    decreases ps
  {
    if ps == [] {
      GivesNothing(c, c);
    } else {
      StepGives(c, ps[0]);
      AllGives(Apply(c, ps[0]), ps[1..]);
      GivesThen(c, Apply(c, ps[0]), ApplyAll(c, ps), Given(c, ps[0]), AllGiven(Apply(c, ps[0]), ps[1..]));
    }
  }

  // ---------------------------------------------------------------- events and runs

  /** The transport refuses the long poll, by throwing after the message has been logged. */
  predicate Refuses(c: Client, ev: Event) {
    ev.Fire? && D.Throws(c, ev)
  }

  /** The envelopes that an event gives to the transport. */
  function EventGiven(c: Client, ev: Event): seq<Envelope> {
    if ev.Fire? then
      if ev.i >= |c.timers| || Refuses(c, ev) then []
      else if c.timers[ev.i].operation == SendConnect then [[Connect]]
      else [[Handshake]]
    else AllGiven(Begun(c, ev), EventSteps(c, ev))
  }

  lemma {:induction false} ConnectGives(c: Client)
    requires !ConcurrentLongpoll(c.net)
    ensures Gives(c, DoConnect(c), [[Connect]])
  {
    FlatOne([Connect]);
    forall dropped | forall i :: i in dropped ==> i < |c.log|
      ensures Keeping(DoConnect(c).log, dropped) == Keeping(c.log, dropped) + Flat([[Connect]])
    {
      KeepingConcat(c.log, [Connect], c.internalBatch, dropped);
    }
  }

  lemma {:induction false} FireGives(c: Client, i: nat)
    requires i < |c.timers| && !Refuses(c, Fire(i))
    ensures Gives(c, OnFire(c, i), EventGiven(c, Fire(i)))
  {
    var c1 := c.(timers := c.timers[..i] + c.timers[i + 1..]);
    if c.timers[i].operation == SendConnect { ConnectGives(c1); } else { HandshakeGives(c1); }
    GivesAlike(c1, c, OnFire(c, i), EventGiven(c, Fire(i)));
  }

  lemma {:induction false} EventGives(c: Client, ev: Event)
    ensures !Refuses(c, ev) ==> Gives(c, Step(c, ev), EventGiven(c, ev))
    ensures Refuses(c, ev) ==> Step(c, ev).net.submitted == c.net.submitted &&
                               Step(c, ev).log == c.log + [Logged(Connect, c.internalBatch)]
  {
    if ev.Fire? {
      if ev.i >= |c.timers| {
        GivesNothing(c, c);
      } else if !Refuses(c, ev) {
        FireGives(c, ev.i);
      }
    } else {
      BegunFrame(c, ev);
      GivesNothing(c, Begun(c, ev));
      AllGives(Begun(c, ev), EventSteps(c, ev));
      EventPlan(c, ev);
      GivesAlike(Begun(c, ev), c, Step(c, ev), EventGiven(c, ev));
    }
  }

  /** The places in the log of the long polls that were refused. */
  function Refusals(config: Config, evs: seq<Event>): set<nat> {
    if evs == [] then {}
    else
      var before := Run(Initialised(config), evs[..|evs| - 1]);
      Refusals(config, evs[..|evs| - 1]) + if Refuses(before, evs[|evs| - 1]) then {|before.log|} else {}
  }

  /** In every run, the envelopes given to the transport, taken together and in order, are what reached `_send`, in
      order, but for the long polls that the transport refused by throwing; and nothing but connects is refused. */
  lemma {:induction false} WireTheorem(config: Config, evs: seq<Event>)
    ensures OnTheWire(Run(Initialised(config), evs), Refusals(config, evs))
  {
    if evs == [] {
      FirstGiven(config);
    } else {
      var most, ev := evs[..|evs| - 1], evs[|evs| - 1];
      WireTheorem(config, most);
      WireStep(Run(Initialised(config), most), ev, Refusals(config, most));
    }
  }

  /** The submissions are the log but for the refused connects. */
  predicate OnTheWire(c: Client, refused: set<nat>) {
    && Flat(c.net.submitted) == Keeping(c.log, refused)
    && forall i :: i in refused ==> i < |c.log| && c.log[i].message == Connect
  }

  lemma {:induction false} WireStep(c: Client, ev: Event, refused: set<nat>)
    requires OnTheWire(c, refused)
    ensures OnTheWire(Step(c, ev), refused + if Refuses(c, ev) then {|c.log|} else {})
  {
    EventGives(c, ev);
    if Refuses(c, ev) {
      var more := refused + {|c.log|};
      KeepingSame(c.log, refused, more);
      KeepingAppend(c.log, Logged(Connect, c.internalBatch), more);
    } else {
      FlatConcat(c.net.submitted, EventGiven(c, ev));
      assert refused + {} == refused;
    }
  }

  lemma {:induction false} FirstGiven(config: Config)
    ensures var c := Initialised(config); Flat(c.net.submitted) == Keeping(c.log, {})
  {
    var c := Fresh(config).(status := Disconnected);
    HandshakeGives(c);
    assert Keeping(Initialised(config).log, {}) == Keeping(c.log, {}) + Flat([[Handshake]]);
    assert c.net.submitted + [[Handshake]] == [[Handshake]];
  }

  lemma {:induction false} KeepingSame(log: seq<Logged>, a: set<nat>, b: set<nat>)
    requires forall i :: 0 <= i < |log| ==> (i in a <==> i in b)
    ensures Keeping(log, a) == Keeping(log, b)
  {
    if log != [] { KeepingSame(log[..|log| - 1], a, b); }
  }

  // ---------------------------------------------------------------- what that means

  lemma {:induction false} KeepingReached(log: seq<Logged>, dropped: set<nat>)
    requires forall i :: i in dropped && i < |log| ==> !log[i].message.App?
    ensures Numbers(Keeping(log, dropped)) == Reached(log)
  {
    if log != [] {
      var n := |log| - 1;
      KeepingReached(log[..n], dropped);
      NumbersConcat(Keeping(log[..n], dropped), [log[n].message]);
      assert Keeping(log[..n], dropped) + [] == Keeping(log[..n], dropped);
    }
  }

  /** So in every run the application's messages are submitted to the transport once each and in the order in which they
      reached `_send`. */
  lemma {:induction false} AppsOnTheWire(config: Config, evs: seq<Event>)
    ensures var c := Run(Initialised(config), evs); Numbers(Flat(c.net.submitted)) == Reached(c.log)
  {
    WireTheorem(config, evs);
    KeepingReached(Run(Initialised(config), evs).log, Refusals(config, evs));
  }

  /** And with at most one driver nothing is ever refused. */
  lemma {:induction false} NothingRefused(config: Config, evs: seq<Event>)
    requires D.AllowedRun(Initialised(config), evs)
    ensures Refusals(config, evs) == {}
  {
    if evs != [] {
      NothingRefused(config, evs[..|evs| - 1]);
      D.SingleDriverTheorem(config, evs[..|evs| - 1], evs[|evs| - 1]);
    }
  }
}
