/** When application messages are held back: the user batches that are open and the internal batch, in every run. */
module Batches {
  import opened Bayeux
  import opened ClientSteps

  /** `startBatch` and `endBatch` count; a handshake that is sent and a disconnection close all user batches. */
  function OpenAfter(n: int, p: Prim): int {
    match p
    case Do(act) =>
      (match act
       case StartBatch => n + 1
       case EndBatch => n - 1
       case CallHandshake => 0
       case _ => n)
    case Cut(_) => 0
    case _ => n
  }

  /** The internal batch lasts from a handshake that is sent or scheduled to the next successful connect reply. */
  function HoldingAfter(b: bool, p: Prim): bool {
    match p
    case Do(act) => b || act == CallHandshake
    case Delay(operation) => b || operation == SendHandshake
    case EndInternalBatch => false
    case _ => b
  }

  lemma {:induction false} StepBatches(c: Client, p: Prim)
    ensures Apply(c, p).batch == OpenAfter(c.batch, p)
    ensures Apply(c, p).internalBatch == HoldingAfter(c.internalBatch, p)
  {
  }

  function OpenAfterAll(n: int, ps: seq<Prim>): int
    decreases ps
  {
    if ps == [] then n else OpenAfterAll(OpenAfter(n, ps[0]), ps[1..])
  }

  function HoldingAfterAll(b: bool, ps: seq<Prim>): bool
    decreases ps
  {
    if ps == [] then b else HoldingAfterAll(HoldingAfter(b, ps[0]), ps[1..])
  }

  lemma {:induction false} StepsBatches(c: Client, ps: seq<Prim>)
    ensures ApplyAll(c, ps).batch == OpenAfterAll(c.batch, ps)
    ensures ApplyAll(c, ps).internalBatch == HoldingAfterAll(c.internalBatch, ps)
    decreases ps
  {
    if ps != [] {
      StepBatches(c, ps[0]);
      StepsBatches(Apply(c, ps[0]), ps[1..]);
    }
  }

  /** The event is a timer that sends a handshake. */
  predicate SendsHandshake(c: Client, ev: Event) {
    ev.Fire? && ev.i < |c.timers| && c.timers[ev.i].operation == SendHandshake
  }

  /** How many user batches a run has left open; an `endBatch` too many counts below zero. */
  function Open(config: Config, evs: seq<Event>): int {
    if evs == [] then 0
    else
      var before, ev := Run(Initialised(config), evs[..|evs| - 1]), evs[|evs| - 1];
      if SendsHandshake(before, ev) then 0
      else OpenAfterAll(Open(config, evs[..|evs| - 1]), EventSteps(before, ev))
  }

  predicate Holding(config: Config, evs: seq<Event>) {
    if evs == [] then true
    else
      var before, ev := Run(Initialised(config), evs[..|evs| - 1]), evs[|evs| - 1];
      SendsHandshake(before, ev) || HoldingAfterAll(Holding(config, evs[..|evs| - 1]), EventSteps(before, ev))
  }

  lemma {:induction false} EventBatches(c: Client, ev: Event)
    ensures Step(c, ev).batch == if SendsHandshake(c, ev) then 0 else OpenAfterAll(c.batch, EventSteps(c, ev))
    ensures Step(c, ev).internalBatch ==
            (SendsHandshake(c, ev) || HoldingAfterAll(c.internalBatch, EventSteps(c, ev)))
  {
    if !ev.Fire? {
      BegunFrame(c, ev);
      EventPlan(c, ev);
      StepsBatches(Begun(c, ev), EventSteps(c, ev));
    }
  }

  lemma {:induction false} RunBatches(config: Config, evs: seq<Event>)
    ensures Run(Initialised(config), evs).batch == Open(config, evs)
    ensures Run(Initialised(config), evs).internalBatch == Holding(config, evs)
  {
    if evs != [] {
      RunBatches(config, evs[..|evs| - 1]);
      EventBatches(Run(Initialised(config), evs[..|evs| - 1]), evs[|evs| - 1]);
    }
  }

  lemma {:induction false} SubmitHeldOrSent(c: Client)
    ensures var d := Step(c, User(Submit));
            if c.batch <= 0 && !c.internalBatch
            then d.messageQueue == c.messageQueue && d.log == c.log + [Logged(App(c.submitted), false)]
            else d.messageQueue == c.messageQueue + [App(c.submitted)] && d.log == c.log && d.net == c.net
  {
    assert Log([App(c.submitted)], false) == [Logged(App(c.submitted), false)];
  }

  /** After every run, a message given to the client is sent at once if no user batch is open and the internal batch is
      off, and held behind those held already otherwise. */
  lemma {:induction false} HoldTheorem(config: Config, evs: seq<Event>)
    ensures var c := Run(Initialised(config), evs);
            var d := Step(c, User(Submit));
            if Open(config, evs) <= 0 && !Holding(config, evs)
            then d.messageQueue == c.messageQueue && d.log == c.log + [Logged(App(c.submitted), false)]
            else d.messageQueue == c.messageQueue + [App(c.submitted)] && d.log == c.log && d.net == c.net
  {
    RunBatches(config, evs);
    SubmitHeldOrSent(Run(Initialised(config), evs));
  }
}
