/** The one delayed-send timer and the backoff, in every run of the client. */
module ClientTimers {
  import opened Bayeux
  import opened ClientSteps
  import D = SingleDriver

  /** The only live timer is the one that can be cancelled, and the backoff stays within its limits. */
  predicate Timed(c: Client) {
    && D.OneTimer(c)
    && (0 <= c.config.backoffIncrement && 0 <= c.config.maxBackoff ==>
          0 <= c.backoff <= c.config.maxBackoff + c.config.backoffIncrement &&
          forall t :: t in c.timers ==> t.delay >= 0)
  }

  lemma {:induction false} PerformTimed(c: Client, act: Act)
    requires Timed(c)
    ensures Timed(Perform(c, act))
  {
  }

  lemma {:induction false} ApplyTimed(c: Client, p: Prim)
    requires Timed(c)
    ensures Timed(Apply(c, p))
  {
    match p
    case Do(act) => PerformTimed(c, act);
    case Delay(operation) => D.CancelEmpties(c);
    case Cut(abort) => D.CancelEmpties(c);
    case _ =>
  }

  lemma {:induction false} ApplyAllTimed(c: Client, ps: seq<Prim>)
    requires Timed(c)
    ensures Timed(ApplyAll(c, ps))
    decreases ps
  {
    if ps != [] {
      ApplyTimed(c, ps[0]);
      ApplyAllTimed(Apply(c, ps[0]), ps[1..]);
    }
  }

  lemma {:induction false} StepTimed(c: Client, ev: Event)
    requires Timed(c)
    ensures Timed(Step(c, ev))
  {
    EventPlan(c, ev);
    BegunTimed(c, ev);
    ApplyAllTimed(Begun(c, ev), EventSteps(c, ev));
  }

  lemma {:induction false} BegunTimed(c: Client, ev: Event)
    requires Timed(c)
    ensures Timed(Begun(c, ev))
  {
    if !ev.Fire? { BegunFrame(c, ev); }
  }

  lemma {:induction false} RunTimed(config: Config, evs: seq<Event>)
    ensures Timed(Run(Initialised(config), evs))
  {
    if evs != [] {
      RunTimed(config, evs[..|evs| - 1]);
      StepTimed(Run(Initialised(config), evs[..|evs| - 1]), evs[|evs| - 1]);
    }
  }
}
