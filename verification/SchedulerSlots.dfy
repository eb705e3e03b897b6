/** Which requests hold the ordinary slots, and whether a callback is still to come that will free them. */
module SchedulerSlots {
  import opened Scheduler
  import opened SchedulerRuns
  import O = SchedulerOrder

  // ---------------------------------------------------------------- requests are never mistaken for each other

  predicate Known(requestIds: nat, request: Request) {
    request.id <= requestIds && !request.longpoll
  }

  predicate Untracked<E>(n: Net<E>, jobs: seq<Job<E>>) {
    forall i :: 0 <= i < |jobs| ==> Known(n.requestIds, jobs[i].request) && jobs[i].request !in n.requests
  }

  predicate Distinct(requests: seq<Request>) {
    forall i, j :: 0 <= i < j < |requests| ==> requests[i] != requests[j]
  }

  /** Tracked requests are ordinary and tracked once; no envelope that waits or is doomed has a tracked request. */
  ghost predicate Ids<E>(n: Net<E>) {
    && (forall k :: 0 <= k < |n.sent| ==> n.sent[k].job.request.id <= n.requestIds)
    && (forall k, l :: 0 <= k < l < |n.sent| ==> n.sent[k].job.request.id < n.sent[l].job.request.id)
    && (forall i :: 0 <= i < |n.requests| ==> Known(n.requestIds, n.requests[i]))
    && Distinct(n.requests) && Untracked(n, n.envelopes) && Untracked(n, n.doomed)
  }

  lemma {:induction false} WithoutMembers<T>(s: seq<T>, x: T, y: T)
    ensures y in Without(s, x) ==> y in s
    ensures x != y && y in s ==> y in Without(s, x)
  {
    if s != [] {
      assert s == [s[0]] + s[1..];
      if s[0] != x { WithoutMembers(s[1..], x, y); }
    }
  }

  lemma {:induction false} WithoutDistinct(s: seq<Request>, x: Request)
    requires Distinct(s)
    ensures Distinct(Without(s, x)) && x !in Without(s, x)
  {
    if s != [] {
      assert Distinct(s[1..]);
      if s[0] == x {
        forall i | 0 <= i < |s[1..]| ensures s[1..][i] != x { assert s[0] != s[i + 1]; }
      } else {
        WithoutDistinct(s[1..], x);
        var w := Without(s[1..], x);
        forall j | 0 <= j < |w| ensures w[j] != s[0] {
          WithoutMembers(s[1..], x, w[j]);
          var k :| 0 <= k < |s[1..]| && s[1..][k] == w[j];
          assert s[0] != s[k + 1];
        }
      }
    }
  }

  lemma {:induction false} QueueSendIds<E>(maxConnections: int, n: Net<E>, e: E)
    requires Ids(n)
    ensures Ids(QueueSend(maxConnections, n, e))
  {
  }

  lemma {:induction false} SendIds<E>(maxConnections: int, n: Net<E>, e: E, longpoll: bool)
    requires Ids(n)
    ensures Ids(Send(maxConnections, n, e, longpoll))
  {
    if !longpoll { QueueSendIds(maxConnections, n.(submitted := n.submitted + [e]), e); }
  }

  lemma {:induction false} FreeIds<E>(n: Net<E>, request: Request)
    requires Ids(n)
    ensures Ids(n.(requests := Without(n.requests, request)))
  {
    var w := Without(n.requests, request);
    WithoutDistinct(n.requests, request);
    forall y ensures y in w ==> y in n.requests { WithoutMembers(n.requests, request, y); }
    forall i | 0 <= i < |w| ensures Known(n.requestIds, w[i]) { assert w[i] in w; }
  }

  lemma {:induction false} CompleteIds<E>(maxConnections: int, n: Net<E>, request: Request, success: bool)
    requires Ids(n)
    ensures Ids(Complete(maxConnections, n, request, success))
  {
    FreeIds(n, request);
    if n.envelopes != [] {
      var freed := n.(requests := Without(n.requests, request), envelopes := n.envelopes[1..]);
      assert n.envelopes[0].request !in freed.requests;
      assert Ids(freed);
      if success { QueueSendIds(maxConnections, freed, n.envelopes[0].envelope); }
    }
  }

  lemma {:induction false} CompletionIds<E>(maxConnections: int, n: Net<E>, request: Request, success: bool)
    requires Ids(n)
    ensures Ids(Completion(maxConnections, n, request, success))
  {
    if !request.longpoll { CompleteIds(maxConnections, n, request, success); }
  }

  lemma {:induction false} CallbackIds<E>(n: Net<E>, k: nat)
    requires Ids(n) && k < |n.sent|
    ensures Ids(Report(n, k)) && Ids(Expire(n, k))
  {
  }

  lemma {:induction false} DoomIds<E>(n: Net<E>, j: nat)
    requires Ids(n) && j < |n.doomed|
    ensures Ids(Doom(n, j))
  {
  }

  lemma {:induction false} StepIds<E>(maxConnections: int, n: Net<E>, ev: Event<E>)
    requires Ids(n)
    ensures Ids(Step(maxConnections, n, ev))
  {
    match ev
    case Submit(e, longpoll) => SendIds(maxConnections, n, e, longpoll);
    case Success(k) =>
      if k < |n.sent| {
        CallbackIds(n, k);
        CompletionIds(maxConnections, Report(n, k), n.sent[k].job.request, true);
      }
    case Unreadable(k) => if k < |n.sent| { CallbackIds(n, k); }
    case Failure(k) =>
      if k < |n.sent| {
        CallbackIds(n, k);
        CompletionIds(maxConnections, Report(n, k), n.sent[k].job.request, false);
      }
    case Timeout(k) =>
      if k < |n.sent| {
        CallbackIds(n, k);
        CompletionIds(maxConnections, Expire(n, k), n.sent[k].job.request, false);
      }
    case FailTask(j) =>
      if j < |n.doomed| {
        DoomIds(n, j);
        CompleteIds(maxConnections, Doom(n, j), n.doomed[j].request, false);
      }
    case ResetAll =>
  }

  lemma {:induction false} RunIds<E>(maxConnections: int, evs: seq<Event<E>>)
    ensures Ids(Run(maxConnections, evs))
  {
    if evs != [] {
      RunIds(maxConnections, evs[..|evs| - 1]);
      StepIds(maxConnections, Run(maxConnections, evs[..|evs| - 1]), evs[|evs| - 1]);
    }
  }

  // ---------------------------------------------------------------- every busy slot is owed a callback

  predicate OwedFor<E>(sent: seq<Sent<E>>, request: Request) {
    exists k :: 0 <= k < |sent| && sent[k].timer && sent[k].job.request == request
  }

  /** A timeout is still set for every tracked request. */
  ghost predicate Owed<E>(n: Net<E>) {
    forall r :: r in n.requests ==> OwedFor(n.sent, r)
  }

  lemma {:induction false} OwedAppend<E>(sent: seq<Sent<E>>, x: Sent<E>, r: Request)
    ensures OwedFor(sent + [x], r) <==> OwedFor(sent, r) || (x.timer && x.job.request == r)
  {
    var longer := sent + [x];
    if OwedFor(sent, r) {
      var k :| 0 <= k < |sent| && sent[k].timer && sent[k].job.request == r;
      assert longer[k] == sent[k];
    } else if x.timer && x.job.request == r {
      assert longer[|sent|] == x;
    } else {
      forall k | 0 <= k < |longer| ensures !(longer[k].timer && longer[k].job.request == r) {
        assert longer[k] == if k < |sent| then sent[k] else x;
      }
    }
  }

  lemma {:induction false} QueueSendOwed<E>(maxConnections: int, n: Net<E>, e: E)
    requires Owed(n)
    ensures Owed(QueueSend(maxConnections, n, e))
  {
    var x := Sent(Job(e, Request(n.requestIds + 1, false)), true, false, true);
    forall r | r in QueueSend(maxConnections, n, e).requests && |n.requests| < maxConnections - 1
      ensures OwedFor(n.sent + [x], r)
    {
      OwedAppend(n.sent, x, r);
    }
  }

  lemma {:induction false} CompleteOwed<E>(maxConnections: int, n: Net<E>, request: Request, success: bool)
    requires forall r :: r in Without(n.requests, request) ==> OwedFor(n.sent, r)
    ensures Owed(Complete(maxConnections, n, request, success))
  {
    if n.envelopes != [] && success {
      var freed := n.(requests := Without(n.requests, request), envelopes := n.envelopes[1..]);
      QueueSendOwed(maxConnections, freed, n.envelopes[0].envelope);
    }
  }

  /** A callback for one request leaves the others owed. */
  lemma {:induction false} OthersOwed<E>(n: Net<E>, k: nat, x: Sent<E>, r: Request)
    requires k < |n.sent| && OwedFor(n.sent, r) && x.job == n.sent[k].job
    requires r != x.job.request || x.timer == n.sent[k].timer
    ensures OwedFor(n.sent[k := x], r)
  {
    var l :| 0 <= l < |n.sent| && n.sent[l].timer && n.sent[l].job.request == r;
    assert n.sent[k := x][l] == if l == k then x else n.sent[l];
  }

  /** The callback for request `k`, which `x` records, and its completion. */
  lemma {:induction false} CallbackOwed<E>(maxConnections: int, n: Net<E>, m: Net<E>, k: nat, x: Sent<E>, success: bool)
    requires Ids(n) && Owed(n) && k < |n.sent| && x.job == n.sent[k].job
    requires m.sent == n.sent[k := x] && m.requests == n.requests
    ensures Owed(Completion(maxConnections, m, x.job.request, success))
  {
    var request := x.job.request;
    forall r | r in Without(n.requests, request) ensures OwedFor(m.sent, r) {
      WithoutMembers(n.requests, request, r);
      WithoutDistinct(n.requests, request);
      OthersOwed(n, k, x, r);
    }
    if request.longpoll {
      forall r | r in n.requests ensures OwedFor(m.sent, r) { OthersOwed(n, k, x, r); }
    } else {
      CompleteOwed(maxConnections, m, request, success);
    }
  }

  lemma {:induction false} QuietReportOwed<E>(n: Net<E>, k: nat)
    requires Owed(n) && k < |n.sent| && !Reports(n, k)
    ensures Owed(Report(n, k))
  {
    forall r | r in n.requests ensures OwedFor(Report(n, k).sent, r) {
      OthersOwed(n, k, Report(n, k).sent[k], r);
      assert n.sent[k := n.sent[k]] == n.sent;
    }
  }

  lemma {:induction false} FailTaskOwed<E>(maxConnections: int, n: Net<E>, j: nat)
    requires Ids(n) && Owed(n) && j < |n.doomed|
    ensures Owed(OnFailTask(maxConnections, n, j))
  {
    CompleteOwed(maxConnections, Doom(n, j), n.doomed[j].request, false);
  }

  lemma {:induction false} SendOwed<E>(maxConnections: int, n: Net<E>, e: E, longpoll: bool)
    requires Owed(n)
    ensures Owed(Send(maxConnections, n, e, longpoll))
  {
    if !longpoll {
      QueueSendOwed(maxConnections, n.(submitted := n.submitted + [e]), e);
    } else {
      var x := Sent(Job(e, Request(n.requestIds + 1, true)), true, false, true);
      forall r | r in n.requests ensures OwedFor(n.sent + [x], r) { OwedAppend(n.sent, x, r); }
    }
  }

  lemma {:induction false} StepOwed<E>(maxConnections: int, n: Net<E>, ev: Event<E>)
    requires Ids(n) && Owed(n) && !ev.Unreadable?
    ensures Owed(Step(maxConnections, n, ev))
  {
    match ev
    case Submit(e, longpoll) => SendOwed(maxConnections, n, e, longpoll);
    case Success(k) =>
      if k < |n.sent| {
        if Reports(n, k) { CallbackOwed(maxConnections, n, Report(n, k), k, Report(n, k).sent[k], true); }
        else { QuietReportOwed(n, k); }
      }
    case Failure(k) =>
      if k < |n.sent| {
        if Reports(n, k) { CallbackOwed(maxConnections, n, Report(n, k), k, Report(n, k).sent[k], false); }
        else { QuietReportOwed(n, k); }
      }
    case Timeout(k) =>
      if k < |n.sent| && n.sent[k].timer {
        CallbackOwed(maxConnections, n, Expire(n, k), k, Expire(n, k).sent[k], false);
      }
    case FailTask(j) => if j < |n.doomed| { FailTaskOwed(maxConnections, n, j); }
    case ResetAll =>
  }

  /** As long as every response can be read, whatever else happens, a waiting envelope always has an event to come: a
      planted failure task, or the callback of every single request that holds a slot. */
  lemma {:induction false} NoStallTheorem<E>(maxConnections: int, evs: seq<Event<E>>)
    requires forall ev :: ev in evs ==> !ev.Unreadable?
    ensures var n := Run(maxConnections, evs);
            && Owed(n)
            && (n.envelopes != [] && n.doomed == [] ==> |n.requests| >= maxConnections - 1)
  {
    RunKeeps(maxConnections, evs);
    if evs != [] {
      var before, ev := evs[..|evs| - 1], evs[|evs| - 1];
      NoStallTheorem(maxConnections, before);
      RunIds(maxConnections, before);
      assert ev in evs;
      StepOwed(maxConnections, Run(maxConnections, before), ev);
    }
  }

  // ---------------------------------------------------------------- leaked slots

  /** Every slot is taken, and no callback is left that would free one. */
  ghost predicate Leaked<E>(maxConnections: int, n: Net<E>) {
    |n.requests| >= maxConnections - 1 && forall r :: r in n.requests ==> !OwedFor(n.sent, r)
  }

  lemma {:induction false} WithoutNothing<T>(s: seq<T>, x: T)
    requires x !in s
    ensures Without(s, x) == s
  {
  }

  lemma {:induction false} LeakedUpdate<E>(n: Net<E>, k: nat, x: Sent<E>)
    requires k < |n.sent| && x.job == n.sent[k].job && (x.timer ==> n.sent[k].timer)
    ensures O.Dispatched(n.sent[k := x]) == O.Dispatched(n.sent)
    ensures forall r :: OwedFor(n.sent[k := x], r) ==> OwedFor(n.sent, r)
  {
    O.DispatchedUpdate(n.sent, k, x);
    forall r | OwedFor(n.sent[k := x], r) ensures OwedFor(n.sent, r) {
      var l :| 0 <= l < |n.sent| && n.sent[k := x][l].timer && n.sent[k := x][l].job.request == r;
      assert n.sent[l].timer && n.sent[l].job.request == r;
    }
  }

  lemma {:induction false} LeakedComplete<E>(maxConnections: int, n: Net<E>, request: Request, success: bool)
    requires Leaked(maxConnections, n) && request !in n.requests
    ensures var m := Completion(maxConnections, n, request, success);
            Leaked(maxConnections, m) && m.sent == n.sent && m.requests == n.requests
  {
    WithoutNothing(n.requests, request);
  }

  lemma {:induction false} LeakedSend<E>(maxConnections: int, n: Net<E>, e: E, longpoll: bool)
    requires Ids(n) && Leaked(maxConnections, n)
    ensures var m := Send(maxConnections, n, e, longpoll);
            Leaked(maxConnections, m) && O.Dispatched(m.sent) == O.Dispatched(n.sent)
  {
    var x := Sent(Job(e, Request(n.requestIds + 1, true)), true, false, true);
    O.DispatchedAppend(n.sent, x);
    forall r | r in n.requests ensures !OwedFor(n.sent + [x], r) { OwedAppend(n.sent, x, r); }
  }

  /** A callback for request `k`, which `m` has recorded, finds its request untracked. */
  lemma {:induction false} LeakedCallback<E>(maxConnections: int, n: Net<E>, m: Net<E>, k: nat, success: bool)
    requires Leaked(maxConnections, n) && k < |n.sent| && n.sent[k].timer
    requires m.requests == n.requests && |m.sent| == |n.sent| && m.sent == n.sent[k := m.sent[k]]
    requires m.sent[k].job == n.sent[k].job
    ensures var d := Completion(maxConnections, m, n.sent[k].job.request, success);
            Leaked(maxConnections, d) && O.Dispatched(d.sent) == O.Dispatched(n.sent)
  {
    LeakedUpdate(n, k, m.sent[k]);
    assert OwedFor(n.sent, n.sent[k].job.request);
    LeakedComplete(maxConnections, m, n.sent[k].job.request, success);
  }

  lemma {:induction false} LeakedQuietReport<E>(maxConnections: int, n: Net<E>, k: nat)
    requires Leaked(maxConnections, n) && k < |n.sent|
    ensures var m := Report(n, k);
            Leaked(maxConnections, m) && O.Dispatched(m.sent) == O.Dispatched(n.sent)
  {
    LeakedUpdate(n, k, Report(n, k).sent[k]);
    assert n.sent[k := n.sent[k]] == n.sent;
  }

  lemma {:induction false} LeakedReport<E>(maxConnections: int, n: Net<E>, k: nat, success: bool)
    requires RacesFair(n) && Leaked(maxConnections, n) && k < |n.sent|
    ensures var m := OnReport(maxConnections, n, k, success);
            Leaked(maxConnections, m) && O.Dispatched(m.sent) == O.Dispatched(n.sent)
  {
    if Reports(n, k) {
      LeakedCallback(maxConnections, n, Report(n, k), k, success);
    } else {
      LeakedQuietReport(maxConnections, n, k);
    }
  }

  /** Whatever happens but a reset, a scheduler that has leaked all its slots stays so and sends no ordinary
      envelope. */
  lemma {:induction false} LeakedStays<E>(maxConnections: int, n: Net<E>, ev: Event<E>)
    requires Ids(n) && RacesFair(n) && Leaked(maxConnections, n) && !ev.ResetAll?
    ensures var m := Step(maxConnections, n, ev);
            Leaked(maxConnections, m) && O.Dispatched(m.sent) == O.Dispatched(n.sent)
  {
    match ev
    case Submit(e, longpoll) => LeakedSend(maxConnections, n, e, longpoll);
    case Success(k) => if k < |n.sent| { LeakedReport(maxConnections, n, k, true); }
    case Unreadable(k) => if k < |n.sent| { LeakedQuietReport(maxConnections, n, k); }
    case Failure(k) => if k < |n.sent| { LeakedReport(maxConnections, n, k, false); }
    case Timeout(k) =>
      if k < |n.sent| && n.sent[k].timer { LeakedCallback(maxConnections, n, Expire(n, k), k, false); }
    case FailTask(j) =>
      if j < |n.doomed| { LeakedComplete(maxConnections, Doom(n, j), n.doomed[j].request, false); }
  }

  /** So it stalls for ever: whatever happens later, until a reset nothing more is sent but long polls. */
  lemma {:induction false} LeakTheorem<E>(maxConnections: int, evs: seq<Event<E>>, more: seq<Event<E>>)
    requires Leaked(maxConnections, Run(maxConnections, evs)) && ResetAll !in more
    ensures var n, m := Run(maxConnections, evs), Run(maxConnections, evs + more);
            Leaked(maxConnections, m) && O.Dispatched(m.sent) == O.Dispatched(n.sent)
  {
    if more == [] {
      assert evs + more == evs;
    } else {
      var most, last := more[..|more| - 1], more[|more| - 1];
      LeakTheorem(maxConnections, evs, most);
      assert (evs + more)[..|evs + more| - 1] == evs + most && last in more;
      RunIds(maxConnections, evs + most);
      RunKeeps(maxConnections, evs + most);
      LeakedStays(maxConnections, Run(maxConnections, evs + most), last);
    }
  }

  /** A submission goes straight out while a slot is free. */
  lemma {:induction false} SubmitSends<E>(maxConnections: int, n: Net<E>, e: E)
    requires |n.requests| < maxConnections - 1
    ensures O.Dispatched(Step(maxConnections, n, Submit(e, false)).sent) == O.Dispatched(n.sent) + [e]
  {
    O.DispatchedAppend(n.sent, Sent(Job(e, Request(n.requestIds + 1, false)), true, false, true));
  }

  /** The success that a tracked request is still owed frees its slot, which the first waiting envelope takes. */
  lemma {:induction false} SuccessSends<E>(maxConnections: int, n: Net<E>, k: nat)
    requires Ids(n) && RacesFair(n) && Bounded(maxConnections, n)
    requires k < |n.sent| && n.sent[k].timer && n.sent[k].job.request in n.requests
    ensures var m := Step(maxConnections, n, Success(k));
            if n.envelopes == [] then O.Dispatched(m.sent) == O.Dispatched(n.sent) && |m.requests| < maxConnections - 1
            else O.Dispatched(m.sent) == O.Dispatched(n.sent) + [n.envelopes[0].envelope]
  {
    var r := Report(n, k);
    O.DispatchedUpdate(n.sent, k, r.sent[k]);
    if n.envelopes != [] { O.DispatchLine(maxConnections, r, n.sent[k].job.request); }
  }

  /** As long as not all slots have leaked, something can be sent. */
  lemma {:induction false} NotLeakedSends<E>(maxConnections: int, evs: seq<Event<E>>, e: E)
      returns (more: seq<Event<E>>)
    requires !Leaked(maxConnections, Run(maxConnections, evs))
    ensures ResetAll !in more
    ensures O.Dispatched(Run(maxConnections, evs + more).sent) != O.Dispatched(Run(maxConnections, evs).sent)
  {
    var n := Run(maxConnections, evs);
    RunIds(maxConnections, evs);
    RunKeeps(maxConnections, evs);
    if |n.requests| < maxConnections - 1 {
      SubmitSends(maxConnections, n, e);
      more := [Submit(e, false)];
      RunSnoc(maxConnections, evs, Submit(e, false));
    } else {
      var r :| r in n.requests && OwedFor(n.sent, r);
      var k: nat :| k < |n.sent| && n.sent[k].timer && n.sent[k].job.request == r;
      SuccessSends(maxConnections, n, k);
      RunSnoc(maxConnections, evs, Success(k));
      more := [Success(k)];
      if n.envelopes == [] {
        SubmitSends(maxConnections, Run(maxConnections, evs + more), e);
        RunSnoc(maxConnections, evs + more, Submit(e, false));
        assert evs + (more + [Submit(e, false)]) == evs + more + [Submit(e, false)];
        more := more + [Submit(e, false)];
      }
    }
  }

  /** Whatever happens, short of a reset, no ordinary envelope is ever sent again. */
  ghost predicate Standstill<E(!new)>(maxConnections: int, evs: seq<Event<E>>) {
    forall more: seq<Event<E>> :: ResetAll !in more ==>
      O.Dispatched(Run(maxConnections, evs + more).sent) == O.Dispatched(Run(maxConnections, evs).sent)
  }

  /** In every run the queue stands still for ever if and only if all slots have leaked; `e` is any envelope. */
  lemma {:induction false} StandstillTheorem<E(!new)>(maxConnections: int, evs: seq<Event<E>>, e: E)
    ensures Standstill(maxConnections, evs) <==> Leaked(maxConnections, Run(maxConnections, evs))
  {
    if Leaked(maxConnections, Run(maxConnections, evs)) {
      forall more: seq<Event<E>> | ResetAll !in more
        ensures O.Dispatched(Run(maxConnections, evs + more).sent) == O.Dispatched(Run(maxConnections, evs).sent)
      {
        LeakTheorem(maxConnections, evs, more);
      }
    } else {
      var more := NotLeakedSends(maxConnections, evs, e);
    }
  }

  /** With one ordinary slot, one response that cannot be read is enough. */
  lemma {:induction false} LeakedRun()
    ensures Leaked(2, Run(2, [Submit(0, false), Unreadable(0)]))
    ensures Standstill(2, [Submit(0, false), Unreadable(0)])
  {
    var none: seq<Event<int>> := [];
    var evs := [Submit(0, false), Unreadable(0)];
    RunSnoc(2, none, Submit(0, false));
    RunSnoc(2, none + [Submit(0, false)], Unreadable(0));
    assert none + [Submit(0, false)] + [Unreadable(0)] == evs;
    var n := Run(2, none + [Submit(0, false)]);
    assert n.sent == [Sent(Job(0, Request(1, false)), true, false, true)] && n.requests == [Request(1, false)];
    StandstillTheorem(2, evs, 0);
  }

  // ---------------------------------------------------------------- only a reset makes successes stale

  /** Every ordinary request still owed a callback is tracked, and none of them has timed out. */
  ghost predicate Tracked<E>(n: Net<E>) {
    forall k :: 0 <= k < |n.sent| && !n.sent[k].job.request.longpoll ==>
      !n.sent[k].expired && (n.sent[k].wire ==> n.sent[k].job.request in n.requests)
  }

  /** Nothing but what may make a success stale or fail an ordinary request. */
  predicate Undisturbed<E>(n: Net<E>, ev: Event<E>) {
    match ev
    case Failure(k) => k < |n.sent| && Reports(n, k) ==> n.sent[k].job.request.longpoll
    case Timeout(k) => k < |n.sent| && n.sent[k].timer ==> n.sent[k].job.request.longpoll
    case FailTask(j) => j >= |n.doomed|
    case ResetAll => false
    case _ => true
  }

  predicate UndisturbedRun<E>(maxConnections: int, evs: seq<Event<E>>) {
    evs != [] ==>
      && UndisturbedRun(maxConnections, evs[..|evs| - 1])
      && Undisturbed(Run(maxConnections, evs[..|evs| - 1]), evs[|evs| - 1])
  }

  lemma {:induction false} QueueSendTracked<E>(maxConnections: int, n: Net<E>, e: E)
    requires Tracked(n)
    ensures Tracked(QueueSend(maxConnections, n, e))
  {
  }

  /** The completion of request `k`, whose callback `m` has recorded. */
  lemma {:induction false} SuccessTracked<E>(maxConnections: int, n: Net<E>, k: nat)
    requires Ids(n) && Tracked(n) && k < |n.sent|
    ensures Tracked(OnReport(maxConnections, n, k, true))
  {
    var m, request := Report(n, k), n.sent[k].job.request;
    if Reports(n, k) && !request.longpoll {
      var freed := m.(requests := Without(n.requests, request));
      forall l | 0 <= l < |freed.sent| && freed.sent[l].wire && !freed.sent[l].job.request.longpoll
        ensures freed.sent[l].job.request in freed.requests
      {
        WithoutMembers(n.requests, request, freed.sent[l].job.request);
      }
      if n.envelopes != [] {
        QueueSendTracked(maxConnections, freed.(envelopes := n.envelopes[1..]), n.envelopes[0].envelope);
      }
    }
  }

  lemma {:induction false} StepTracked<E>(maxConnections: int, n: Net<E>, ev: Event<E>)
    requires Ids(n) && Tracked(n) && Undisturbed(n, ev)
    ensures Tracked(Step(maxConnections, n, ev)) && O.OnTrack(n, ev)
  {
    match ev
    case Submit(e, longpoll) =>
      if !longpoll { QueueSendTracked(maxConnections, n.(submitted := n.submitted + [e]), e); }
    case Success(k) => if k < |n.sent| { SuccessTracked(maxConnections, n, k); }
    case _ =>
  }

  /** As long as no ordinary request fails, only a reset makes a success stale: without one, every success is of a
      tracked request, so the line keeps its order. */
  lemma {:induction false} UndisturbedIsOnTrack<E>(maxConnections: int, evs: seq<Event<E>>)
    requires UndisturbedRun(maxConnections, evs)
    ensures O.OnTrackRun(maxConnections, evs) && Tracked(Run(maxConnections, evs))
    ensures O.Line(Run(maxConnections, evs)) == O.Ordinary(evs)
  {
    if evs != [] {
      var before := evs[..|evs| - 1];
      UndisturbedIsOnTrack(maxConnections, before);
      RunIds(maxConnections, before);
      StepTracked(maxConnections, Run(maxConnections, before), evs[|evs| - 1]);
    }
    NoReset(maxConnections, evs);
    O.NothingMissing(maxConnections, evs);
  }

  lemma {:induction false} NoReset<E>(maxConnections: int, evs: seq<Event<E>>)
    requires UndisturbedRun(maxConnections, evs)
    ensures ResetAll !in evs
  {
    if evs != [] {
      NoReset(maxConnections, evs[..|evs| - 1]);
      assert evs == evs[..|evs| - 1] + [evs[|evs| - 1]];
    }
  }
}
