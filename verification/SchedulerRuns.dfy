/** What the scheduler keeps over every run: conservation of envelopes, the connection bound, no stalled queue. */
module SchedulerRuns {
  import opened Scheduler

  /** What can happen to a scheduler.  A callback first completes its request, except that a success callback
      whose response cannot be read raises before it gets there (`Unreadable`). */
  datatype Event<E> =
    | Submit(e: E, longpoll: bool)
    | Success(k: nat)
    | Unreadable(k: nat)
    | Failure(k: nat)
    | Timeout(k: nat)
    | FailTask(j: nat)
    | ResetAll

  function Completion<E>(maxConnections: int, n: Net<E>, request: Request, success: bool): Net<E> {
    CompleteAny(maxConnections, n, request, success, request.longpoll)
  }

  function OnReport<E>(maxConnections: int, n: Net<E>, k: nat, success: bool): Net<E>
    requires k < |n.sent|
  {
    if Reports(n, k) then Completion(maxConnections, Report(n, k), n.sent[k].job.request, success) else Report(n, k)
  }

  function OnTimeout<E>(maxConnections: int, n: Net<E>, k: nat): Net<E>
    requires k < |n.sent|
  {
    if n.sent[k].timer then Completion(maxConnections, Expire(n, k), n.sent[k].job.request, false) else n
  }

  function OnFailTask<E>(maxConnections: int, n: Net<E>, j: nat): Net<E>
    requires j < |n.doomed|
  {
    Complete(maxConnections, Doom(n, j), n.doomed[j].request, false)
  }

  function Step<E>(maxConnections: int, n: Net<E>, ev: Event<E>): Net<E> {
    match ev
    case Submit(e, longpoll) => Send(maxConnections, n, e, longpoll)
    case Success(k) => if k < |n.sent| then OnReport(maxConnections, n, k, true) else n
    case Unreadable(k) => if k < |n.sent| then Report(n, k) else n
    case Failure(k) => if k < |n.sent| then OnReport(maxConnections, n, k, false) else n
    case Timeout(k) => if k < |n.sent| then OnTimeout(maxConnections, n, k) else n
    case FailTask(j) => if j < |n.doomed| then OnFailTask(maxConnections, n, j) else n
    case ResetAll => Reset(n)
  }

  function Run<E>(maxConnections: int, evs: seq<Event<E>>): Net<E> {
    if evs == [] then EmptyNet()
    else Step(maxConnections, Run(maxConnections, evs[..|evs| - 1]), evs[|evs| - 1])
  }

  // ---------------------------------------------------------------- conservation

  // Envelopes are counted by what they satisfy: `p` may single out one envelope or a kind of envelope.

  function One<E>(x: E, p: E -> bool): nat {
    if p(x) then 1 else 0
  }

  function Submissions<E>(s: seq<E>, p: E -> bool): nat {
    if s == [] then 0 else Submissions(s[..|s| - 1], p) + One(s[|s| - 1], p)
  }

  function Occurs<E>(s: seq<Job<E>>, p: E -> bool): nat {
    if s == [] then 0 else Occurs(s[..|s| - 1], p) + One(s[|s| - 1].envelope, p)
  }

  /** How many callbacks the browser still owes. */
  function Armed<E>(s: seq<Sent<E>>, p: E -> bool): nat {
    if s == [] then 0
    else
      var last := s[|s| - 1];
      Armed(s[..|s| - 1], p) + if last.timer then One(last.job.envelope, p) else 0
  }

  /** The envelopes a callback may still be made for: in flight, waiting, or scheduled to fail. */
  function Live<E>(n: Net<E>, p: E -> bool): nat {
    Armed(n.sent, p) + Occurs(n.envelopes, p) + Occurs(n.doomed, p)
  }

  function Places<E>(n: Net<E>, p: E -> bool): nat {
    Live(n, p) + Occurs(n.finished, p) + Occurs(n.dropped, p)
  }

  /** A timeout is set exactly while neither party of the race has reported. */
  ghost predicate RacesFair<E>(n: Net<E>) {
    forall k :: 0 <= k < |n.sent| ==> (n.sent[k].timer <==> n.sent[k].wire && !n.sent[k].expired)
  }

  ghost predicate Bounded<E>(maxConnections: int, n: Net<E>) {
    n.requests != [] ==> |n.requests| <= maxConnections - 1
  }

  /** A waiting envelope means that the ordinary slots are taken or that a failure task is pending. */
  ghost predicate NotStalled<E>(maxConnections: int, n: Net<E>) {
    n.envelopes != [] && n.doomed == [] ==> |n.requests| >= maxConnections - 1
  }

  ghost predicate Inv<E>(maxConnections: int, n: Net<E>) {
    RacesFair(n) && Bounded(maxConnections, n) && NotStalled(maxConnections, n)
  }

  lemma {:induction false} OccursConcat<E>(a: seq<Job<E>>, b: seq<Job<E>>, p: E -> bool)
    ensures Occurs(a + b, p) == Occurs(a, p) + Occurs(b, p)
  {
    if b == [] {
      assert a + b == a;
    } else {
      assert (a + b)[..|a + b| - 1] == a + b[..|b| - 1];
      OccursConcat(a, b[..|b| - 1], p);
    }
  }

  lemma {:induction false} OccursAppend<E>(a: seq<Job<E>>, x: Job<E>, p: E -> bool)
    ensures Occurs(a + [x], p) == Occurs(a, p) + One(x.envelope, p)
  {
    assert (a + [x])[..|a|] == a;
  }

  lemma {:induction false} OccursSplice<E>(s: seq<Job<E>>, j: nat, p: E -> bool)
    requires j < |s|
    ensures Occurs(s, p) == Occurs(s[..j] + s[j + 1..], p) + One(s[j].envelope, p)
  {
    var r, t := s[..|s| - 1], s[..j] + s[j + 1..];
    if j == |s| - 1 {
      assert t == r;
    } else {
      OccursSplice(r, j, p);
      assert t[..|t| - 1] == r[..j] + r[j + 1..];
    }
  }

  lemma {:induction false} OccursHead<E>(s: seq<Job<E>>, p: E -> bool)
    requires s != []
    ensures Occurs(s, p) == Occurs(s[1..], p) + One(s[0].envelope, p)
  {
    assert s == [s[0]] + s[1..];
    OccursConcat([s[0]], s[1..], p);
    assert [s[0]][..0] == [];
  }

  lemma {:induction false} ArmedUpdate<E>(s: seq<Sent<E>>, k: nat, x: Sent<E>, p: E -> bool)
    requires k < |s| && s[k].job == x.job && (x.timer ==> s[k].timer)
    ensures Armed(s, p) == Armed(s[k := x], p) + if s[k].timer && !x.timer then One(s[k].job.envelope, p) else 0
  {
    var t := s[k := x];
    if k < |s| - 1 {
      assert t[..|s| - 1] == s[..|s| - 1][k := x];
      ArmedUpdate(s[..|s| - 1], k, x, p);
    } else {
      assert t[..|s| - 1] == s[..|s| - 1];
    }
  }

  lemma {:induction false} ArmedAppend<E>(s: seq<Sent<E>>, x: Sent<E>, p: E -> bool)
    ensures Armed(s + [x], p) == Armed(s, p) + if x.timer then One(x.job.envelope, p) else 0
  {
    assert (s + [x])[..|s|] == s;
  }

  // Conservation, operation by operation

  lemma {:induction false} QueueSendLive<E>(maxConnections: int, n: Net<E>, x: E, p: E -> bool)
    ensures Live(QueueSend(maxConnections, n, x), p) == Live(n, p) + One(x, p)
  {
    var request := Request(n.requestIds + 1, false);
    ArmedAppend(n.sent, Sent(Job(x, request), true, false, true), p);
    OccursAppend(n.envelopes, Job(x, request), p);
  }

  lemma {:induction false} LongpollSendLive<E>(n: Net<E>, x: E, p: E -> bool)
    requires !ConcurrentLongpoll(n)
    ensures Live(LongpollSend(n, x), p) == Live(n, p) + One(x, p)
  {
    ArmedAppend(n.sent, Sent(Job(x, Request(n.requestIds + 1, true)), true, false, true), p);
  }

  /** The submissions are each in exactly one place. */
  predicate Settled<E>(n: Net<E>, p: E -> bool) {
    Submissions(n.submitted, p) == Places(n, p)
  }

  lemma {:induction false} SendPlaces<E>(maxConnections: int, n: Net<E>, x: E, longpoll: bool, p: E -> bool)
    requires Settled(n, p)
    ensures Settled(Send(maxConnections, n, x, longpoll), p)
  {
    var n1 := n.(submitted := n.submitted + [x]);
    if !longpoll {
      assert n1.submitted[..|n.submitted|] == n.submitted;
      QueueSendLive(maxConnections, n1, x, p);
    } else if !ConcurrentLongpoll(n) {
      assert n1.submitted[..|n.submitted|] == n.submitted;
      LongpollSendLive(n1, x, p);
    }
  }

  lemma {:induction false} CompleteLive<E>(maxConnections: int, n: Net<E>, request: Request, success: bool,
                                           p: E -> bool)
    ensures var m := Complete(maxConnections, n, request, success);
            Live(m, p) == Live(n, p)
  {
    if n.envelopes != [] {
      var head := n.envelopes[0];
      OccursHead(n.envelopes, p);
      OccursAppend(n.doomed, head, p);
      var n2 := n.(requests := Without(n.requests, request), envelopes := n.envelopes[1..]);
      QueueSendLive(maxConnections, n2, head.envelope, p);
    }
  }

  lemma {:induction false} ReportLive<E>(n: Net<E>, k: nat, p: E -> bool)
    requires k < |n.sent| && RacesFair(n)
    ensures Armed(n.sent, p) ==
            Armed(Report(n, k).sent, p) + if Reports(n, k) then One(n.sent[k].job.envelope, p) else 0
  {
    var s := n.sent[k];
    if Reports(n, k) {
      ArmedUpdate(n.sent, k, s.(wire := false, timer := false), p);
    } else {
      ArmedUpdate(n.sent, k, s.(wire := false), p);
      assert Report(n, k).sent == n.sent[k := s.(wire := false)];
    }
  }

  lemma {:induction false} ReportPlaces<E>(n: Net<E>, k: nat, p: E -> bool)
    requires k < |n.sent| && RacesFair(n)
    ensures Live(n, p) == Live(Report(n, k), p) + if Reports(n, k) then One(n.sent[k].job.envelope, p) else 0
    ensures Places(Report(n, k), p) == Places(n, p)
  {
    ReportLive(n, k, p);
    OccursAppend(n.finished, n.sent[k].job, p);
  }

  lemma {:induction false} ExpireLive<E>(n: Net<E>, k: nat, p: E -> bool)
    requires k < |n.sent|
    ensures Armed(n.sent, p) ==
            Armed(Expire(n, k).sent, p) + if n.sent[k].timer then One(n.sent[k].job.envelope, p) else 0
  {
    ArmedUpdate(n.sent, k, n.sent[k].(timer := false, expired := true), p);
  }

  lemma {:induction false} ExpirePlaces<E>(n: Net<E>, k: nat, p: E -> bool)
    requires k < |n.sent|
    ensures Live(n, p) == Live(Expire(n, k), p) + if n.sent[k].timer then One(n.sent[k].job.envelope, p) else 0
    ensures Places(Expire(n, k), p) == Places(n, p)
  {
    ExpireLive(n, k, p);
    OccursAppend(n.finished, n.sent[k].job, p);
  }

  lemma {:induction false} DoomedLive<E>(n: Net<E>, j: nat, p: E -> bool)
    requires j < |n.doomed|
    ensures Live(n, p) == Live(Doom(n, j), p) + One(n.doomed[j].envelope, p)
  {
    OccursSplice(n.doomed, j, p);
  }

  lemma {:induction false} DoomPlaces<E>(n: Net<E>, j: nat, p: E -> bool)
    requires j < |n.doomed|
    ensures Live(n, p) == Live(Doom(n, j), p) + One(n.doomed[j].envelope, p)
    ensures Places(Doom(n, j), p) == Places(n, p)
  {
    DoomedLive(n, j, p);
    OccursAppend(n.finished, n.doomed[j], p);
  }

  lemma {:induction false} ResetPlaces<E>(n: Net<E>, p: E -> bool)
    ensures Live(n, p) == Live(Reset(n), p) + Occurs(n.envelopes, p)
    ensures Places(Reset(n), p) == Places(n, p)
  {
    OccursConcat(n.dropped, n.envelopes, p);
  }

  lemma {:induction false} CompletionPlaces<E>(maxConnections: int, n: Net<E>, request: Request, success: bool,
                                               p: E -> bool)
    requires Settled(n, p)
    ensures Settled(Completion(maxConnections, n, request, success), p)
  {
    if !request.longpoll { CompleteLive(maxConnections, n, request, success, p); }
  }

  lemma {:induction false} OnReportPlaces<E>(maxConnections: int, n: Net<E>, k: nat, success: bool, p: E -> bool)
    requires RacesFair(n) && Settled(n, p) && k < |n.sent|
    ensures Settled(OnReport(maxConnections, n, k, success), p)
  {
    ReportPlaces(n, k, p);
    CompletionPlaces(maxConnections, Report(n, k), n.sent[k].job.request, success, p);
  }

  lemma {:induction false} StepPlaces<E>(maxConnections: int, n: Net<E>, ev: Event<E>, p: E -> bool)
    requires RacesFair(n) && Settled(n, p)
    ensures Settled(Step(maxConnections, n, ev), p)
  {
    match ev
    case Submit(x, longpoll) => SendPlaces(maxConnections, n, x, longpoll, p);
    case Success(k) => if k < |n.sent| { OnReportPlaces(maxConnections, n, k, true, p); }
    case Unreadable(k) => if k < |n.sent| { ReportPlaces(n, k, p); }
    case Failure(k) => if k < |n.sent| { OnReportPlaces(maxConnections, n, k, false, p); }
    case Timeout(k) =>
      if k < |n.sent| {
        ExpirePlaces(n, k, p);
        CompletionPlaces(maxConnections, Expire(n, k), n.sent[k].job.request, false, p);
      }
    case FailTask(j) =>
      if j < |n.doomed| {
        DoomPlaces(n, j, p);
        CompleteLive(maxConnections, Doom(n, j), n.doomed[j].request, false, p);
      }
    case ResetAll => ResetPlaces(n, p);
  }

  // The other invariants

  lemma {:induction false} QueueSendKeeps<E>(maxConnections: int, n: Net<E>, x: E)
    requires RacesFair(n) && Bounded(maxConnections, n)
    ensures var m := QueueSend(maxConnections, n, x); RacesFair(m) && Bounded(maxConnections, m)
  {
  }

  lemma {:induction false} CompleteKeeps<E>(maxConnections: int, n: Net<E>, request: Request, success: bool)
    requires RacesFair(n) && Bounded(maxConnections, n)
    requires success ==> NotStalled(maxConnections, n)
    ensures Inv(maxConnections, Complete(maxConnections, n, request, success))
  {
    var n1 := n.(requests := Without(n.requests, request));
    assert Bounded(maxConnections, n1);
    if n.envelopes != [] && success {
      QueueSendKeeps(maxConnections, n1.(envelopes := n.envelopes[1..]), n.envelopes[0].envelope);
    }
  }

  lemma {:induction false} ReportKeeps<E>(maxConnections: int, n: Net<E>, k: nat)
    requires k < |n.sent| && Inv(maxConnections, n)
    ensures Inv(maxConnections, Report(n, k))
  {
  }

  lemma {:induction false} ExpireKeeps<E>(maxConnections: int, n: Net<E>, k: nat)
    requires k < |n.sent| && Inv(maxConnections, n)
    ensures Inv(maxConnections, Expire(n, k))
  {
  }

  lemma {:induction false} CompletionKeeps<E>(maxConnections: int, n: Net<E>, request: Request, success: bool)
    requires Inv(maxConnections, n)
    ensures Inv(maxConnections, Completion(maxConnections, n, request, success))
  {
    if !request.longpoll { CompleteKeeps(maxConnections, n, request, success); }
  }

  lemma {:induction false} SendKeeps<E>(maxConnections: int, n: Net<E>, e: E, longpoll: bool)
    requires Inv(maxConnections, n)
    ensures Inv(maxConnections, Send(maxConnections, n, e, longpoll))
  {
    if !longpoll { QueueSendKeeps(maxConnections, n.(submitted := n.submitted + [e]), e); }
  }

  lemma {:induction false} StepKeeps<E>(maxConnections: int, n: Net<E>, ev: Event<E>)
    requires Inv(maxConnections, n)
    ensures Inv(maxConnections, Step(maxConnections, n, ev))
  {
    match ev
    case Submit(e, longpoll) => SendKeeps(maxConnections, n, e, longpoll);
    case Success(k) =>
      if k < |n.sent| {
        ReportKeeps(maxConnections, n, k);
        CompletionKeeps(maxConnections, Report(n, k), n.sent[k].job.request, true);
      }
    case Unreadable(k) => if k < |n.sent| { ReportKeeps(maxConnections, n, k); }
    case Failure(k) =>
      if k < |n.sent| {
        ReportKeeps(maxConnections, n, k);
        CompletionKeeps(maxConnections, Report(n, k), n.sent[k].job.request, false);
      }
    case Timeout(k) =>
      if k < |n.sent| {
        ExpireKeeps(maxConnections, n, k);
        CompletionKeeps(maxConnections, Expire(n, k), n.sent[k].job.request, false);
      }
    case FailTask(j) =>
      if j < |n.doomed| { CompleteKeeps(maxConnections, Doom(n, j), n.doomed[j].request, false); }
    case ResetAll =>
  }

  lemma {:induction false} RunKeeps<E>(maxConnections: int, evs: seq<Event<E>>)
    ensures Inv(maxConnections, Run(maxConnections, evs))
  {
    if evs != [] {
      RunKeeps(maxConnections, evs[..|evs| - 1]);
      StepKeeps(maxConnections, Run(maxConnections, evs[..|evs| - 1]), evs[|evs| - 1]);
    }
  }

  /** In every run the submissions of an envelope are each in exactly one place. */
  lemma {:induction false} Conservation<E>(maxConnections: int, evs: seq<Event<E>>, p: E -> bool)
    ensures Settled(Run(maxConnections, evs), p)
  {
    if evs != [] {
      var before := evs[..|evs| - 1];
      Conservation(maxConnections, before, p);
      RunKeeps(maxConnections, before);
      StepPlaces(maxConnections, Run(maxConnections, before), evs[|evs| - 1], p);
    }
  }

  /** So an envelope submitted once gets at most one callback and then is nowhere else;
      the tracked requests and the long poll stay within the limit; and the queue never stalls. */
  lemma {:induction false} SchedulerTheorem<E>(maxConnections: int, evs: seq<Event<E>>, p: E -> bool)
    ensures var n := Run(maxConnections, evs);
            Submissions(n.submitted, p) <= 1 ==>
              Occurs(n.finished, p) <= 1 && (Occurs(n.finished, p) == 1 ==> Live(n, p) == 0)
    ensures var n := Run(maxConnections, evs);
            maxConnections >= 1 ==>
              |n.requests| + (if n.longpollRequest.Some? then 1 else 0) <= maxConnections
    ensures var n := Run(maxConnections, evs);
            maxConnections >= 1 && n.envelopes != [] ==> |n.requests| == maxConnections - 1 || n.doomed != []
  {
    RunKeeps(maxConnections, evs);
    Conservation(maxConnections, evs, p);
  }

  lemma {:induction false} RunSnoc<E>(maxConnections: int, evs: seq<Event<E>>, ev: Event<E>)
    ensures Run(maxConnections, evs + [ev]) == Step(maxConnections, Run(maxConnections, evs), ev)
  {
    assert (evs + [ev])[..|evs|] == evs;
  }
}
