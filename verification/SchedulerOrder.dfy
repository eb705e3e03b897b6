/**
  The order in which the scheduler hands ordinary envelopes to the network: which completions keep it, what a failed
  completion does instead, and which requests still hold a slot.
 */
module SchedulerOrder {
  import opened Options
  import opened Scheduler
  import opened SchedulerRuns

  /** The ordinary envelopes handed to the network, in order. */
  function Dispatched<E>(s: seq<Sent<E>>): seq<E> {
    if s == [] then []
    else
      var last := s[|s| - 1];
      Dispatched(s[..|s| - 1]) + if last.job.request.longpoll then [] else [last.job.envelope]
  }

  /** The ordinary envelopes submitted in a run, in order. */
  function Ordinary<E>(evs: seq<Event<E>>): seq<E> {
    if evs == [] then []
    else
      var ev := evs[|evs| - 1];
      Ordinary(evs[..|evs| - 1]) + if ev.Submit? && !ev.longpoll then [ev.e] else []
  }

  function Envelopes<E>(jobs: seq<Job<E>>): seq<E> {
    if jobs == [] then [] else Envelopes(jobs[..|jobs| - 1]) + [jobs[|jobs| - 1].envelope]
  }

  /** What has left, followed by what waits. */
  function Line<E>(n: Net<E>): seq<E> {
    Dispatched(n.sent) + Envelopes(n.envelopes)
  }

  lemma {:induction false} DispatchedUpdate<E>(s: seq<Sent<E>>, k: nat, x: Sent<E>)
    requires k < |s| && s[k].job == x.job
    ensures Dispatched(s) == Dispatched(s[k := x])
  {
    var t := s[k := x];
    if k < |s| - 1 {
      assert t[..|s| - 1] == s[..|s| - 1][k := x];
      DispatchedUpdate(s[..|s| - 1], k, x);
    } else {
      assert t[..|s| - 1] == s[..|s| - 1];
    }
  }

  lemma {:induction false} DispatchedAppend<E>(s: seq<Sent<E>>, x: Sent<E>)
    ensures Dispatched(s + [x]) == Dispatched(s) + if x.job.request.longpoll then [] else [x.job.envelope]
  {
    assert (s + [x])[..|s|] == s;
  }

  lemma {:induction false} EnvelopesHead<E>(jobs: seq<Job<E>>)
    requires jobs != []
    ensures Envelopes(jobs) == [jobs[0].envelope] + Envelopes(jobs[1..])
  {
    if |jobs| > 1 {
      assert jobs[..|jobs| - 1][1..] == jobs[1..][..|jobs| - 2];
      EnvelopesHead(jobs[..|jobs| - 1]);
    }
  }

  lemma {:induction false} EnvelopesAppend<E>(jobs: seq<Job<E>>, x: Job<E>)
    ensures Envelopes(jobs + [x]) == Envelopes(jobs) + [x.envelope]
  {
    assert (jobs + [x])[..|jobs|] == jobs;
  }

  // ---------------------------------------------------------------- one operation

  /** An envelope handed to `_queueSend` takes the last place in the line, unless others wait while a slot is free. */
  lemma {:induction false} QueueSendLine<E>(maxConnections: int, n: Net<E>, e: E)
    requires n.envelopes == [] || |n.requests| >= maxConnections - 1
    ensures Line(QueueSend(maxConnections, n, e)) == Line(n) + [e]
  {
    var request := Request(n.requestIds + 1, false);
    DispatchedAppend(n.sent, Sent(Job(e, request), true, false, true));
    EnvelopesAppend(n.envelopes, Job(e, request));
  }

  /** The head of the queue leaves when there is a free slot for it. */
  lemma {:induction false} DispatchLine<E>(maxConnections: int, n: Net<E>, request: Request)
    requires n.envelopes != [] && |Without(n.requests, request)| < maxConnections - 1
    ensures var m := Complete(maxConnections, n, request, true);
            && Dispatched(m.sent) == Dispatched(n.sent) + [n.envelopes[0].envelope] && m.envelopes == n.envelopes[1..]
            && Line(m) == Line(n)
  {
    var e := n.envelopes[0].envelope;
    DispatchedAppend(n.sent, Sent(Job(e, Request(n.requestIds + 1, false)), true, false, true));
    EnvelopesHead(n.envelopes);
  }

  /** And goes to the back of the queue when there is none. */
  lemma {:induction false} TurnLine<E>(maxConnections: int, n: Net<E>, request: Request)
    requires n.envelopes != [] && |Without(n.requests, request)| >= maxConnections - 1
    ensures var m := Complete(maxConnections, n, request, true);
            m.sent == n.sent && Envelopes(m.envelopes) == Envelopes(n.envelopes)[1..] + [Envelopes(n.envelopes)[0]]
  {
    EnvelopesHead(n.envelopes);
    EnvelopesAppend(n.envelopes[1..], Job(n.envelopes[0].envelope, Request(n.requestIds + 1, false)));
  }

  predicate AllSame<T(==)>(s: seq<T>) {
    forall i :: 0 < i < |s| ==> s[i - 1] == s[i]
  }

  lemma {:induction false} TurnedSame<T>(s: seq<T>)
    requires s != []
    ensures s[1..] + [s[0]] == s <==> AllSame(s)
  {
    var t := s[1..] + [s[0]];
    if t == s {
      forall i | 0 < i < |s| ensures s[i - 1] == s[i] {
        assert t[i - 1] == s[i];
      }
    }
    if AllSame(s) {
      AllFirst(s, |s| - 1);
      forall i | 0 <= i < |s| ensures t[i] == s[i] {
        AllFirst(s, i);
        if i < |s| - 1 { assert t[i] == s[i + 1]; }
      }
    }
  }

  lemma {:induction false} AllFirst<T>(s: seq<T>, i: nat)
    requires AllSame(s) && i < |s|
    ensures s[i] == s[0]
  {
    if i > 0 { AllFirst(s, i - 1); }
  }

  /** A successful completion keeps the line if and only if its request was tracked, or a slot was free anyway, or
      nothing waits that could be told apart when the queue turns. */
  lemma {:induction false} SuccessKeepsLineIff<E>(maxConnections: int, n: Net<E>, request: Request)
    requires Bounded(maxConnections, n)
    ensures Line(Complete(maxConnections, n, request, true)) == Line(n) <==>
            request in n.requests || |n.requests| < maxConnections - 1 || AllSame(Envelopes(n.envelopes))
  {
    if n.envelopes != [] {
      if |Without(n.requests, request)| < maxConnections - 1 {
        DispatchLine(maxConnections, n, request);
      } else {
        var m, waiting := Complete(maxConnections, n, request, true), Envelopes(n.envelopes);
        TurnLine(maxConnections, n, request);
        EnvelopesHead(n.envelopes);
        TurnedSame(waiting);
        assert Line(m)[|Dispatched(n.sent)|..] == Envelopes(m.envelopes);
        assert Line(n)[|Dispatched(n.sent)|..] == waiting;
      }
    }
  }

  /** Different envelopes can be told apart. */
  lemma {:induction false} DistinctSame<T>(s: seq<T>)
    requires forall i, j :: 0 <= i < j < |s| ==> s[i] != s[j]
    ensures AllSame(s) <==> |s| <= 1
  {
    if |s| > 1 { assert s[0] != s[1]; }
  }

  /** A failed completion sends nothing: it takes the first waiting envelope out of the line and dooms it. */
  lemma {:induction false} FailureDoomsHead<E>(maxConnections: int, n: Net<E>, request: Request)
    ensures var m := Complete(maxConnections, n, request, false);
            && m.sent == n.sent && m.requests == Without(n.requests, request)
            && (if n.envelopes == [] then m.envelopes == [] && m.doomed == n.doomed && Line(m) == Line(n)
                else Line(m) != Line(n) && [m.doomed[|m.doomed| - 1]] + m.envelopes == n.envelopes &&
                     m.doomed[..|m.doomed| - 1] == n.doomed)
  {
    if n.envelopes != [] {
      EnvelopesHead(n.envelopes);
      assert |Line(Complete(maxConnections, n, request, false))| < |Line(n)|;
    }
  }

  /** What a caller can check before an event: whether the line of ordinary envelopes will come through it unchanged. */
  predicate KeepsLine<E(==)>(maxConnections: int, n: Net<E>, ev: Event<E>) {
    match ev
    case Submit(e, longpoll) => longpoll
    case Success(k) =>
      k < |n.sent| && Reports(n, k) && !n.sent[k].job.request.longpoll ==>
        n.sent[k].job.request in n.requests || |n.requests| < maxConnections - 1 || AllSame(Envelopes(n.envelopes))
    case Unreadable(k) => true
    case Failure(k) =>
      k < |n.sent| && Reports(n, k) && !n.sent[k].job.request.longpoll ==> n.envelopes == []
    case Timeout(k) =>
      k < |n.sent| && n.sent[k].timer && !n.sent[k].job.request.longpoll ==> n.envelopes == []
    case FailTask(j) => j < |n.doomed| ==> n.envelopes == []
    case ResetAll => n.envelopes == []
  }

  /** A long poll is not part of the line. */
  lemma {:induction false} LongpollSendLine<E>(n: Net<E>, e: E)
    ensures Line(LongpollSend(n, e)) == Line(n)
  {
    DispatchedAppend(n.sent, Sent(Job(e, Request(n.requestIds + 1, true)), true, false, true));
  }

  lemma {:induction false} FailedLine<E>(maxConnections: int, n: Net<E>, request: Request)
    ensures Line(Completion(maxConnections, n, request, false)) == Line(n) <==> request.longpoll || n.envelopes == []
  {
    FailureDoomsHead(maxConnections, n, request);
  }

  lemma {:induction false} SuccessEventLine<E>(maxConnections: int, n: Net<E>, k: nat)
    requires Bounded(maxConnections, n) && k < |n.sent|
    ensures Line(OnReport(maxConnections, n, k, true)) == Line(n) <==> KeepsLine(maxConnections, n, Success(k))
  {
    DispatchedUpdate(n.sent, k, Report(n, k).sent[k]);
    SuccessKeepsLineIff(maxConnections, Report(n, k), n.sent[k].job.request);
  }

  lemma {:induction false} FailureEventLine<E>(maxConnections: int, n: Net<E>, k: nat)
    requires k < |n.sent|
    ensures Line(OnReport(maxConnections, n, k, false)) == Line(n) <==> KeepsLine(maxConnections, n, Failure(k))
    ensures Line(OnTimeout(maxConnections, n, k)) == Line(n) <==> KeepsLine(maxConnections, n, Timeout(k))
  {
    DispatchedUpdate(n.sent, k, Report(n, k).sent[k]);
    FailedLine(maxConnections, Report(n, k), n.sent[k].job.request);
    DispatchedUpdate(n.sent, k, Expire(n, k).sent[k]);
    FailedLine(maxConnections, Expire(n, k), n.sent[k].job.request);
  }

  /** The exact condition under which an event leaves the line as it is, for every event and every state within the
      connection limit. */
  lemma {:induction false} LineTheorem<E>(maxConnections: int, n: Net<E>, ev: Event<E>)
    requires Bounded(maxConnections, n)
    ensures Line(Step(maxConnections, n, ev)) == Line(n) <==> KeepsLine(maxConnections, n, ev)
  {
    match ev
    case Submit(e, longpoll) =>
      if longpoll {
        LongpollSendLine(n.(submitted := n.submitted + [e]), e);
      } else {
        SubmitGrows(maxConnections, n, e);
      }
    case Success(k) => if k < |n.sent| { SuccessEventLine(maxConnections, n, k); }
    case Unreadable(k) => if k < |n.sent| { DispatchedUpdate(n.sent, k, Report(n, k).sent[k]); }
    case Failure(k) => if k < |n.sent| { FailureEventLine(maxConnections, n, k); }
    case Timeout(k) => if k < |n.sent| { FailureEventLine(maxConnections, n, k); }
    case FailTask(j) => if j < |n.doomed| { FailureDoomsHead(maxConnections, Doom(n, j), n.doomed[j].request); }
    case ResetAll => if n.envelopes != [] { EnvelopesHead(n.envelopes); }
  }

  lemma {:induction false} SubmitGrows<E>(maxConnections: int, n: Net<E>, e: E)
    ensures |Line(Send(maxConnections, n, e, false))| == |Line(n)| + 1
  {
    var x := Request(n.requestIds + 1, false);
    DispatchedAppend(n.sent, Sent(Job(e, x), true, false, true));
    EnvelopesAppend(n.envelopes, Job(e, x));
  }

  /** The failure tasks run one after the other, each planting the next. */
  function Drained<E>(maxConnections: int, n: Net<E>, tasks: nat): Net<E>
    decreases tasks
  {
    if tasks == 0 then n else Drained(maxConnections, Step(maxConnections, n, FailTask(0)), tasks - 1)
  }

  /** A failed completion hands the head of the queue to the failure tasks. */
  lemma {:induction false} FailureMovesHead<E>(maxConnections: int, n: Net<E>, request: Request)
    ensures var m := Complete(maxConnections, n, request, false);
            && m.sent == n.sent && m.finished == n.finished && (m.doomed != [] || m.envelopes == [])
            && m.doomed + m.envelopes == n.doomed + n.envelopes
            && |m.doomed| + |m.envelopes| == |n.doomed| + |n.envelopes|
  {
    if n.envelopes != [] {
      assert n.envelopes == [n.envelopes[0]] + n.envelopes[1..];
      Associate(n.doomed, [n.envelopes[0]], n.envelopes[1..]);
    }
  }

  /** A failure task fails its envelope and plants the next one. */
  lemma {:induction false} DrainStep<E>(maxConnections: int, n: Net<E>)
    requires n.doomed != []
    ensures var m := Step(maxConnections, n, FailTask(0));
            && m.sent == n.sent && m.finished == n.finished + [n.doomed[0]]
            && m.doomed + m.envelopes == n.doomed[1..] + n.envelopes && (m.doomed != [] || m.envelopes == [])
            && |m.doomed| + |m.envelopes| == |n.doomed| + |n.envelopes| - 1
  {
    assert Doom(n, 0).doomed == n.doomed[1..];
    FailureMovesHead(maxConnections, Doom(n, 0), n.doomed[0].request);
  }

  lemma {:induction false} Regrouped<T>(a: seq<T>, b: seq<T>, c: seq<T>, d: seq<T>, e: seq<T>)
    requires b != [] && d + e == b[1..] + c
    ensures a + [b[0]] + d + e == a + b + c
  {
    assert b == [b[0]] + b[1..];
    Associate(a + [b[0]], d, e);
  }

  lemma {:induction false} Associate<T>(a: seq<T>, b: seq<T>, c: seq<T>)
    ensures a + b + c == a + (b + c)
  {
  }

  /** Between them, they fail the whole queue. */
  lemma {:induction false} DrainedAll<E>(maxConnections: int, n: Net<E>)
    requires n.doomed != [] || n.envelopes == []
    ensures var m := Drained(maxConnections, n, |n.doomed| + |n.envelopes|);
            m.sent == n.sent && m.envelopes == [] && m.doomed == [] && m.finished == n.finished + n.doomed + n.envelopes
    decreases |n.doomed| + |n.envelopes|
  {
    if n.doomed == [] {
      assert n.finished + n.doomed + n.envelopes == n.finished;
    } else {
      DrainStep(maxConnections, n);
      var m := Step(maxConnections, n, FailTask(0));
      DrainedAll(maxConnections, m);
      Regrouped(n.finished, n.doomed, n.envelopes, m.doomed, m.envelopes);
    }
  }

  /** The failure of an ordinary request, by the network or by the timeout. */
  predicate Fails<E>(n: Net<E>, ev: Event<E>) {
    match ev
    case Failure(k) => k < |n.sent| && !n.sent[k].job.request.longpoll && Reports(n, k)
    case Timeout(k) => k < |n.sent| && !n.sent[k].job.request.longpoll && n.sent[k].timer
    case _ => false
  }

  lemma {:induction false} FailureStep<E>(maxConnections: int, n: Net<E>, ev: Event<E>)
    requires Fails(n, ev)
    ensures var m := Step(maxConnections, n, ev);
            && Dispatched(m.sent) == Dispatched(n.sent) && m.finished == n.finished + [n.sent[ev.k].job]
            && m.doomed + m.envelopes == n.doomed + n.envelopes && (m.doomed != [] || m.envelopes == [])
            && |m.doomed| + |m.envelopes| == |n.doomed| + |n.envelopes|
  {
    var r := if ev.Failure? then Report(n, ev.k) else Expire(n, ev.k);
    DispatchedUpdate(n.sent, ev.k, r.sent[ev.k]);
    FailureMovesHead(maxConnections, r, n.sent[ev.k].job.request);
  }

  /** So one failed ordinary request, with nothing but failure tasks after it, fails the whole queue, in order, without
      sending any of it.  What can still send the head is a success in between, as `DispatchLine` says. */
  lemma {:induction false} CascadeTheorem<E>(maxConnections: int, n: Net<E>, ev: Event<E>)
    requires Fails(n, ev)
    ensures var m := Drained(maxConnections, Step(maxConnections, n, ev), |n.doomed| + |n.envelopes|);
            && Dispatched(m.sent) == Dispatched(n.sent) && m.envelopes == [] && m.doomed == []
            && m.finished == n.finished + [n.sent[ev.k].job] + n.doomed + n.envelopes
  {
    var m := Step(maxConnections, n, ev);
    FailureStep(maxConnections, n, ev);
    DrainedAll(maxConnections, m);
    Associate(m.finished, m.doomed, m.envelopes);
    Associate(m.finished, n.doomed, n.envelopes);
  }

  // ---------------------------------------------------------------- subsequences

  ghost predicate Subsequence<T>(a: seq<T>, b: seq<T>) {
    if a == [] then true
    else if b == [] then false
    else if a[|a| - 1] == b[|b| - 1] then Subsequence(a[..|a| - 1], b[..|b| - 1])
    else Subsequence(a, b[..|b| - 1])
  }

  lemma {:induction false} SubsequenceSelf<T>(a: seq<T>)
    ensures Subsequence(a, a)
  {
    if a != [] { SubsequenceSelf(a[..|a| - 1]); }
  }

  lemma {:induction false} SubsequenceSnoc<T>(a: seq<T>, b: seq<T>, x: T)
    requires Subsequence(a, b)
    ensures Subsequence(a + [x], b + [x])
  {
    assert (a + [x])[..|a|] == a && (b + [x])[..|b|] == b;
  }

  lemma {:induction false} SubsequenceDrop<T>(a: seq<T>, b: seq<T>)
    requires a != [] && Subsequence(a, b)
    ensures Subsequence(a[..|a| - 1], b)
    decreases |b|
  {
    var u, v := a[..|a| - 1], b[..|b| - 1];
    if a[|a| - 1] != b[|b| - 1] {
      SubsequenceDrop(a, v);
    }
    if u != [] && u[|u| - 1] == b[|b| - 1] {
      SubsequenceDrop(u, v);
    }
  }

  lemma {:induction false} SubsequencePrefix<T>(a: seq<T>, rest: seq<T>, b: seq<T>)
    requires Subsequence(a + rest, b)
    ensures Subsequence(a, b)
  {
    if rest == [] {
      assert a + rest == a;
    } else {
      SubsequenceDrop(a + rest, b);
      assert (a + rest)[..|a + rest| - 1] == a + rest[..|rest| - 1];
      SubsequencePrefix(a, rest[..|rest| - 1], b);
    }
  }

  // ---------------------------------------------------------------- runs

  /** Every completion of an ordinary request is a success of a request that is tracked at that moment. */
  predicate OnTrack<E(==)>(n: Net<E>, ev: Event<E>) {
    match ev
    case Success(k) =>
      k < |n.sent| && Reports(n, k) && !n.sent[k].job.request.longpoll ==> n.sent[k].job.request in n.requests
    case Failure(k) => k < |n.sent| && Reports(n, k) ==> n.sent[k].job.request.longpoll
    case Timeout(k) => k < |n.sent| && n.sent[k].timer ==> n.sent[k].job.request.longpoll
    case FailTask(j) => j >= |n.doomed|
    case _ => true
  }

  predicate OnTrackRun<E(==)>(maxConnections: int, evs: seq<Event<E>>) {
    evs != [] ==>
      && OnTrackRun(maxConnections, evs[..|evs| - 1])
      && OnTrack(Run(maxConnections, evs[..|evs| - 1]), evs[|evs| - 1])
  }

  lemma {:induction false} SuccessLine<E>(maxConnections: int, n: Net<E>, k: nat)
    requires k < |n.sent| && OnTrack(n, Success(k)) && Bounded(maxConnections, n)
    ensures var m := OnReport(maxConnections, n, k, true); Line(m) == Line(n) && m.doomed == n.doomed
  {
    var r := Report(n, k);
    DispatchedUpdate(n.sent, k, r.sent[k]);
    var request := n.sent[k].job.request;
    if Reports(n, k) && !request.longpoll && r.envelopes != [] {
      DispatchLine(maxConnections, r, request);
    }
  }

  lemma {:induction false} LongpollFailureLine<E>(maxConnections: int, n: Net<E>, ev: Event<E>)
    requires OnTrack(n, ev) && (ev.Failure? || ev.Timeout?)
    ensures var m := Step(maxConnections, n, ev); Line(m) == Line(n) && m.doomed == n.doomed
  {
    if ev.k < |n.sent| {
      DispatchedUpdate(n.sent, ev.k, Report(n, ev.k).sent[ev.k]);
      DispatchedUpdate(n.sent, ev.k, Expire(n, ev.k).sent[ev.k]);
    }
  }

  lemma {:induction false} SubmitLine<E>(maxConnections: int, n: Net<E>, e: E, longpoll: bool)
    requires n.doomed == [] && NotStalled(maxConnections, n)
    ensures var m := Send(maxConnections, n, e, longpoll);
            m.doomed == [] && Line(m) == Line(n) + if longpoll then [] else [e]
  {
    if longpoll {
      DispatchedAppend(n.sent, Sent(Job(e, Request(n.requestIds + 1, true)), true, false, true));
    } else {
      QueueSendLine(maxConnections, n.(submitted := n.submitted + [e]), e);
    }
  }

  lemma {:induction false} StepLine<E>(maxConnections: int, n: Net<E>, ev: Event<E>)
    requires OnTrack(n, ev) && Inv(maxConnections, n) && n.doomed == [] && !ev.ResetAll?
    ensures var m := Step(maxConnections, n, ev);
            m.doomed == [] && Line(m) == Line(n) + if ev.Submit? && !ev.longpoll then [ev.e] else []
  {
    match ev
    case Submit(e, longpoll) => SubmitLine(maxConnections, n, e, longpoll);
    case Success(k) => if k < |n.sent| { SuccessLine(maxConnections, n, k); }
    case Unreadable(k) => if k < |n.sent| { DispatchedUpdate(n.sent, k, Report(n, k).sent[k]); }
    case Failure(k) => LongpollFailureLine(maxConnections, n, ev);
    case Timeout(k) => LongpollFailureLine(maxConnections, n, ev);
    case FailTask(j) =>
  }

  lemma {:induction false} StepFifo<E>(maxConnections: int, n: Net<E>, ev: Event<E>, given: seq<E>)
    requires OnTrack(n, ev) && Inv(maxConnections, n) && n.doomed == [] && Subsequence(Line(n), given)
    ensures var m := Step(maxConnections, n, ev);
            m.doomed == [] && Subsequence(Line(m), given + if ev.Submit? && !ev.longpoll then [ev.e] else [])
  {
    assert given + [] == given && Line(n) + [] == Line(n);
    if ev.ResetAll? {
      SubsequencePrefix(Dispatched(n.sent), Envelopes(n.envelopes), given);
      assert Line(Reset(n)) == Dispatched(n.sent);
    } else {
      StepLine(maxConnections, n, ev);
      if ev.Submit? && !ev.longpoll { SubsequenceSnoc(Line(n), given, ev.e); }
    }
  }

  /** In a run in which every completion of an ordinary request is a success of a tracked request, whatever happens to
      long polls and whenever the transport is reset, nothing is doomed and ordinary envelopes leave in submission
      order. */
  lemma {:induction false} FifoTheorem<E>(maxConnections: int, evs: seq<Event<E>>)
    requires OnTrackRun(maxConnections, evs)
    ensures var n := Run(maxConnections, evs); n.doomed == [] && Subsequence(Line(n), Ordinary(evs))
  {
    if evs != [] {
      var before, ev := evs[..|evs| - 1], evs[|evs| - 1];
      FifoTheorem(maxConnections, before);
      RunKeeps(maxConnections, before);
      StepFifo(maxConnections, Run(maxConnections, before), ev, Ordinary(before));
    }
  }

  /** Without a reset nothing is missing either: what has left followed by what waits is what was submitted. */
  lemma {:induction false} NothingMissing<E>(maxConnections: int, evs: seq<Event<E>>)
    requires OnTrackRun(maxConnections, evs) && ResetAll !in evs
    ensures Line(Run(maxConnections, evs)) == Ordinary(evs)
  {
    if evs != [] {
      var before, ev := evs[..|evs| - 1], evs[|evs| - 1];
      FifoTheorem(maxConnections, before);
      NothingMissing(maxConnections, before);
      RunKeeps(maxConnections, before);
      assert ev in evs;
      StepLine(maxConnections, Run(maxConnections, before), ev);
    }
  }

  // ---------------------------------------------------------------- a run that loses the order

  function WaitingPair(): Net<int> {
    Net(4, None, [Request(2, false)], [Job(2, Request(3, false)), Job(3, Request(4, false))],
        [Sent(Job(0, Request(1, false)), true, false, true), Sent(Job(1, Request(2, false)), true, false, true)],
        [], [0, 1, 2, 3], [], [])
  }

  lemma {:induction false} WaitingPairReached()
    ensures Run(2, [Submit(0, false), ResetAll, Submit(1, false), Submit(2, false), Submit(3, false)]) == WaitingPair()
  {
    var none: seq<Event<int>> := [];
    RunSnoc(2, none, Submit(0, false));
    assert none + [Submit(0, false)] == [Submit(0, false)];
    RunSnoc(2, [Submit(0, false)], ResetAll);
    assert [Submit(0, false)] + [ResetAll] == [Submit(0, false), ResetAll];
    RunSnoc(2, [Submit(0, false), ResetAll], Submit(1, false));
    assert [Submit(0, false), ResetAll] + [Submit(1, false)] == [Submit(0, false), ResetAll, Submit(1, false)];
    RunSnoc(2, [Submit(0, false), ResetAll, Submit(1, false)], Submit(2, false));
    assert [Submit(0, false), ResetAll, Submit(1, false)] + [Submit(2, false)] ==
           [Submit(0, false), ResetAll, Submit(1, false), Submit(2, false)];
    RunSnoc(2, [Submit(0, false), ResetAll, Submit(1, false), Submit(2, false)], Submit(3, false));
    assert [Submit(0, false), ResetAll, Submit(1, false), Submit(2, false)] + [Submit(3, false)] ==
           [Submit(0, false), ResetAll, Submit(1, false), Submit(2, false), Submit(3, false)];
  }

  /** The pair after the stale success of request 1 has turned the queue. */
  function TurnedPair(): Net<int> {
    Net(5, None, [Request(2, false)], [Job(3, Request(4, false)), Job(2, Request(5, false))],
        [Sent(Job(0, Request(1, false)), false, false, false), Sent(Job(1, Request(2, false)), true, false, true)],
        [], [0, 1, 2, 3], [Job(0, Request(1, false))], [])
  }

  lemma {:induction false} StaleStep()
    ensures Step(2, WaitingPair(), Success(0)) == TurnedPair()
  {
    assert Without([Request(2, false)], Request(1, false)) == [Request(2, false)];
  }

  lemma {:induction false} OvertakingStep()
    ensures var n := Step(2, TurnedPair(), Success(1));
            Dispatched(n.sent) == [0, 1, 3] && Envelopes(n.envelopes) == [2]
  {
    var n := TurnedPair();
    assert Without([Request(2, false)], Request(2, false)) == [];
    ReportedPair();
    var reported := Report(n, 1).(envelopes := [Job(2, Request(5, false))]);
    DispatchedAppend(reported.sent, Sent(Job(3, Request(6, false)), true, false, true));
    assert n.envelopes[1..] == [Job(2, Request(5, false))];
    assert Envelopes([Job(2, Request(5, false))]) == [2];
  }

  lemma {:induction false} DispatchedPair<E>(a: Sent<E>, b: Sent<E>)
    requires !a.job.request.longpoll && !b.job.request.longpoll
    ensures Dispatched([a, b]) == [a.job.envelope, b.job.envelope]
  {
    DispatchedAppend([a], b);
    DispatchedAppend([], a);
    var none: seq<Sent<E>> := [];
    assert none + [a] == [a] && [a] + [b] == [a, b];
  }

  lemma {:induction false} ReportedPair()
    ensures Dispatched(Report(TurnedPair(), 1).sent) == [0, 1]
  {
    var sent := Report(TurnedPair(), 1).sent;
    assert sent == [sent[0], sent[1]];
    DispatchedPair(sent[0], sent[1]);
  }

  /** So one reset is enough to break submission order: 2 is submitted before 3 and leaves after it. */
  lemma {:induction false} ResetBreaksFifo()
    ensures var evs := [Submit(0, false), ResetAll, Submit(1, false), Submit(2, false), Submit(3, false)];
            var n := Run(2, evs + [Success(0)] + [Success(1)]);
            Dispatched(n.sent) == [0, 1, 3] && Envelopes(n.envelopes) == [2]
  {
    var evs := [Submit(0, false), ResetAll, Submit(1, false), Submit(2, false), Submit(3, false)];
    WaitingPairReached();
    RunSnoc(2, evs, Success(0));
    StaleStep();
    RunSnoc(2, evs + [Success(0)], Success(1));
    OvertakingStep();
  }
}
