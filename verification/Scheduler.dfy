/**
  The request scheduler `org.cometd.Transport` of media/js/cometd.js.

  One slot is reserved for the long poll, `maxConnections - 1` slots serve every other request and
  further envelopes wait in a queue.  The browser is part of the state: each request handed to the network
  keeps a timeout timer and a pending network report that race each other, and a failed completion
  plants a task that fails the next waiting envelope later.
 */
module Scheduler {
  import opened Options

  datatype Request = Request(id: nat, longpoll: bool)

  /** An envelope together with the request object created for it. */
  datatype Job<E> = Job(envelope: E, request: Request)

  /** A job handed to the network: `timer` says that its timeout is still set, `expired` that the timeout
      has fired, and `wire` that the network has not reported on it yet. */
  datatype Sent<E> = Sent(job: Job<E>, timer: bool, expired: bool, wire: bool)

  datatype Net<E> = Net(
    requestIds: nat,
    longpollRequest: Option<Request>,
    requests: seq<Request>,
    envelopes: seq<Job<E>>,
    // the browser
    sent: seq<Sent<E>>,
    doomed: seq<Job<E>>,
    // what has happened so far
    submitted: seq<E>,
    finished: seq<Job<E>>,
    dropped: seq<Job<E>>)

  function EmptyNet<E>(): Net<E> {
    Net(0, None, [], [], [], [], [], [], [])
  }

  // ---------------------------------------------------------------- what each operation computes

  function TransportSend<E>(n: Net<E>, job: Job<E>): Net<E> {
    n.(sent := n.sent + [Sent(job, true, false, true)])
  }

  /** `_queueSend`: use a free ordinary slot or wait. */
  function QueueSend<E>(maxConnections: int, n: Net<E>, e: E): Net<E> {
    var request := Request(n.requestIds + 1, false);
    var n1 := n.(requestIds := n.requestIds + 1);
    if |n.requests| < maxConnections - 1 then
      TransportSend(n1, Job(e, request)).(requests := n.requests + [request])
    else
      n1.(envelopes := n.envelopes + [Job(e, request)])
  }

  /** True when `_longpollSend` would throw "Concurrent longpoll requests not allowed". */
  predicate ConcurrentLongpoll<E>(n: Net<E>) {
    n.longpollRequest.Some?
  }

  function LongpollSend<E>(n: Net<E>, e: E): Net<E> {
    if ConcurrentLongpoll(n) then n
    else
      var request := Request(n.requestIds + 1, true);
      TransportSend(n.(requestIds := n.requestIds + 1), Job(e, request)).(longpollRequest := Some(request))
  }

  function Send<E>(maxConnections: int, n: Net<E>, e: E, longpoll: bool): Net<E> {
    if longpoll then
      if ConcurrentLongpoll(n) then n else LongpollSend(n.(submitted := n.submitted + [e]), e)
    else
      QueueSend(maxConnections, n.(submitted := n.submitted + [e]), e)
  }

  /** True when `_longpollComplete` would throw "Longpoll request mismatch". */
  predicate LongpollMismatch<E>(n: Net<E>, request: Request) {
    n.longpollRequest.Some? && n.longpollRequest.value != request
  }

  /** Removes the first occurrence of `x`, or nothing when there is none. */
  function Without<T(==)>(s: seq<T>, x: T): (r: seq<T>)
    ensures x in s ==> |r| == |s| - 1
    ensures x !in s ==> r == s
  {
    if s == [] then [] else if s[0] == x then s[1..] else [s[0]] + Without(s[1..], x)
  }

  function Complete<E>(maxConnections: int, n: Net<E>, request: Request, success: bool): Net<E> {
    var n1 := n.(requests := Without(n.requests, request));
    if n.envelopes == [] then n1
    else
      var head, n2 := n.envelopes[0], n1.(envelopes := n.envelopes[1..]);
      if success then QueueSend(maxConnections, n2, head.envelope)
      else n2.(doomed := n.doomed + [head])
  }

  /** `complete(request, success, longpoll)`; a mismatched long poll throws and changes nothing. */
  function CompleteAny<E>(maxConnections: int, n: Net<E>, request: Request, success: bool, longpoll: bool): Net<E> {
    if !longpoll then Complete(maxConnections, n, request, success)
    else if LongpollMismatch(n, request) then n
    else n.(longpollRequest := None)
  }

  /** `reset`, which is also all that `abort` does to the scheduler itself. */
  function Reset<E>(n: Net<E>): Net<E> {
    n.(longpollRequest := None, requests := [], envelopes := [], dropped := n.dropped + n.envelopes)
  }

  /** The network reports on request `k`: `transportSuccess` and `transportFailure`, up to the callback. */
  function Report<E>(n: Net<E>, k: nat): Net<E>
    requires k < |n.sent|
  {
    var s := n.sent[k];
    if !s.wire then n
    else if s.expired then n.(sent := n.sent[k := s.(wire := false)])
    else n.(sent := n.sent[k := s.(wire := false, timer := false)], finished := n.finished + [s.job])
  }

  /** True when `Report` invokes the callback of envelope `k`. */
  predicate Reports<E>(n: Net<E>, k: nat)
    requires k < |n.sent|
  {
    n.sent[k].wire && !n.sent[k].expired
  }

  /** The timeout timer of request `k` fires, up to the callback. */
  function Expire<E>(n: Net<E>, k: nat): Net<E>
    requires k < |n.sent|
  {
    var s := n.sent[k];
    if !s.timer then n
    else n.(sent := n.sent[k := s.(timer := false, expired := true)], finished := n.finished + [s.job])
  }

  /** The planted failure task `j` runs, up to the callback. */
  function Doom<E>(n: Net<E>, j: nat): Net<E>
    requires j < |n.doomed|
  {
    n.(doomed := n.doomed[..j] + n.doomed[j + 1..], finished := n.finished + [n.doomed[j]])
  }

  lemma {:induction false} SpliceIsWithout<T>(s: seq<T>, x: T, i: nat)
    requires i < |s| && s[i] == x && x !in s[..i]
    ensures Without(s, x) == s[..i] + s[i + 1..]
  {
    if i > 0 {
      assert s[0] in s[..i];
      assert s[1..][..i - 1] == s[..i][1..];
      SpliceIsWithout(s[1..], x, i - 1);
      assert s[..i] + s[i + 1..] == [s[0]] + (s[1..][..i - 1] + s[1..][i..]);
    }
  }
}
