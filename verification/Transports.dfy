/** `org.cometd.Transport` itself, method by method, each tied to the scheduler operation it performs. */
module Transports {
  import opened Options
  import opened Scheduler

  class Transport<E> {
    const maxConnections: int
    var requestIds: nat
    var longpollRequest: Option<Request>
    var requests: seq<Request>
    var envelopes: seq<Job<E>>
    var sent: seq<Sent<E>>
    var doomed: seq<Job<E>>
    ghost var submitted: seq<E>
    ghost var finished: seq<Job<E>>
    ghost var dropped: seq<Job<E>>

    ghost function View(): Net<E>
      reads this
    {
      Net(requestIds, longpollRequest, requests, envelopes, sent, doomed, submitted, finished, dropped)
    }

    constructor (maxConnections: int)
      ensures this.maxConnections == maxConnections
      ensures View() == EmptyNet()
    {
      this.maxConnections := maxConnections;
      requestIds, longpollRequest, requests, envelopes := 0, None, [], [];
      sent, doomed, submitted, finished, dropped := [], [], [], [], [];
    }

    method TransportSend(envelope: E, request: Request)
      modifies this
      ensures View() == Scheduler.TransportSend(old(View()), Job(envelope, request))
    {
      sent := sent + [Sent(Job(envelope, request), true, false, true)];
    }

    method LongpollSend(envelope: E) returns (threw: bool)
      modifies this
      ensures threw == ConcurrentLongpoll(old(View()))
      ensures View() == Scheduler.LongpollSend(old(View()), envelope)
    {
      if longpollRequest.Some? {
        return true;
      }
      requestIds := requestIds + 1;
      var request := Request(requestIds, true);
      TransportSend(envelope, request);
      longpollRequest := Some(request);
      return false;
    }

    method QueueSend(envelope: E)
      modifies this
      ensures View() == Scheduler.QueueSend(maxConnections, old(View()), envelope)
    {
      requestIds := requestIds + 1;
      var request := Request(requestIds, false);
      // The reserved long poll slot is never used here
      if |requests| < maxConnections - 1 {
        TransportSend(envelope, request);
        requests := requests + [request];
      } else {
        envelopes := envelopes + [Job(envelope, request)];
      }
    }

    method LongpollComplete(request: Request) returns (threw: bool)
      modifies this
      ensures threw == LongpollMismatch(old(View()), request)
      ensures View() == Scheduler.CompleteAny(maxConnections, old(View()), request, true, true)
    {
      if longpollRequest.Some? && longpollRequest.value != request {
        return true;
      }
      longpollRequest := None;
      return false;
    }

    /** `_inArray`: the first index of `request` among the tracked requests, or -1. */
    method InArray(request: Request) returns (index: int)
      ensures index == -1 ==> request !in requests
      ensures index != -1 ==> 0 <= index < |requests| && requests[index] == request && request !in requests[..index]
    {
      for i := 0 to |requests|
        invariant request !in requests[..i]
      {
        if requests[i] == request {
          return i;
        }
      }
      return -1;
    }

    method Complete(request: Request, success: bool)
      modifies this
      ensures View() == Scheduler.Complete(maxConnections, old(View()), request, success)
    {
      var index := InArray(request);
      // A request that has been aborted is no longer tracked
      if index >= 0 {
        SpliceIsWithout(requests, request, index);
        requests := requests[..index] + requests[index + 1..];
      }
      if |envelopes| > 0 {
        var envelope := envelopes[0];
        envelopes := envelopes[1..];
        if success {
          QueueSend(envelope.envelope);
        } else {
          doomed := doomed + [envelope];
        }
      }
    }

    method Send(envelope: E, longpoll: bool) returns (threw: bool)
      modifies this
      ensures threw == (longpoll && ConcurrentLongpoll(old(View())))
      ensures View() == Scheduler.Send(maxConnections, old(View()), envelope, longpoll)
    {
      threw := false;
      if longpoll {
        if longpollRequest.None? {
          submitted := submitted + [envelope];
        }
        threw := LongpollSend(envelope);
      } else {
        submitted := submitted + [envelope];
        QueueSend(envelope);
      }
    }

    method CompleteAny(request: Request, success: bool, longpoll: bool) returns (threw: bool)
      modifies this
      ensures threw == (longpoll && LongpollMismatch(old(View()), request))
      ensures View() == Scheduler.CompleteAny(maxConnections, old(View()), request, success, longpoll)
    {
      threw := false;
      if longpoll {
        threw := LongpollComplete(request);
      } else {
        Complete(request, success);
      }
    }

    method Reset()
      modifies this
      ensures View() == Scheduler.Reset(old(View()))
    {
      dropped := dropped + envelopes;
      longpollRequest := None;
      requests := [];
      envelopes := [];
    }

    method Report(k: nat) returns (callback: bool)
      requires k < |sent|
      modifies this
      ensures callback == Reports(old(View()), k)
      ensures View() == Scheduler.Report(old(View()), k)
    {
      var s := sent[k];
      callback := s.wire && !s.expired;
      if callback {
        sent := sent[k := s.(wire := false, timer := false)];
        finished := finished + [s.job];
      } else if s.wire {
        sent := sent[k := s.(wire := false)];
      }
    }

    method Expire(k: nat) returns (callback: bool)
      requires k < |sent|
      modifies this
      ensures callback == old(sent)[k].timer
      ensures View() == Scheduler.Expire(old(View()), k)
    {
      var s := sent[k];
      callback := s.timer;
      if callback {
        sent := sent[k := s.(timer := false, expired := true)];
        finished := finished + [s.job];
      }
    }

    method Doom(j: nat) returns (job: Job<E>)
      requires j < |doomed|
      modifies this
      ensures job == old(doomed)[j]
      ensures View() == Scheduler.Doom(old(View()), j)
    {
      job := doomed[j];
      doomed := doomed[..j] + doomed[j + 1..];
      finished := finished + [job];
    }
  }
}
