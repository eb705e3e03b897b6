# Verified models of the repository's protocols and algorithms

The project models five parts of the repository and proves what they are for. Each class has the fields and methods of
the object it models; each method is tied to a function on values, and the theorems are about those functions and about
every run of them. Lemmas carry `{:induction false}`, so that the proofs are those written down.

1. **The Bayeux client and its transport** (`media/js/cometd.js`). `Scheduler` says what each operation of
   `org.cometd.Transport` computes and `Transports` is the object. Over all runs of it, `SchedulerRuns` has conservation
   and the limits, `SchedulerOrder` the order of ordinary envelopes, and `SchedulerSlots` who holds the slots. `Bayeux` is
   the client as a state machine over the scheduler, `CometdClient` is the object, and `ClientSteps` breaks its handlers
   into small steps. Over all runs of the client, `ClientRuns` and `Overtaking` have batching and its order, `ClientFlush`
   when held messages leave, `Wire` which envelopes the transport is given, `Batches` when messages are held, `ClientNet`
   the refinement of the scheduler, `SingleDriver` and `Keepalive` that exactly one thing keeps the client going,
   `ClientTimers` and `Delays` how long it waits, `Statuses` its status, `Disconnections` and `Revivals` when it stays
   away. `Traces` has runs that show the stated conditions to be needed. The browser is part of the state: network
   reports, timeouts, delayed sends and planted failure tasks happen in any order. Listeners may call the client in the
   middle of every handler. `Channels`, `Listeners`, `Notifications` and `Mirrors` are channel globbing, the listener
   table, the order of its callbacks and the subscription messages that should mirror it.
2. **Sizzle** (`resources/js/jquery.js`). `Dom` names nodes by their position. `SizzleWalk` is the walk that memoises in
   marks on the nodes, `SizzleMatch` the right-to-left matching, `SizzleMeaning` relates it to what a selector means, and
   `SizzleSort` is the document order comparator with `uniqueSort`.
3. **Dependencies** (`Operation.java`, `ServiceManager.java`). `Operations` is the re-entrant executor on values,
   `OperationObjects` the objects, `Services` the initialisation loop, `Graphs` what they share about cycles.
4. **Geohash** (`Geohash.java`). `Bisection` and `Base32` are the two encodings, `Geohash` puts them together,
   and `Geocells` says what the characters of a hash mean. The midpoints are dyadic multiples of 45 and exact in doubles,
   so coordinates are reals.
5. **The connection pool and the clock** (`ConnectionPool.java`, `TimeSyncExtension.js`). `Pool` has the atomic steps of
   any number of threads in any order, `ConnectionPools` the object, `TimeSync` the sliding-window estimator.

## Where the code does not do what one might expect

- A successful connect reply flushes the held messages even inside a user batch (`Traces.FlushedInsideBatch`; exactly
  when held messages leave is `ClientFlush.HeldTheorem`).
- An `endBatch` that closes the last batch while disconnecting or disconnected leaves messages held outside any batch, and
  later messages overtake them (`Traces.OvertakenRun`; exactly when the order holds is `ClientRuns.OrderTheorem`).
- A failed completion fails the whole waiting queue instead of sending it, unless a success comes in between
  (`SchedulerOrder.CascadeTheorem`), and a stale success turns the queue (`SchedulerOrder.ResetBreaksFifo`); exactly what
  keeps the order is `SchedulerOrder.LineTheorem`.
- A response that cannot be read leaks its slot (`SchedulerSlots.LeakedRun`); until a reset the queue stands still for
  ever if and only if all slots have leaked (`SchedulerSlots.StandstillTheorem`).
- A handshake success does not look for a disconnection (`Traces.HandshakeRevives`; exactly when a disconnected client can
  come back is `Revivals.RevivalTheorem`).
- A listener that calls `handshake()` while it is told of a failed handshake starts a second driver, which ends in the
  concurrent long poll exception (`Traces.TwoDriversRun`; exactly what keeps to one is `SingleDriver.AlwaysSingleIff`).
- A failed long poll with advice 'none' leaves the client 'connected' with nothing under way (`Traces.HaltedRun`; exactly
  what halts a client is `Keepalive.KeepaliveTheorem`).
- A subscription to a channel that already has a plain listener is never sent (`Mirrors.PlainListenerHidesSubscription`;
  exactly when the server knows of the subscriptions is `Mirrors.FollowedTheorem`).
- Matching without backtracking misses nodes when a descendant combinator has a `>`, `+` or `~` to its left, or a `~` has a
  `+` to its left (`SizzleMeaning.UnsafeChain`).
- The circularity check accepts rings of three or more services, on which the loop never ends
  (`Services.CheckMissesRings`).
- `decode` returns the lower corner of the cell, 0 for a coordinate without any set bit, and a shifted point when
  `base32` has dropped leading zeros (`Geohash.RoundTripTheorem`).
- `release` does not ask whether the caller holds the connection, and a connection released once too often is handed out
  twice (`Pool.ReleaseIsSafeIff`, `ConnectionPools.ReleaseTwice`).

## Model

| member | source | states |
|---|---|---|
| `Transports.Transport.TransportSend` | media/js/cometd.js:1893-1917 | on the wire, timeout set |
| `Transports.Transport.LongpollSend` | media/js/cometd.js:1919-1933 | throws exactly when the reserved slot is taken, and then changes nothing; otherwise the slot holds the new request |
| `Transports.Transport.QueueSend` | media/js/cometd.js:1935-1952 | the envelope leaves at once if one of the `maxConnections - 1` ordinary slots is free, else it waits at the back |
| `Transports.Transport.LongpollComplete` | media/js/cometd.js:1954-1964 | throws exactly on a mismatch, and then keeps the slot; otherwise frees it |
| `Transports.Transport.InArray` | media/js/cometd.js:232-242 | the first index of the request, or -1 exactly when it is not tracked |
| `Transports.Transport.Complete` | media/js/cometd.js:1966-1988 | frees the slot if it was tracked, and takes one waiting envelope: resubmitted after a success, planted as a failure task after a failure |
| `Transports.Transport.Send` | media/js/cometd.js:1999-2009 | by kind of request |
| `Transports.Transport.CompleteAny` | media/js/cometd.js:2011-2021 | completion by kind of request |
| `Transports.Transport.Reset` | media/js/cometd.js:2045-2050 | slots and queue emptied, what waited is dropped |
| `Transports.Transport.Report` | media/js/cometd.js:1875-1891 | a network report calls back exactly if the timeout has not fired, and then cancels it |
| `Transports.Transport.Expire` | media/js/cometd.js:1906-1916 | a timeout that is still set calls back once and marks the request expired |
| `Transports.Transport.Doom` | media/js/cometd.js:1983-1986 | a planted failure task calls back for its envelope and is gone |
| `Scheduler.SpliceIsWithout` | media/js/cometd.js:1968-1973 | splicing at the index that `_inArray` finds removes exactly the first occurrence of the request |
| `SchedulerRuns.Conservation` | media/js/cometd.js:1919-2050 | in every run, whatever is counted, submissions equal what is in flight, waiting, scheduled to fail, finished or dropped |
| `SchedulerRuns.SchedulerTheorem` | media/js/cometd.js:1875-2050 | an envelope gets at most one callback and is then nowhere else; tracked requests and the long poll never exceed `maxConnections`; a waiting envelope means full slots or a pending failure task |
| `SchedulerRuns.RunKeeps` | media/js/cometd.js:1875-2050 | in every run a timeout is set exactly while neither side of its race has reported, and the slot bound holds |
| `SchedulerRuns.StepPlaces` | media/js/cometd.js:1875-2050 | each event moves envelopes between places and neither creates nor loses one |
| `SchedulerOrder.FifoTheorem` | media/js/cometd.js:1935-1988 | if every completion of an ordinary request is a success of a request tracked at that moment, ordinary envelopes leave in submission order, whatever happens to long polls and whenever the transport is reset |
| `SchedulerOrder.NothingMissing` | media/js/cometd.js:1935-1988 | without a reset, what has left followed by what waits is then exactly what was submitted |
| `SchedulerOrder.LineTheorem` | media/js/cometd.js:1919-2050 | for every event and every state: what has left followed by what waits comes through it unchanged if and only if a condition on the state before holds, kind of event by kind of event |
| `SchedulerOrder.SuccessKeepsLineIff` | media/js/cometd.js:1966-1988 | a successful completion keeps the order if and only if its request was tracked, or a slot was free anyway, or the waiting envelopes cannot be told apart |
| `SchedulerOrder.DistinctSame` | media/js/cometd.js:1966-1988 | different envelopes cannot be told apart only if at most one waits |
| `SchedulerOrder.FailureDoomsHead` | media/js/cometd.js:1976-1987 | a failed completion sends nothing and takes the first waiting envelope out of the queue to fail it |
| `SchedulerOrder.CascadeTheorem` | media/js/cometd.js:1966-1988 | one failed ordinary request, with nothing but failure tasks after it, fails everything that was scheduled to fail and the whole queue, in order and to the last, without sending any of it |
| `SchedulerOrder.DispatchLine` | media/js/cometd.js:1966-1988 | what a success in between does: its slot, or one that was free, is taken by the head of the queue |
| `SchedulerOrder.ResetBreaksFifo` | media/js/cometd.js:1966-1988 | a run in which one reset is enough for a later envelope to overtake an earlier one |
| `SchedulerSlots.NoStallTheorem` | media/js/cometd.js:1875-1988 | in every run without unreadable responses each request that holds a slot is still owed its callback, so a waiting envelope always has an event to come |
| `SchedulerSlots.StandstillTheorem` | media/js/cometd.js:1875-1988 | in every run no continuation without a reset ever sends another ordinary envelope if and only if every slot is held by a request that is owed no callback |
| `SchedulerSlots.NotLeakedSends` | media/js/cometd.js:1875-1988 | the way out otherwise: a submission into a free slot, or an owed success and, if need be, a submission |
| `SchedulerSlots.LeakTheorem` | media/js/cometd.js:1875-1988 | and such a state lasts whatever else happens |
| `SchedulerSlots.LeakedRun` | media/js/cometd.js:1875-1891 | a run of two events that ends in such a state, by one response that cannot be read |
| `SchedulerSlots.UndisturbedIsOnTrack` | media/js/cometd.js:1935-1988 | in every run without resets and ordinary failures each success is of a tracked request, so the order is kept |
| `SchedulerSlots.RunIds` | media/js/cometd.js:1919-1988 | in every run tracked requests are distinct, ordinary, and none of those that wait or are scheduled to fail |
| `CometdClient.Cometd.Send` | media/js/cometd.js:550-619 | sent and logged; throws exactly on a concurrent long poll |
| `CometdClient.Cometd.QueueSend` | media/js/cometd.js:621-631 | held while a user batch or the internal batch is open, else sent by itself |
| `CometdClient.Cometd.FlushBatch` | media/js/cometd.js:664-672 | all held messages leave in one envelope, none if there are none |
| `CometdClient.Cometd.StartBatch` | media/js/cometd.js:659-662 | one more open batch |
| `CometdClient.Cometd.EndBatch` | media/js/cometd.js:680-692 | throws exactly when unpaired, with the counter already lowered; flushes only the outermost batch, outside the internal batch and while not disconnected |
| `CometdClient.Cometd.CallDisconnect` | media/js/cometd.js:1428-1440 | nothing when already disconnecting or disconnected, else a disconnect message |
| `CometdClient.Cometd.NotifyListeners` | media/js/cometd.js:483-504 | the listeners' calls, in order |
| `CometdClient.Cometd.CancelDelayedSend` | media/js/cometd.js:521-528 | the scheduled timer, and no other, is gone |
| `CometdClient.Cometd.DelayedSend` | media/js/cometd.js:530-539 | the earlier timer is replaced by one whose delay is the backoff plus any positive advised interval |
| `CometdClient.Cometd.IncreaseBackoff` | media/js/cometd.js:647-653 | the backoff grows by one increment as long as it is below the maximum |
| `CometdClient.Cometd.Connect` | media/js/cometd.js:697-707 | 'connected' if the long poll could be sent; when it throws the status stays 'connecting' |
| `CometdClient.Cometd.DelayedConnect` | media/js/cometd.js:709-716 | 'connecting', with the connect as the only scheduled send |
| `CometdClient.Cometd.StartHandshake` | media/js/cometd.js:721-773 | transport reset only when disconnected; counters reset, internal batch on, handshake sent past the batch |
| `CometdClient.Cometd.Handshake` | media/js/cometd.js:1417-1422 | from any status |
| `CometdClient.Cometd.DelayedHandshake` | media/js/cometd.js:775-788 | internal batch on at once, with the handshake as the only scheduled send |
| `CometdClient.Cometd.HandshakeFailed` | media/js/cometd.js:828-848 | retry decided before the listeners run; retried with a larger backoff, else disconnected |
| `CometdClient.Cometd.HandshakeResponse` | media/js/cometd.js:790-848 | a success connects later if advised, without looking for a disconnection; no transport in common throws |
| `CometdClient.Cometd.ConnectResponse` | media/js/cometd.js:883-944 | the action is fixed before the listeners run |
| `CometdClient.Cometd.ConnectSucceeded` | media/js/cometd.js:891-918 | the internal batch ends and the queue is flushed even inside a user batch, before the listeners run |
| `CometdClient.Cometd.ConnectRefused` | media/js/cometd.js:920-943 | retry with larger backoff, handshake with none, or disconnected, as advised before the listeners ran |
| `CometdClient.Cometd.ConnectFailure` | media/js/cometd.js:946-984 | the action is decided after the listeners ran, and taken only while not disconnected |
| `CometdClient.Cometd.Disconnect` | media/js/cometd.js:986-998 | no scheduled send, status 'disconnected', batches closed, held messages discarded, transport reset if aborting |
| `CometdClient.Cometd.Receive` | media/js/cometd.js:1139-1168 | advice first, then by channel |
| `CometdClient.Cometd.HandleResponse` | media/js/cometd.js:1177-1196 | the request is completed first; replies are processed in order up to the first that throws |
| `CometdClient.Cometd.FailMessage` | media/js/cometd.js:1207-1232 | by kind of message |
| `CometdClient.Cometd.HandleFailure` | media/js/cometd.js:1198-1233 | a mismatched completion abandons the failure; otherwise every message of the envelope fails in order |
| `CometdClient.Cometd.OnResponse` | media/js/cometd.js:1875-1882 | a response of a request that has timed out does nothing |
| `CometdClient.Cometd.OnNetFailure` | media/js/cometd.js:1884-1891 | a failure of a request that has timed out does nothing |
| `CometdClient.Cometd.OnTimeout` | media/js/cometd.js:1906-1916 | a timeout that is still set fails the request's messages |
| `CometdClient.Cometd.OnFailTask` | media/js/cometd.js:1983-1986 | a planted task fails its envelope's messages and completes its request as a failure |
| `CometdClient.Cometd.OnFire` | media/js/cometd.js:709-716 | a fired timer is no longer live and performs its connect or handshake |
| `ClientRuns.BatchingTheorem` | media/js/cometd.js:550-692 | in every run each application message has reached `_send`, is held or was discarded, once; only handshake, connect and disconnect are sent while the internal batch is on; and as long as no `endBatch` held messages back, the order of submission is the order of sending |
| `ClientRuns.RunBooks` | media/js/cometd.js:550-1233 | the bookkeeping behind it, kept by every event of every run |
| `ClientRuns.OrderTheorem` | media/js/cometd.js:621-692 | in every run messages have left the client in the order given if and only if none was given while others were held outside any batch, and reached `_send` in that order if and only if no message so overtaken has reached it |
| `ClientRuns.OvertakesIff` | media/js/cometd.js:621-631 | of all steps of all handlers, only a message given while others are held outside any batch overtakes them |
| `ClientRuns.OnlyEndBatchHoldsBack` | media/js/cometd.js:680-692 | of all steps of all handlers, only the `endBatch` that closes the last batch while disconnected leaves messages held outside a batch |
| `Overtaking.SortedIff` | media/js/cometd.js:621-631 | a sequence of departures is in order exactly when none of the recorded overtaken messages is in it |
| `Overtaking.ToldFirst` | media/js/cometd.js:621-631 | the record stays right when a message goes out ahead of those held |
| `ClientFlush.HeldTheorem` | media/js/cometd.js:621-918 | in every run and whatever the listeners do, a held message, in a batch or not, is sent by an event if and only if one of the steps that the event goes through ends the internal batch, or the outermost batch under the source's two guards, with no disconnection before it |
| `ClientFlush.FlushTheorem` | media/js/cometd.js:664-692 | for events in which no listener ends a batch: a held message is sent if and only if the event ends the outermost batch of a client that is neither disconnected nor in an internal batch, or is a response with a successful connect reply |
| `ClientFlush.EventLeavesIff` | media/js/cometd.js:664-918 | the same from every state that holds the message |
| `ClientFlush.RepliesLeaveIff` | media/js/cometd.js:891-918 | of a response, exactly a successful connect reply that comes before any disconnect reply and any exception |
| `ClientFlush.StepLeavesIff` | media/js/cometd.js:664-692 | of all small steps, the end of the internal batch whatever the user batch, and the end of the outermost user batch under the source's two guards |
| `ClientNet.ClientRefinesScheduler` | media/js/cometd.js:550-1233 | what the client does to its transport is always a run of the scheduler |
| `ClientNet.ClientNetTheorem` | media/js/cometd.js:1919-2050 | conservation, the connection limit and the absence of stalls therefore hold in every run of the client |
| `ClientNet.ConfigKept` | media/js/cometd.js:307-336 | no run changes the configuration |
| `ClientNet.RunOrdinary` | media/js/cometd.js:1935-1988 | long polls never wait in the queue and are never planted as failure tasks |
| `ClientSteps.EventPlan` | media/js/cometd.js:521-1233 | every event of the client is, once its request has been completed, exactly a sequence of small steps that handlers and listeners take in turn |
| `SingleDriver.SingleDriverTheorem` | media/js/cometd.js:521-984 | in every run whose small steps are safe, handshakes outstanding, long polls outstanding and live delayed sends never exceed one in all, and the two exceptions of the transport cannot occur; safe means that `handshake()`, by whomever, is called only with nothing but a waiting handshake under way, and that a handler schedules a send only with nothing on its way |
| `SingleDriver.AlwaysSingleIff` | media/js/cometd.js:521-984 | and this is exact: in every run there is never more than one, at no moment of any event, if and only if every small step is safe when its turn comes |
| `SingleDriver.StepSafeIff` | media/js/cometd.js:521-984 | for every small step from every state with at most one: at most one afterwards if and only if the step is safe |
| `SingleDriver.OrderlyRunIsAllowed` | media/js/cometd.js:521-984 | that is so in every run in which replies come only where they are expected, no listener calls `handshake()`, and the application calls it only with nothing but a waiting handshake under way |
| `SingleDriver.HandshakeCallIff` | media/js/cometd.js:721-773 | a call of `handshake()` keeps them at one if and only if nothing but a waiting handshake was under way |
| `SingleDriver.ListenerStartsSecond` | media/js/cometd.js:831-847 | a listener that calls `handshake()` when told of a refused handshake finds nothing under way, and the handler that notified it then starts a second driver |
| `Traces.TwoDriversRun` | media/js/cometd.js:831-847 | a run with such a listener after which firing a timer raises the concurrent long poll exception |
| `SingleDriver.StepSingle` | media/js/cometd.js:521-984 | every event whose small steps are safe keeps the single driver |
| `SingleDriver.NeverThrows` | media/js/cometd.js:1919-1964 | with a single driver neither the concurrent long poll nor the mismatch is possible |
| `Keepalive.KeepaliveTheorem` | media/js/cometd.js:521-984 | in every run whose small steps are safe exactly one of them is under way while the client is not disconnected, as long as no event halts it; and an event leaves nothing under way if and only if it is one that halts |
| `Keepalive.StepAliveIff` | media/js/cometd.js:790-984 | for every event from every state with at most one under way: the client goes on or is disconnected afterwards if and only if it did before and the event does not take what kept it going, or the event restarts or disconnects it |
| `Keepalive.RepliesAlive` | media/js/cometd.js:790-944 | of the replies of a response exactly those do that schedule a send or disconnect, or whose listeners call `handshake()` or `disconnect()`, each with the advice learnt up to then |
| `Keepalive.ConnectFailedAlive` | media/js/cometd.js:946-984 | a failed connect goes on exactly if the advice is to retry or to handshake, or a listener calls `handshake()` or `disconnect()` |
| `Keepalive.HaltedTheorem` | media/js/cometd.js:521-984 | a client that a run with at most one driver has brought to a halt has nothing under way after any continuation in which no event restarts or disconnects it |
| `Traces.HaltedRun` | media/js/cometd.js:946-984 | a run after which the client is 'connected' with no callback owed and no timer set, after advice 'none' and a failed long poll, and stays without anything under way in every continuation that does not restart or disconnect it |
| `Disconnections.DisconnectTheorem` | media/js/cometd.js:986-1032 | in every run an event that runs `_disconnect` with no handshake in flight, be it the failure of a disconnect or, if no handshake is waiting either, a disconnect reply, leaves the client disconnected with no live timer, and so does every continuation without a call of `handshake()` |
| `Disconnections.CutAbsorbs` | media/js/cometd.js:986-1032 | the first half of it: response, network failure, timeout and failure task of a disconnect |
| `Disconnections.StepAbsorbing` | media/js/cometd.js:790-1032 | the second half: every later event keeps the client disconnected with no live timer |
| `Revivals.RevivalTheorem` | media/js/cometd.js:790-1032 | in every run a client that is disconnected with no live timer stays so under every continuation without `handshake()` if and only if no handshake is in flight and none waits in a queue that can still move |
| `Revivals.UsuallyMoves` | media/js/cometd.js:1935-1988 | as long as every slot's request is owed a callback and no failure task is pending, the queue can move, so that any waiting handshake counts |
| `Traces.HandshakeRevives` | media/js/cometd.js:790-826 | a run in which a handshake success brings a client back to 'connecting' that was disconnected with no live timer |
| `Traces.WaitingForEver` | media/js/cometd.js:1875-1988 | a run after which a handshake waits and yet the client stays disconnected for ever, as an unreadable response has leaked the slot |
| `Traces.FlushedInsideBatch` | media/js/cometd.js:891-918 | a run in which a message leaves with a connect reply while its batch is still open |
| `Traces.OvertakenRun` | media/js/cometd.js:621-692 | a run in which the second message reaches `_send` before the first |
| `ClientTimers.RunTimed` | media/js/cometd.js:521-539 | in every run at most one timer is live, it is the scheduled one, and with non-negative settings the backoff stays between 0 and the maximum plus one increment |
| `Wire.WireTheorem` | media/js/cometd.js:550-692 | in every run the envelopes given to the transport, put one after the other, are exactly the messages that reached `_send`, in that order, but for long polls that the transport refused by throwing; nothing else is refused |
| `Wire.StepGives` | media/js/cometd.js:581-672 | every small step of every handler gives the transport these whole envelopes and no others: a flush one envelope equal to the queue it found, a message sent at once one of its own, a `disconnect()` or a handshake one of its own |
| `Wire.EventGives` | media/js/cometd.js:550-716 | and so does every event: those of its small steps in turn, or the handshake or long poll of its timer, if not refused |
| `Wire.AppsOnTheWire` | media/js/cometd.js:550-692 | so in every run the application's messages are submitted to the transport once each, in the order in which they reached `_send` |
| `Wire.NothingRefused` | media/js/cometd.js:550-707 | in every run whose small steps are safe no long poll is refused, so all that reached `_send` was submitted |
| `Delays.DelayTheorem` | media/js/cometd.js:530-539 | in every run the delay of the live timer is the backoff plus the positive part of the interval in the advice, both as they were at the step that set it |
| `Delays.StepWaits` | media/js/cometd.js:521-657 | of all small steps only a delayed send sets a timer, with that delay and in place of any other, only a disconnection clears one, and only a failure, a reset and a disconnection change the backoff |
| `Delays.BackoffTheorem` | media/js/cometd.js:641-657 | in every run the backoff is that of as many capped increments as there have been failures since it was last cleared |
| `Delays.CappedIs` | media/js/cometd.js:647-653 | which, for a positive increment, is one increment for each failure, up to the number of increments that first reaches the maximum |
| `Delays.ReplyWaits` | media/js/cometd.js:790-944 | the timer and the backoff that each reply leaves, by kind, success, advice and status, whatever its listeners call |
| `Delays.FailureWaits` | media/js/cometd.js:828-984 | the same for the failure of each message |
| `Delays.SuccessDelay` | media/js/cometd.js:530-912 | after a response that is a successful connect reply with advice to retry and an interval, the one timer left is a connect after that interval, or after 0 if it is negative |
| `Delays.FailuresInARow` | media/js/cometd.js:530-984 | after any number of failed connects in a row the next waits for the backoff of so many capped increments plus the advised interval |
| `Batches.HoldTheorem` | media/js/cometd.js:621-692 | after every run a message is sent at once if no user batch is left open and the internal batch is off, else held behind those held already |
| `Batches.RunBatches` | media/js/cometd.js:659-998 | where the open batches are the calls of `startBatch` less those of `endBatch` since the last handshake or disconnection, and the internal batch is on from a handshake sent or scheduled to the next successful connect reply |
| `Statuses.ReplyLeaves` | media/js/cometd.js:790-1032 | the status that each reply leaves, by kind, success, advice and the status before, whatever its listeners call |
| `Statuses.FailureLeaves` | media/js/cometd.js:850-1032 | the same for the failure of each message |
| `Statuses.HeldLeaveFirst` | media/js/cometd.js:883-918 | when a successful connect reply arrives, what is held goes out as one envelope of its own, ahead of anything its listeners send |
| `Statuses.StepDrops` | media/js/cometd.js:721-998 | of all small steps only a call of `handshake()` and an aborting disconnection give up the envelopes that wait for a slot |
| `Channels.GlobbingTheorem` | media/js/cometd.js:483-504 | every pattern is looked up once for equality and once for matching in the sense of section 2.2.1 of the Bayeux Protocol 1.0, for all channels |
| `Channels.NotifiedOnceIff` | media/js/cometd.js:483-504 | no pattern is looked up twice if and only if the channel's own last segment is not a wildcard |
| `Channels.SplitJoin` | media/js/cometd.js:489-493 | splitting undoes joining for parts without a slash |
| `Channels.JoinSplit` | media/js/cometd.js:489-493 | joining undoes splitting |
| `Listeners.Client.AddListenerEntry` | media/js/cometd.js:1284-1315 | the entry is appended and its handle is the index it got |
| `Listeners.Client.RemoveListener` | media/js/cometd.js:1317-1325 | a hole is left at that index; other slots keep their indices |
| `Listeners.Client.HasSubscriptions` | media/js/cometd.js:1235-1249 | true exactly when some slot is not a hole, be it a listener or a subscription |
| `Listeners.Client.Subscribe` | media/js/cometd.js:1539-1573 | the message is submitted exactly when the channel had no live slot before |
| `Listeners.Client.Unsubscribe` | media/js/cometd.js:1579-1596 | the message is submitted exactly when the channel has no live slot after the removal |
| `Listeners.Client.ClearSubscriptions` | media/js/cometd.js:338-353 | every subscription becomes a hole, every listener stays |
| `Listeners.Client.ClearListeners` | media/js/cometd.js:1525-1528 | the table is empty |
| `Listeners.Client.Notify` | media/js/cometd.js:459-481 | the live callbacks of one pattern, in order of registration |
| `Listeners.Client.NotifyListeners` | media/js/cometd.js:483-504 | the callbacks of all looked up patterns, in order |
| `Mirrors.FollowedTheorem` | media/js/cometd.js:1235-1596 | for every sequence of operations, with plain listeners or without: the messages submitted since the last handshake mirror the live subscriptions of a channel if and only if a condition followed from its slots alone holds |
| `Mirrors.StepMirror` | media/js/cometd.js:1235-1596 | for every operation in every state: when a right mirror stays right and when a wrong one is righted |
| `Mirrors.KeepsIff` | media/js/cometd.js:1235-1596 | a right mirror stays right if and only if the operation is not the first subscription beside a plain listener, nor the last one unsubscribed beside a plain listener or removed or cleared as a listener |
| `Mirrors.AlwaysMirroredIff` | media/js/cometd.js:1235-1596 | the mirror is right at every moment of a run if and only if every operation of it meets that condition |
| `Mirrors.MirrorTheorem` | media/js/cometd.js:1539-1596 | so for channels used only through subscribe and unsubscribe the messages yield exactly the channels with a live callback |
| `Mirrors.PlainListenerHidesSubscription` | media/js/cometd.js:1235-1249 | with a plain listener on the channel the server is never told of the subscription |
| `Listeners.HandlesNotReused` | media/js/cometd.js:1304-1314 | until the listeners are cleared a channel's slots never shrink |
| `Listeners.HandleIsOwn` | media/js/cometd.js:1304-1325 | so a later subscription has another handle and removing any other handle leaves this slot alone |
| `Listeners.NotificationTheorem` | media/js/cometd.js:459-504 | a registered callback is called exactly once if its pattern equals or matches the channel, else never |
| `Notifications.OrderTheorem` | media/js/cometd.js:459-504 | of two registered callbacks that hear of a message, one is called before the other if and only if its pattern is the channel itself, or has more segments, or as many but ends in the single-segment wildcard, or the patterns are the same and it was registered before |
| `SizzleWalk.Marks.WalkNode` | resources/js/jquery.js:4194-4220 | the answer read back from the marks is the answer of the plain search, and the marks stay right for later entries |
| `SizzleWalk.Marks.DirNodeCheck` | resources/js/jquery.js:4192-4223 | every entry becomes the nearest matching node beyond its start, for any duplicates; outside XML no element is tried twice |
| `SizzleWalk.Marks.WalkCheck` | resources/js/jquery.js:4227-4261 | the same for the walk that looks at elements only |
| `SizzleWalk.Marks.DirCheck` | resources/js/jquery.js:4225-4264 | every entry becomes the nearest match beyond its start or false; outside XML no element is tried twice |
| `SizzleWalk.NearestMeans` | resources/js/jquery.js:4229-4259 | the plain search returns a matching node strictly beyond the start with no match nearer, and false exactly when there is none |
| `SizzleMatch.Sizzle.FilterInPlace` | resources/js/jquery.js:3371-3373 | entries that do not match become false, the others stay |
| `SizzleMatch.Sizzle.FindPreviousElement` | resources/js/jquery.js:3363 | the element that the backward walk stops at |
| `SizzleMatch.Sizzle.AdjacentStep` | resources/js/jquery.js:3352-3374 | every entry becomes its previous element if that matches, else false |
| `SizzleMatch.Sizzle.ChildStep` | resources/js/jquery.js:3376-3409 | every entry becomes its parent if that matches, else false |
| `SizzleMatch.Sizzle.WalkStep` | resources/js/jquery.js:3411-3437 | each walk takes a fresh mark, so marks of earlier walks cannot be mistaken for its own |
| `SizzleMatch.Sizzle.Match` | resources/js/jquery.js:3109-3124 | the right-to-left loop computes, for every entry alone, the greedy composition of its steps |
| `SizzleMatch.PreviousIsElement` | resources/js/jquery.js:3363 | that element is the nearest earlier sibling that is an element, if there is one |
| `SizzleMeaning.RelativeMeans` | resources/js/jquery.js:3351-3438 | each step chooses a related matching node, the nearest one for descendant and sibling, and fails only when there is none |
| `SizzleMeaning.GreedySound` | resources/js/jquery.js:3093-3156 | every node that is kept has a full chain of witnesses, for every selector |
| `SizzleMeaning.GreedyExact` | resources/js/jquery.js:3093-3156 | for safe combinators a node is kept exactly when the selector holds of it |
| `SizzleMeaning.UnsafeChain` | resources/js/jquery.js:3109-3124 | for any other combinators there are a document, simple selectors and a node on which matching without backtracking fails |
| `SizzleMeaning.ExactnessTheorem` | resources/js/jquery.js:3093-3156 | so matching is exact for all documents and simple selectors if and only if the combinators are safe |
| `SizzleSort.Sorter.SiblingCheck` | resources/js/jquery.js:3942-3958 | the given answer for the same node, else the order among siblings |
| `SizzleSort.Sorter.Ancestors` | resources/js/jquery.js:3912-3924 | the chain from the root down to the parent |
| `SizzleSort.Sorter.CompareAncestors` | resources/js/jquery.js:3926-3939 | the first discrepancy of the two chains decides as document order does |
| `SizzleSort.Sorter.SortOrder` | resources/js/jquery.js:3887-3940 | answers in document order for any two nodes, and notes a duplicate exactly when it compares a node with itself |
| `SizzleSort.Sorter.UniqueSort` | resources/js/jquery.js:3170-3185 | the result is strictly increasing in document order and has the same nodes as the input |
| `SizzleSort.DocumentOrderTheorem` | resources/js/jquery.js:3887-3940 | that order is the order of the pre-order listing of the tree, hence a strict total order |
| `SizzleSort.PreorderIncreasing` | resources/js/jquery.js:3887-3940 | the pre-order listing is strictly increasing and lists exactly the nodes of the tree |
| `SizzleSort.PreorderIndex` | resources/js/jquery.js:3887-3940 | every node of the tree has exactly one place in it |
| `SizzleSort.BeforeTotal` | resources/js/jquery.js:3887-3940 | of two different nodes exactly one comes first |
| `SizzleSort.BeforeTransitive` | resources/js/jquery.js:3887-3940 | coming first is transitive |
| `OperationObjects.Operation.Execute` | src/net/vurs/entity/Operation.java:61-79 | on any object graph the method ends, and leaves states, results, values and notifications as the executor on values does |
| `OperationObjects.Operation.ProcessDependencies` | src/net/vurs/entity/Operation.java:81-95 | false exactly after the first failed dependency, and then this operation has failed and said so |
| `OperationObjects.Operation.GetState` | src/net/vurs/entity/Operation.java:98-104 | the state after executing at most once, which only a pending operation does |
| `OperationObjects.Operation.GetResult` | src/net/vurs/entity/Operation.java:106-112 | the result, present exactly if `op()` has been called |
| `OperationObjects.Operation.GetValue` | src/net/vurs/entity/Operation.java:114-120 | the value, present exactly if `op()` has been called |
| `OperationObjects.Operation.constructor` | src/net/vurs/entity/Operation.java:28-31 | a pending operation without dependencies, bound to its transaction |
| `OperationObjects.Operation.Bind` | src/net/vurs/entity/Operation.java:36-47 | any operation leaves the set of its transaction and joins that of another or the same one |
| `OperationObjects.Operation.AddPreDependency` | src/net/vurs/entity/Operation.java:49 | any operation, of whichever transaction, is appended as a dependency |
| `OperationObjects.Operation.AddPostDependency` | src/net/vurs/entity/Operation.java:50 | any operation is appended here, and this one becomes a pre-dependency of it |
| `OperationObjects.Build` | src/net/vurs/entity/Operation.java:28-59 | every graph of pre- and post-dependencies can be built out of new operations of different transactions, and satisfies what the methods above ask for |
| `OperationObjects.BuildAndAsk` | src/net/vurs/entity/Operation.java:28-120 | on every such graph, asked for in any order, the objects asked for have ended and the others have ended or are pending without result or value; the transaction has been told once of each success and of each failure, as it was; and a success has the result and value of its `op()` and only executed dependencies |
| `Operations.Execute` | src/net/vurs/entity/Operation.java:61-79 | every execution leaves strictly fewer operations pending, which is why it ends on every graph |
| `Operations.ExecuteProper` | src/net/vurs/entity/Operation.java:61-95 | other operations that were not pending keep their state, those that were started end in success or failure, and the log is nested as it was |
| `Operations.ExecutionTheorem` | src/net/vurs/entity/Operation.java:61-120 | on every graph, cyclic or not, after any calls: what was asked for has ended, nothing is in progress, each `op()` ran at most once, always for a successful operation and never for a pending one; the transaction was told of a success exactly for each successful operation and of a failure exactly for each failed one, once; a successful operation has all its pre- and post-dependencies executed and its own `op()` successful, a failed one has a failed dependency or `op()`; and notifications are properly nested |
| `Operations.SuccessTheorem` | src/net/vurs/entity/Operation.java:49-95 | on an acyclic graph without post-dependencies an operation succeeds exactly when its own `op()` and recursively all pre-dependencies do, and `op()` calls are in topological order |
| `Operations.AcyclicIsLayered` | src/net/vurs/entity/Operation.java:49-59 | an acyclic graph has the ranks that theorem asks for |
| `Services.ServiceManager.CheckAll` | src/net/vurs/service/ServiceManager.java:59-65 | passes exactly when all dependencies are found services and no two services, nor one with itself, depend on each other |
| `Services.ServiceManager.Ready` | src/net/vurs/service/ServiceManager.java:73-79 | true exactly when no dependency is still waiting |
| `Services.ServiceManager.Load` | src/net/vurs/service/ServiceManager.java:83-87 | the service is loaded last and no longer waiting, and the order so far stays good |
| `Services.ServiceManager.Sweep` | src/net/vurs/service/ServiceManager.java:69-88 | one pass loads nothing only if every waiting service waits for another one |
| `Services.ServiceManager.Initialise` | src/net/vurs/service/ServiceManager.java:67-89 | the loop ends only if the dependencies are acyclic, and then within one pass for each service |
| `Services.ServiceManager.SetupServices` | src/net/vurs/service/ServiceManager.java:54-89 | every service is loaded once, each after all its dependencies; or the check's error is reported, exactly for the graphs it rejects; or the loop is still running, which after one pass for each service means a cyclic graph |
| `Services.OrderedIsAcyclic` | src/net/vurs/service/ServiceManager.java:67-89 | an order with every service after its dependencies leaves no room for a cycle |
| `Services.LoopEndsIffAcyclic` | src/net/vurs/service/ServiceManager.java:67-89 | whatever the orders of iteration, as many passes as there are services finish the loop if the dependencies are acyclic, and no number does if they are not |
| `Services.CheckMissesRings` | src/net/vurs/service/ServiceManager.java:59-65 | a ring of three services passes the check and is never loaded |
| `Graphs.StuckHasCycle` | src/net/vurs/service/ServiceManager.java:67-89 | a set of services that all wait for each other contains a cycle |
| `Graphs.CycleIsStuck` | src/net/vurs/service/ServiceManager.java:67-89 | the members of a cycle wait for each other |
| `Geohash.Encode` | deps/lib/geohash/Geohash.java:67-76 | the hash of the interleaved bits of the two bisections |
| `Geohash.GetBits` | deps/lib/geohash/Geohash.java:78-90 | the bits of the coordinate's cell |
| `Geohash.Alternate` | deps/lib/geohash/Geohash.java:70-74 | longitude and latitude bits alternate, longitude first |
| `Geohash.Decode` | deps/lib/geohash/Geohash.java:20-53 | fails exactly if some character is not a decimal digit or a small letter other than a, i, l and o; otherwise the point of the expanded bits |
| `Geohash.DecodeBits` | deps/lib/geohash/Geohash.java:55-65 | the lower corner of the cell if some bit is set, else 0 |
| `Geohash.SetOf` | deps/lib/geohash/Geohash.java:31-47 | every second character as a bit, clear beyond the end of the string |
| `Base32.ToBase32` | deps/lib/geohash/Geohash.java:92-107 | the numeral of the number for every `long`, the smallest one included |
| `Base32.FillDigits` | deps/lib/geohash/Geohash.java:93-102 | the buffer holds all but the first digit, within its bounds |
| `Base32.NumeralExpands` | deps/lib/geohash/Geohash.java:20-26 | the digits of a numeral expand to bits of the same value |
| `Base32.NumeralLength` | deps/lib/geohash/Geohash.java:98-102 | a number has at most k digits exactly when it is below 32 to the k |
| `Bisection.CellHolds` | deps/lib/geohash/Geohash.java:78-90 | a point of the range lies in the cell that its bits name, which is as wide as the range halved once for each bit |
| `Bisection.BisectCorner` | deps/lib/geohash/Geohash.java:55-90 | bisecting the lower corner of a cell gives back the bits of the cell |
| `Bisection.NoneSet` | deps/lib/geohash/Geohash.java:78-90 | some bit is set exactly for points above the lowest cell |
| `Geohash.FullLengthIff` | deps/lib/geohash/Geohash.java:92-107 | the hash has twelve characters if and only if the longitude is at least -135 or the latitude at least -45 |
| `Geohash.RoundTripTheorem` | deps/lib/geohash/Geohash.java:20-107 | decoding a hash gives the lower corner of the cell if and only if the hash has twelve characters and each coordinate lies above the lowest cell, stated on the coordinates |
| `Geohash.DecodedHash` | deps/lib/geohash/Geohash.java:20-107 | what a hash of twelve characters decodes to: the corner, but exactly 0 for a coordinate in the lowest cell of its range |
| `Geohash.ReadableIff` | deps/lib/geohash/Geohash.java:9-18 | the characters that have a value are exactly those digits and letters |
| `Geohash.ReadableAscend` | deps/lib/geohash/Geohash.java:9-18 | values ascend with the characters |
| `Geocells.CharacterTheorem` | deps/lib/geohash/Geohash.java:67-107 | every character of every hash: with leading zeros put back, the character at k stands for the five interleaved bits from 5k on, in the order of the digits and letters above; a hash begins with a zero only when it is "0" |
| `Geocells.FirstCharacter` | deps/lib/geohash/Geohash.java:67-107 | the first character of a hash of twelve, from the eighth of the longitudes and the quarter of the latitudes that the point is in |
| `Geocells.OccursIff` | deps/lib/geohash/Geohash.java:9-107 | a character occurs in some hash if and only if `decode` accepts it |
| `Geocells.PrefixTheorem` | deps/lib/geohash/Geohash.java:67-107 | the hashes of two points share their first k characters, leading zeros put back, if and only if the points share the cell that k characters name, for all points and k |
| `Geocells.NearTheorem` | deps/lib/geohash/Geohash.java:67-107 | so points on the map whose hashes share k characters are no further apart than the sides of such a cell |
| `Geohash.CornerTheorem` | deps/lib/geohash/Geohash.java:20-107 | the corner is at most 180/2^30 and 360/2^30 below the point and has the same hash |
| `ConnectionPools.ConnectionPool.Advance` | src/net/vurs/conn/ConnectionPool.java:39-68 | one atomic step of a thread on the shared maps and queues |
| `ConnectionPools.ConnectionPool.PutIfAbsentIn` | src/net/vurs/common/ConcurrentConstructingHashMap.java:22-25 | the queue already there wins over the one just constructed |
| `ConnectionPools.ConnectionPool.Get` | src/net/vurs/common/ConcurrentConstructingHashMap.java:18-28 | returns the queue that is in the map, creates it if it was missing and disturbs no free queue |
| `ConnectionPools.ConnectionPool.CreateOne` | src/net/vurs/conn/ConnectionPool.java:56-68 | a new connection in the registry, or none and nothing changed when the constructor throws |
| `ConnectionPools.ConnectionPool.Acquire` | src/net/vurs/conn/ConnectionPool.java:39-50 | without interference: the connection that was released longest ago, else a new one; no other thread and no other key is disturbed |
| `ConnectionPools.ConnectionPool.Release` | src/net/vurs/conn/ConnectionPool.java:52-54 | without interference: the connection is last in the free queue of its own key, whoever calls; the invariant is kept if the caller held it |
| `Pool.StepKeepsInv` | src/net/vurs/conn/ConnectionPool.java:39-68 | every atomic step of every thread keeps the invariant of the pool, in any interleaving |
| `Pool.PoolTheorem` | src/net/vurs/conn/ConnectionPool.java:39-68 | in every interleaving each connection is had by exactly one thread or sits exactly once in the free queue of its own key and in no other |
| `Pool.RegistryTheorem` | src/net/vurs/conn/ConnectionPool.java:62-75 | every connection handed out or free is in the registry that `shutDown` walks |
| `Pool.GetIsStable` | src/net/vurs/common/ConcurrentConstructingHashMap.java:18-28 | once a key has a queue it keeps it |
| `Pool.GetsAgree` | src/net/vurs/common/ConcurrentConstructingHashMap.java:18-28 | two threads use the same queue exactly when they use the same key, however they raced to put it |
| `Pool.ReleaseTheorem` | src/net/vurs/conn/ConnectionPool.java:52-54 | a connection that a thread gives up is in the free queue at once, at its end |
| `Pool.FreeQueueAfter` | src/net/vurs/conn/ConnectionPool.java:39-54 | what one step of any thread does to the free queue of any key |
| `Pool.ReleaseIsSafeIff` | src/net/vurs/conn/ConnectionPool.java:52-54 | a release keeps the invariant if and only if the caller holds the connection |
| `Pool.StepKeepsSane` | src/net/vurs/conn/ConnectionPool.java:39-68 | what every step keeps even when callers release what they do not hold: the maps and the lookups under way |
| `Pool.SharedAfterDoubleRelease` | src/net/vurs/conn/ConnectionPool.java:39-54 | a release by a thread that does not hold the connection, then two acquires: two threads hold it |
| `ConnectionPools.ReleaseTwice` | src/net/vurs/conn/ConnectionPool.java:39-54 | the same from an empty pool, on the object: both later callers get the one connection there is |
| `TimeSync.TimeSyncExtension.Incoming` | media/js/cometd/TimeSyncExtension.js:80-116 | a sample is taken exactly from a meta message that carries one; both windows slide together |
| `TimeSync.TimeSyncExtension.Unregistered` | media/js/cometd/TimeSyncExtension.js:72-78 | the windows are emptied and the last estimate stays |
| `TimeSync.WindowTheorem` | media/js/cometd/TimeSyncExtension.js:94-102 | after any run both windows hold what the last samples since it was unregistered gave, at most `maxSamples` of them and of the same samples |
| `TimeSync.ReportTheorem` | media/js/cometd/TimeSyncExtension.js:94-111 | in every run that ends with a sample the reported lag and offset are the integers nearest to the exact average over those samples, halves away from zero |
| `TimeSync.NearestUnique` | media/js/cometd/TimeSyncExtension.js:110-111 | no other integer is |
| `TimeSync.ReportKept` | media/js/cometd/TimeSyncExtension.js:72-116 | any other message, and being unregistered, leaves what is reported |
| `TimeSync.EstimateTheorem` | media/js/cometd/TimeSyncExtension.js:80-116 | in terms of the exchanges: the reported lag is half the average round trip, and the reported offset the true one plus half of what the ways to the server took longer than those back on the average, each rounded so |
| `TimeSync.ClockTheorem` | media/js/cometd/TimeSyncExtension.js:80-116 | with constant true offset and non-negative delays the reported offset is off by at most the reported lag plus 1 ms |

## Left out

Bayeux client and transport:

- Message ids, client ids, URLs, JSON, logging, the XHR and JSONP senders, and the choice among several transports: one
  registered transport is always accepted, and a failed negotiation is a flag on the handshake reply.
- Extensions: they pass every message through, and none sends or receives messages of its own.
- `xhr.abort()` does not complete its request from within the call.
- Application messages do not use the handshake, connect or disconnect channels.
- Disconnections.DisconnectTheorem: `handshake()` is called by nobody, a listener included, and a handshake reply arrives only in the response to a handshake.
- Revivals.RevivalTheorem: the same assumptions.
- ClientFlush.FlushTheorem: its condition is the simple one, for events in the middle of which no listener ends a batch; the one for all events is in `ClientFlush.HeldTheorem`.
- Delays.FailuresInARow: its failures are those of long polls of a client that waits to connect, with listeners that call nothing; any run is in `Delays.BackoffTheorem` and `Delays.DelayTheorem`.
- Notifications.OrderTheorem: for callbacks registered once each, and channels that do not themselves end in a wildcard.
- Listeners.NotificationTheorem: the same.
- Listener callbacks are represented by the list of calls they make on the client, among them `handshake()` and `disconnect()`; they do not change the listener table while it is being walked.
- `_clearSubscriptions` inside `_handshake` is part of `Listeners`, not of `Bayeux`.

Sizzle:

- The chunker, `querySelectorAll`, the browser probes, positional selectors and the final pruning against the context.
- The comparator that uses `compareDocumentPosition`, and nodes of different trees.
- Simple selectors accept elements only, and the root is a document node that is no element; a document type node whose name equals a tag name is not considered.
- Simple selectors do not write marks of their own while a walk is under way, as `:nth-child` does with the field `sizcache`.
- SizzleSort.Sorter.UniqueSort: the built-in sort is represented by an insertion sort that calls the comparator.

Dependencies:

- `op()` answers from a fixed outcome and does not re-enter, and no automatic dependencies are added when an operation begins.
- What transactions are told is one log for all of them; that a transaction drops an operation from its set when told of its end is left out, as nothing here reads the set.
- Operations.SuccessTheorem: post-dependencies are left out there, since each also makes a pre-dependency and so a cycle.
- Services.ServiceManager.Initialise: the loop is watched for a given number of passes, as it need not end.
- Class walking, reflection, the `postInit` pass and failing constructors of services.

Geohash, pool and clock:

- Rounding of doubles other than the midpoints, and coordinates that are not numbers.
- Closing connections, `shutDown` itself, and exceptions in `hookPool`: a constructor that throws is the only failure.
- ConnectionPools.ConnectionPool.Acquire: the uninterrupted call; interleavings are the subject of `Pool`.
- Rounding by `toFixed` of numbers from 1e21 on, a negative `maxSamples`, the floating-point sum, and the outgoing half of the extension.
