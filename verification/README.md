# The fetchpp session engine, in Dafny

This project models the asynchronous core of fetchpp and proves what it guarantees in every run.

A **session** serves a queue of requests over one connection, with re-entrant operations that
run as handlers on a strand. The connection underneath (plain TCP, TLS, or TLS through a proxy
tunnel) can fail, time out, be retried or be closed at any point. A **client** spreads requests
over a pool of sessions. Two text formats the engine relies on, the content-type header and the
printed host of an endpoint, are modelled beside it.

How the model is built:

- Every handler that runs to its end is one atomic step (`Protocol.Step`). A run
  (`Runs.IsRun`) is any sequence of steps: the environment picks which pending handler runs
  next, every error code, how many bytes arrive, when timers expire, when requests are pushed
  and when the session is stopped.
- A transport operation is cut at the points where it waits (`Transports.Wait`); resuming it is
  a function of the transport's state and of what the network answered. The three transports
  share one state (`Transports.Link`): the running flag, the socket, the generation of the
  stream object, the read buffer, the stream's timer, the response objects, and a history of
  everything that went over the wire.
- `Engine` holds the transports and the session as classes that update their fields in place,
  method by method as the library does. Each method is proved to leave behind exactly the
  value that its function computes (`AsyncConnect` that of `ConnectBegin`, `OnClosed` that of
  `OpClosed`, and so on), a handler run on the object is a step of the state machine, and
  `Engine.SessionLaws` states the main results over whole runs on the objects themselves.
- `Invariants.Inv` is the inductive invariant of the protocol. `Moves` reduces a step to a
  few moves of the transport seen through a `View`, and proves the rule that what every move
  keeps, every step keeps; the properties of the wire, the streams, the buffer, the timer and
  the outcomes are each proved with it.

| file | content |
|---|---|
| `Transport.dfy` | error codes; connect, exchange and close of the three transports |
| `Protocol.dfy` | the session state machine |
| `Invariants.dfy`, `Moves.dfy`, `Runs.dfy` | the invariant, the rule for moves, runs |
| `Ordering.dfy`, `Streams.dfy`, `Buffers.dfy`, `Timers.dfy`, `Outcomes.dfy` | one invariant of the transport each, kept by every move |
| `Theorems.dfy`, `Retry.dfy`, `Proxy.dfy`, `Leftover.dfy`, `Laws.dfy`, `Shutdown.dfy`, `Stops.dfy`, `Drain.dfy`, `Fifo.dfy` | the results, over whole runs |
| `Witnesses.dfy` | runs in which the code falls short of a plausible promise |
| `Pool.dfy`, `PoolLaws.dfy`, `ClientStop.dfy` | the client: its pool, and the loop that stops it |
| `ContentType.dfy`, `Endpoint.dfy` | the two text formats |

Where the code does less than one might expect, the model follows the code:

- The op retries any first failure, although the comment at
  `libs/fetchpp/include/fetchpp/core/session.hpp:109` speaks of a reused connection.
- An exchange that reports `operation_aborted` while nothing was stopped leaves the stream in
  use. A stream whose exchange failed is written again exactly when that failure was such an
  abort (`Retries.ReusedOnlyAfterAbort`, `Retries.ReusedAfterAbort`; a run in
  `Witnesses.AbortedExchangeIsWrittenOn`).
- A connect that reports `operation_aborted` while nothing was stopped is followed by a write on
  its stream exactly when it left the socket open, that is, when the socket was open before and,
  for a dial, was not closed by it; otherwise the next attempt is made
  (`Retries.AfterAbortedConnect`, `Retries.WrittenOnlyIfLeftOpen`; a run in
  `Witnesses.AbortedConnectIsWrittenOn`).
- A tunnel that is refused its server name leaves the timer armed
  (`Witnesses.TunnelLeavesTimerArmed`); `Theorems.TimerMeansBusy` gives the exact condition.
- What a proxy sends beyond its answer, or before the read of its answer is aborted, stays in
  the buffer and goes into the responses read through that connection
  (`Witnesses.ProxyBytesReachResponse`, `Witnesses.UnacceptedBytesReachResponse`).
  `ProxyBytes.ClearResponseIff` says exactly which responses contain such bytes: those that
  contain anything while not everything left over has been taken. A read that fails also takes
  what it has parsed, so it is the first read, not the first response, that is sure to start
  with one (`Witnesses.AbortedReadTakesLeftover`).
- The read buffer outlives a response, so what comes in with one response and is not part of it
  becomes part of the next one (`Witnesses.LeftoverReachesNextResponse`; section 6.3 of RFC 9112
  says that such data must not be used so). `Leftovers.EarlyBytesExactly` gives the exact number
  of bytes of a response that came in before its request was written.
- A client selects sessions without asking whether they run. A request is turned away exactly when
  the first session with room is down (`Pools.TurnedAwayIff`); and once no session that could be
  selected runs, every later request for the endpoint is turned away (`Pools.LostForEver`; runs
  that get there in `Pools.DestinationIsLost`).
- A media type with a dot or a plus in a name, as in `image/svg+xml`, is refused, although
  section 4.2 of RFC 6838 allows it (`ContentTypes.TypeIsAcceptedIff`).
- `to_string` of a content type computes its parameters and drops them
  (`ContentTypes.ToStringRoundTripsIff`).

## Model

| member | source | states |
|---|---|---|
| `Invariants.StepKeeps` | libs/fetchpp/include/fetchpp/core/session.hpp:82-133 | every step, whatever handler runs and whatever the network answers, keeps the invariant: single driver, consistent stop, flags of session and transport coherent, FIFO bookkeeping |
| `Invariants.ContinueShape` | libs/fetchpp/include/fetchpp/core/detail/close_ssl.hpp:26-47 | a resumed transport operation gets to a later wait of the same operation or completes; it leaves the running flag alone; no close path reports `operation_aborted` (the exact codes of a close are in `Stops.PromptStopCode`) |
| `Moves.StepByMoves` | libs/fetchpp/include/fetchpp/core/session.hpp:82-133 | what each single move of the transport keeps, every step of the session keeps |
| `Runs.InvAlways` | libs/fetchpp/src/core/session_base.cpp:37-79 | the invariant holds in every state of every run |
| `Theorems.OneDriver` | libs/fetchpp/src/core/session_base.cpp:42-74 | in every state a non-empty queue has exactly one pending handler and an empty one none; the task of an op in flight is in front; a pop always finds a task |
| `Laws.StartedIsSent` | libs/fetchpp/include/fetchpp/core/session.hpp:82-107 | a request taken up by a running session, fresh or for its second round, is not completed: it is written if the socket is open, and otherwise its connect is begun and its op waits on it |
| `Laws.AdvanceLaw` | libs/fetchpp/src/core/session_base.cpp:67-74 | once its front task is completed a running session sends the next one in the same way, or rests |
| `Laws.ConnectFailureIsFinal` | libs/fetchpp/include/fetchpp/core/ssl_transport.hpp:38-63 | in every run a connect that fails, in whichever phase (resolve, server name, dial, socket option, proxy, handshake), completes its task with that very code, logs it, and takes the session down if and only if it was no abort |
| `Laws.ConnectGoesOn` | libs/fetchpp/include/fetchpp/core/tunnel_transport.hpp:59-113 | in every run a connect whose answer is fine goes on to the next wait of the script of its kind, and after the last one its request is written |
| `Laws.FineUnlessFails` | libs/fetchpp/include/fetchpp/core/tunnel_transport.hpp:82-113 | every answer to a connect either lets it go on or makes it fail, so the two laws above leave nothing out |
| `Laws.ExchangeLaw` | libs/fetchpp/include/fetchpp/core/process_one.hpp:186-214 | in every run what an exchange makes of what it hears: the read after the write, success with the response stored and the rest kept, a close after a failure, an abort, and nothing stored once the session is down |
| `Laws.CloseLaw` | libs/fetchpp/include/fetchpp/core/session.hpp:111-131 | in every run what the op makes of the end of its close, whatever that returned: a second round, or the saved code and the session down |
| `Laws.DeadLaw` | libs/fetchpp/include/fetchpp/core/session.hpp:85-89 | in every run what handlers do once the session is down: tasks complete aborted, nothing is written, and an advance cancels the whole queue |
| `Laws.CompletionIff` | libs/fetchpp/include/fetchpp/core/session.hpp:82-133 | in every run a step of a running session completes its front task with a code if and only if a connect failed with it, an answer was read, an exchange was aborted, or a close ended the second round; otherwise nothing completes |
| `Laws.AbortHasCause` | libs/fetchpp/include/fetchpp/core/session.hpp:85-89 | an accepted request completes aborted in a running session only if its own connect or exchange was reported as aborted in that step |
| `Laws.FaultlessRunsSucceed` | libs/fetchpp/include/fetchpp/core/session.hpp:82-133 | in every run without faults and stops, every request is accepted and every completion is a success |
| `Refinement.StepRefines` | libs/fetchpp/include/fetchpp/core/session.hpp:48-59 | every step is matched by deeds of a FIFO server that accepts, rejects with `operation_aborted`, or completes its oldest request |
| `Refinement.RunRefines` | libs/fetchpp/include/fetchpp/core/session.hpp:207-222 | every run of the session is a history of the FIFO server |
| `FifoServer.ServedInOrder` | libs/fetchpp/src/core/session_base.cpp:56-74 | whatever that server does, what it served followed by what waits is what it accepted, in order |
| `Refinement.ExactlyOnceInOrder` | libs/fetchpp/include/fetchpp/core/session.hpp:177-185 | completions of accepted requests are a prefix of the accepted requests, the rest is in the queue, and every pushed request is either accepted or turned away, once |
| `Theorems.FlagsAgree` | libs/fetchpp/include/fetchpp/core/process_one.hpp:195-200 | while the session runs and its driver is not closing, an open socket belongs to a running transport, and the guard has never refused an exchange |
| `Theorems.WireInOrder` | libs/fetchpp/include/fetchpp/core/tunnel_transport.hpp:48-113 | in every run each entry of the wire log stands directly after what its kind of transport demands |
| `Theorems.HandshakeScript` | libs/fetchpp/include/fetchpp/core/tunnel_transport.hpp:63-90 | in every run a handshake starts only after resolve and dial; through a tunnel, only after a CONNECT naming the target and the proxy's 200 (section 9.3.6 of RFC 9110) |
| `Theorems.EstablishedScript` | libs/fetchpp/include/fetchpp/core/ssl_transport.hpp:33-65 | in every run a connect succeeds only at the end of the whole script of its kind |
| `Theorems.ExchangesAlternate` | libs/fetchpp/include/fetchpp/core/process_one.hpp:201-213 | writes and outcomes strictly alternate, and each outcome belongs to the request written directly before it, on the same connection |
| `Theorems.WriteIsFresh` | libs/fetchpp/include/fetchpp/core/session.hpp:93-123 | a request is written only on a stream whose own connect succeeded or was aborted, and where every exchange that failed was aborted |
| `Theorems.StreamConnectsOnce` | libs/fetchpp/include/fetchpp/core/basic_transport.hpp:46-59 | a stream object is connected once, unless the attempts before on it were aborted; attempts are numbered in order |
| `Theorems.WriteFollowsItsConnect` | libs/fetchpp/include/fetchpp/core/basic_transport.hpp:152-181 | unless its very own attempt was aborted, every write follows the complete connect script of that attempt on its own stream, including after close and retry |
| `Theorems.FirstReadFindsNothing` | libs/fetchpp/include/fetchpp/core/basic_transport.hpp:213-217 | on a basic transport the read buffer is empty until the first read of each stream |
| `ProxyBytes.ProxyLeavesIff` | libs/fetchpp/include/fetchpp/core/tunnel_transport.hpp:77-90 | of all the ways the proxy's answer can come in, the buffer of a session that goes on is non-empty exactly when there was more than the parser took and the tunnel was accepted or the read aborted; what is left was all read in the clear |
| `ProxyBytes.ClearResponseIff` | libs/fetchpp/include/fetchpp/core/process_one.hpp:201-213 | in every run a response contains bytes read in the clear if and only if it contains anything and some of the bytes left over by the proxy's answer on its connection have not been taken by the reads since; they then come first |
| `ProxyBytes.FirstTakenIsClear` | libs/fetchpp/include/fetchpp/core/process_one.hpp:201-213 | if nothing was taken since such bytes were left, a non-empty response starts with one |
| `ProxyBytes.EveryAnswerIsRead` | libs/fetchpp/include/fetchpp/core/process_one.hpp:206-211 | every response on the wire was read by a step of a running session, on its connection |
| `ProxyBytes.ClearOnlyIfLeft` | libs/fetchpp/include/fetchpp/core/tunnel_transport.hpp:77-90 | every response on the wire with such a byte was read through a tunnel, after a proxy's answer on its own connection that left some |
| `Theorems.ResponseIsOwn` | libs/fetchpp/include/fetchpp/core/process_one.hpp:206-211 | a response object holds only a response that was logged directly after its own request was written, and every byte of it was received on that connection, though perhaps before the request was written |
| `Theorems.ResponseIsStored` | libs/fetchpp/include/fetchpp/core/process_one.hpp:206-213 | conversely every response on the wire is in the response object of its request, in that state and every later one |
| `Leftovers.BufferIsHeldBack` | libs/fetchpp/include/fetchpp/core/process_one.hpp:206-209 | in every run the buffer of a connection in use holds exactly as much as was received on it and not taken by a parser |
| `Leftovers.ExchangeWasSent` | libs/fetchpp/include/fetchpp/core/process_one.hpp:203-209 | the buffer is not touched between the step that writes a request and the read of its response |
| `Leftovers.EarlyBytesExactly` | libs/fetchpp/include/fetchpp/core/process_one.hpp:203-211 | in every run, the part of a response that came in before its request was written is what was held back on the connection, as far as the response reaches; the rest came in with the read |
| `Leftovers.StartsEarlyIff` | libs/fetchpp/include/fetchpp/core/process_one.hpp:203-211 | a response starts with such a byte if and only if it contains anything and anything was held back |
| `Theorems.OutcomeIsTrue` | libs/fetchpp/include/fetchpp/core/session.hpp:85-131 | success is delivered only in the step that read the answer; another code than `operation_aborted` only for the connect, or the second failed exchange, that reported it |
| `Theorems.AnswerIsDelivered` | libs/fetchpp/include/fetchpp/core/session.hpp:104-131 | conversely every answer read is delivered with success to its own request, in that step |
| `Theorems.WrittenAtMostTwice` | libs/fetchpp/include/fetchpp/core/session.hpp:111-123 | in every run each request is written at most twice |
| `Theorems.TimerMeansBusy` | libs/fetchpp/include/fetchpp/core/tunnel_transport.hpp:96-113 | before any stop, the stream's timer is armed if and only if an operation is outstanding or a tunnel was refused its server name |
| `Timers.ArmedWhileInUse` | libs/fetchpp/include/fetchpp/core/basic_transport.hpp:33-60 | in every sequential use of a basic transport, over all error branches, the timer is armed exactly while an operation is outstanding |
| `Retries.WireGrows` | libs/fetchpp/include/fetchpp/core/process_one.hpp:186-214 | what went over the wire is never rewritten, in any run |
| `Retries.FirstFailureReconnects` | libs/fetchpp/include/fetchpp/core/session.hpp:111-123 | a first exchange failure other than an abort leads the same op to the next attempt on the next stream within two more handlers of the driver, whatever the close reports, if the session is still running |
| `Retries.ReusedOnlyAfterAbort` | libs/fetchpp/include/fetchpp/core/session.hpp:85-89 | a stream whose exchange failed is written again only if the failure was `operation_aborted` |
| `Retries.ReusedAfterAbort` | libs/fetchpp/include/fetchpp/core/session.hpp:85-93 | after such an abort the next queued request is indeed written on the same stream by the driver's next handler |
| `Retries.AfterAbortedConnect` | libs/fetchpp/include/fetchpp/core/session.hpp:85-95 | after an aborted connect the driver's next handler writes the next request on the same stream if and only if the socket was left open, and otherwise begins the next attempt |
| `Retries.WrittenOnlyIfLeftOpen` | libs/fetchpp/include/fetchpp/core/session.hpp:85-95 | a connection whose aborted connect left the socket closed is never written on, in any run |
| `Shutdown.SafeAfterShutdown` | libs/fetchpp/include/fetchpp/core/session.hpp:85-101 | once `running` is false it stays false, no request is written any more, and every later completion is `operation_aborted` |
| `Shutdown.CauseOfShutdown` | libs/fetchpp/include/fetchpp/core/session.hpp:96-129 | a session goes down by a stop, which completes nothing, or by the failure of its front task, whose code is the only one delivered in that step |
| `Shutdown.EachStopReportsOnce` | libs/fetchpp/include/fetchpp/core/session.hpp:277-301 | in every state of every run, the reports and the stop under way together number the stops that were begun |
| `Shutdown.WaitSucceedsIff` | libs/fetchpp/include/fetchpp/core/session.hpp:286-299 | a stop that waits reports success if and only if its timer did not run out before it resumed, otherwise `timed_out`; with success the queue is empty |
| `Shutdown.StopReportsTruth` | libs/fetchpp/include/fetchpp/core/session.hpp:277-301 | each step adds at most one report; one with success, or without a wait, means an empty queue; none is `operation_aborted` |
| `Stops.StopLaw` | libs/fetchpp/include/fetchpp/core/basic_transport.hpp:152-181 | what a stop begins: both flags go down, a graceful one waits for the shutdown of an open socket, one without grace reports or waits for the queue at once, and a closed socket is closed later |
| `Stops.StopEndLaw` | libs/fetchpp/include/fetchpp/core/session.hpp:284-301 | what the end of its close makes of it: a report if the queue is empty, a wait otherwise, the socket closed after a shutdown |
| `Stops.PromptStopCode` | libs/fetchpp/include/fetchpp/core/detail/close_ssl.hpp:30-45 | in every run, the code of a stop that reports without a wait: success if the socket was not open, the stop not graceful, the stream plain TCP, or the shutdown ended in one of five good ways; otherwise the code the shutdown returned, a stream timeout included |
| `Shutdown.WaitingIsDriven` | libs/fetchpp/include/fetchpp/core/detail/session_base.hpp:48-54 | while a stop waits, the session is down and exactly one handler of the driver is pending |
| `Shutdown.NothingAccepted` | libs/fetchpp/include/fetchpp/core/session.hpp:207-215 | once `running` is false no request is accepted any more |
| `Shutdown.StopIsWoken` | libs/fetchpp/src/core/session_base.cpp:56-74 | no lost wake-up: a waiting stop is woken, with the queue empty, by the time the driver has run nineteen handlers per queued task |
| `Drain.FireWorks` | libs/fetchpp/include/fetchpp/core/session.hpp:82-133 | every handler of the driver that runs strictly decreases a measure on queue length, round and position |
| `Drain.WorkBound` | libs/fetchpp/src/core/session_base.cpp:67-74 | over any part of a run, handlers run plus work left is at most the work before plus nineteen per request accepted meanwhile |
| `Drain.DriverStepsAreLinear` | libs/fetchpp/include/fetchpp/core/session.hpp:82-133 | in every run the driver runs at most nineteen handlers per accepted request |
| `Drain.QueueDrains` | libs/fetchpp/src/core/session_base.cpp:42-74 | without new requests the queue is empty after a number of handlers linear in its length, whatever the network answers |
| `Drain.DriverCanRun` | libs/fetchpp/include/fetchpp/core/session.hpp:217-221 | with a non-empty queue the driver always has a handler that can run, for every answer code |
| `Witnesses.AbortedConnectIsWrittenOn` | libs/fetchpp/include/fetchpp/core/session.hpp:85-93 | a run of a live session in which a request is written on a stream whose connect was aborted |
| `Witnesses.AbortedExchangeIsWrittenOn` | libs/fetchpp/include/fetchpp/core/session.hpp:85-93 | a run of a live session in which a request is written on the stream on which an exchange was just aborted |
| `Witnesses.LeftoverReachesNextResponse` | libs/fetchpp/include/fetchpp/core/process_one.hpp:206-211 | a run in which the second request is answered with a byte that was in the buffer before it was written, and nothing is received after it |
| `Witnesses.TunnelLeavesTimerArmed` | libs/fetchpp/include/fetchpp/core/tunnel_transport.hpp:107-111 | a run after which an idle tunnel has its timer armed |
| `Witnesses.ProxyBytesReachResponse` | libs/fetchpp/include/fetchpp/core/tunnel_transport.hpp:77-90 | a run in which a byte the proxy sent in the clear is the response of an application request |
| `Witnesses.UnacceptedBytesReachResponse` | libs/fetchpp/include/fetchpp/core/tunnel_transport.hpp:53-58 | the same after an aborted read of the proxy's answer, without any tunnel having been accepted |
| `Witnesses.AbortedReadTakesLeftover` | libs/fetchpp/include/fetchpp/core/process_one.hpp:186-194 | a run in which bytes are left over and yet the first response on that connection, not empty, has none of them, because an aborted read took them |
| `Engine.AsyncTransport.Resume` | libs/fetchpp/include/fetchpp/core/process_one.hpp:186-214 | resuming any waiting operation of any transport updates the object as `Deliver` does, whose results are what `Laws` states |
| `Engine.Session.CancelAllTasks` | libs/fetchpp/src/core/session_base.cpp:56-65 | the loop completes every queued task with `operation_aborted`, in order, empties the queue and wakes a waiting stop |
| `Engine.Session.Handle` | libs/fetchpp/include/fetchpp/core/session.hpp:82-301 | any handler run on the object is the step of the state machine that `Laws` and `Stops` describe, pops no empty queue, and keeps the object in a run |
| `Engine.SessionLaws` | libs/fetchpp/include/fetchpp/core/session.hpp:33-134 | on a session object, whatever handlers have run: one driver, accepted requests completed in order and once, every completion justified by the wire, at most two writes per request, no exchange refused while running |
| `Pools.FirstFit` | libs/fetchpp/include/fetchpp/client.hpp:84-94 | the first session of the endpoint that has room, or the place after the last if there is none |
| `Pools.SessionsAreCapped` | libs/fetchpp/include/fetchpp/client.hpp:84-110 | with a fixed maximum of at least one, no session of the pool ever holds more tasks than that |
| `Pools.SessionCountIsBounded` | libs/fetchpp/include/fetchpp/client.hpp:79-110 | the sessions ever opened for an endpoint number at most the peak of its queued requests divided by the maximum, rounded up |
| `Pools.PooledSessionRuns` | libs/fetchpp/include/fetchpp/core/detail/client.hpp:75-102 | every pooled session goes through a run of its own with the transport of its endpoint, so all results on runs hold of it |
| `PoolLaws.TransportFits` | libs/fetchpp/include/fetchpp/core/detail/client.hpp:29-43 | in every run of a pool a plain endpoint is served over TCP, a secure one over TLS, and one behind a proxy through a tunnel to the target's domain and port |
| `PoolLaws.SecureRequestsAreGreeted` | libs/fetchpp/include/fetchpp/core/detail/client.hpp:85-101 | in every run of a pool a request for a secure or proxied endpoint is written only after a TLS handshake that succeeded on its own connection, unless that attempt was aborted; through a proxy, after it accepted a tunnel to that target |
| `Pools.TurnedAwayIff` | libs/fetchpp/include/fetchpp/client.hpp:84-110 | for every pool, a request is turned away if and only if a session is selected that is down; an existing session that is selected is the only one that changes |
| `Pools.TakenInIff` | libs/fetchpp/include/fetchpp/core/detail/client.hpp:75-102 | for every pool, the request is queued by the selected session, which is of its endpoint, if and only if that is new or runs; no other session changes, and a new one has the right transport |
| `Pools.LostForEver` | libs/fetchpp/include/fetchpp/client.hpp:84-94 | once neither the first session of an endpoint that has room nor any full one before it runs, every later request for it is turned away and no session is opened for it again |
| `Pools.DestinationIsLost` | libs/fetchpp/include/fetchpp/client.hpp:84-94 | for every endpoint and every maximum of at least one, a run of the pool gets there; with a maximum above one, while a request is still queued |
| `Pools.Client.GetSession` | libs/fetchpp/include/fetchpp/client.hpp:79-110 | the search returns the first session that fits, or a new one appended, which runs and has the transport the endpoint calls for; no other session is touched |
| `Pools.Client.AsyncFetch` | libs/fetchpp/include/fetchpp/core/detail/client.hpp:75-102 | the request is pushed into the selected session and nowhere else |
| `ClientStops.WhileStopping` | libs/fetchpp/include/fetchpp/core/detail/client.hpp:133-143 | after k results the stops of sessions 0 to k have been started, once each and in order, nothing is reported, and a failure is remembered if and only if there was one |
| `ClientStops.StopsEverySession` | libs/fetchpp/include/fetchpp/core/detail/client.hpp:127-149 | every session is stopped exactly once, in order; the report is success if and only if every session reported success, otherwise `operation_aborted` |
| `ClientStops.StopSessionsOp.Resumed` | libs/fetchpp/include/fetchpp/core/detail/client.hpp:127-149 | the resumable loop as an object, with both statements above as its contract |
| `PoolShutdown.StopDrainsPool` | libs/fetchpp/include/fetchpp/core/detail/client.hpp:127-149 | the loop over any pool, while its sessions go on working: when it reports, every session was stopped exactly once and is down; it reports success if and only if every session did; and then every queue is empty |
| `ContentTypes.TakesAll` | libs/fetchpp/src/http/content_type.cpp:25-36 | every string that decomposes by the grammar is taken apart that way |
| `ContentTypes.TakenIsWellFormed` | libs/fetchpp/src/http/content_type.cpp:25-36 | whatever is taken apart is a decomposition by the grammar and renders to the same string |
| `ContentTypes.ParseIsMatch` | libs/fetchpp/src/http/content_type.cpp:25-36 | `parse` returns a value if and only if the string matches the grammar with those captures |
| `ContentTypes.DecompositionIsUnique` | libs/fetchpp/src/http/content_type.cpp:28-30 | a string has at most one decomposition, so lazy quantifiers cannot change the captures |
| `ContentTypes.ParsedIsPrintable` | libs/fetchpp/src/http/content_type.cpp:25-36 | only values that can be written in a header come out of `parse` |
| `ContentTypes.FullStringRoundTrips` | libs/fetchpp/src/http/content_type.cpp:80-88 | parsing the intended printed form returns the value if and only if it can be written in a header |
| `ContentTypes.ToStringKeepsType` | libs/fetchpp/src/http/content_type.cpp:80-88 | the printer as written keeps exactly the type |
| `ContentTypes.ToStringRoundTripsIff` | libs/fetchpp/src/http/content_type.cpp:68-88 | printing and parsing return an equal value if and only if the value can be written and has neither charset nor boundary |
| `ContentTypes.SameIff` | libs/fetchpp/src/http/content_type.cpp:68-73 | two values are equal if and only if types and charsets differ at most in the case of letters, and the boundaries not at all |
| `ContentTypes.ParseIgnoresKeywordCase` | libs/fetchpp/src/http/content_type.cpp:28-30 | parsing depends neither on the case of the keywords nor on the spaces around the parameters |
| `ContentTypes.AlphabetsOfStandards` | libs/fetchpp/src/http/content_type.cpp:29 | the classes of the expression are the characters of section 4.2 of RFC 6838 without dot and plus, and of section 2.3 of RFC 2978 without apostrophe, plus and backquote |
| `ContentTypes.TypeIsAcceptedIff` | libs/fetchpp/src/http/content_type.cpp:25-36 | of the types the standard allows, exactly those without a dot or a plus are accepted |
| `ContentTypes.LengthsOfStandards` | libs/fetchpp/src/http/content_type.cpp:29 | a charset and a boundary are read back if and only if they are at most 127 and 70 characters long |
| `Endpoints.DecimalValue` | libs/fetchpp/src/core/endpoint.cpp:22-25 | a printed port consists of digits and reads back as the port |
| `Endpoints.SplitAtLastColon` | libs/fetchpp/src/core/endpoint.cpp:22-25 | the last colon of a printed host separates domain and port in one way only |
| `Endpoints.HostReads` | libs/fetchpp/src/core/endpoint.cpp:22-25 | what stands before the last colon of a printed host is the domain, and what stands after it are digits that read as the port |
| `Endpoints.HostIsInjective` | libs/fetchpp/src/core/endpoint.cpp:22-33 | two endpoints print the same host if and only if they compare equal, whatever colons the domains contain |
| `Endpoints.SameIsEqual` | libs/fetchpp/src/core/endpoint.cpp:69-72 | the comparison of destinations, tunnels included, is equality |

## Left out

- Theorems.WriteIsFresh: is stated with the exception for `operation_aborted`, because the code keeps using a stream after an abort that no stop caused; the exact conditions are in `Retries.AfterAbortedConnect` and `Retries.WrittenOnlyIfLeftOpen` for a connect, in `Retries.ReusedOnlyAfterAbort` and `Retries.ReusedAfterAbort` for an exchange.
- Theorems.TimerMeansBusy: is stated before the first stop, because a stop's close and a pending operation share one timer and the first to finish disarms it.
- Pools.SessionsAreCapped: takes a fixed maximum of at least one; with a maximum of zero every request opens a session.
- `start_op` (`libs/fetchpp/include/fetchpp/core/session.hpp:231-256`): sets the flag before connecting and can race with the driver's own connect; the client never uses it.
- Two stops of one session at a time: the second one re-arms the timer of the first.
- Adding sessions while the client stops its sessions, or stopping one of them by itself meanwhile: the loop keeps iterators into the deque, and a session has one stop at a time.
- Sockets, DNS, TLS and HTTP parsing: each is a result the environment chooses; a byte is reduced to where it came from, a response to the bytes it was made of.
- The throwing `set_option` calls (`libs/fetchpp/include/fetchpp/core/tcp_transport.hpp:41-43`, `libs/fetchpp/include/fetchpp/core/tunnel_transport.hpp:68-70`): exceptions thrown out of a handler are not modelled.
- Real time: a timer of a stream may run out whenever it is armed over an open socket on which an operation waits, the timer of a stop whenever it waits.
- Executors, strands, completion tokens and object lifetime: only pending handlers and atomic steps remain.
- Selecting a session and pushing into it is one step of the client; pooled sessions are values of the state machine there, not objects.
- Setting a new maximum while requests are queued: `set_max_pending_per_session` is in the class, the bounds are for a fixed maximum.
- The setters of a content type, URL parsing, proxy selection, authorization, options, one-shot fetches, message helpers: accessors or straight-line code that would only add easy members.
