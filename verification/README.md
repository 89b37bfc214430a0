# RTIO device access: a verified model

RTIO connects devices to a service. A device keeps one TCP connection to an access server; users reach the device
through the server. Messages have a 5-byte header and, for the REST-like ones, a layered body. Both ends run a reader
and a writer goroutine per connection, match responses to requests with 16-bit ids, and a user can observe a resource
of a device and receive its notifications as a numbered stream.

This project models that protocol in Dafny and proves what it is meant to guarantee. Goroutines that communicate are
modelled as state machines: a state, a set of atomic actions (one channel operation, one map or counter operation, one
message), and runs that interleave them in any order. Code that works on buffers, maps and counters in place is
modelled by methods and classes that do the same and are proved against functions. Where the code does not meet a
promise, the exact condition under which it does is proved, together with a run or an input that breaks it; the window
of 65536 ids is shown sufficient and tight.

## Modules

- `ObGet`, `ObGetProofs`: the observation protocol on one connection, any number of observations, both pipes, both
  readers, the users' calls, teardown and the end of the session. `ObGetPrompt`: why a call that waits does not block
  the reader. `ObGetStreams`: runs that get everything through. `ObGetEnds`: why loops and streams end. `AppRpc`: the
  user's stream.
- `Correlation`: `Send` calls, header ids, the pending table, timeouts, sweeps and late answers. `CorrelationHistory`:
  what becomes of a call, by the history of a run. `RollingIds`: ids cut
  from a rolling counter. `TimeKV`: the timed table itself.
- `ObservaRegistry`: the observation count and store under concurrent creation and removal.
- `SessionRegistry`: the session map and the replacement of a session when a device logs in again. `ServerTcp`: the
  objects and their methods, proved to perform runs of that protocol. `ServerExit`: how `serve` ends. `StuckLogin`:
  both together.
- `SessionState`: the fields of a server session and the methods that update them.
- `Reconnect`: the device's serve loops, recover goroutine, reconnects and back-off. `ReconnectRuns`: runs
  that reconnect. `DeviceQueue`: its outgoing queue.
  `StuckDevice`: both together.
- `Heartbeat`: the device's ticker against the server's timer, in discrete time.
- `Codec`, `RestLike`: the encoders and decoders. `Capacity`: the size checks before a request is sent.
- `Framing`: writers, readers, and the byte stream between them. `Delivery`: what each side queues and what becomes of
  it, from the queue to the handlers.
- `Types`: machine integers and result types. `Counting`: sizes of finite sets.

## What the proofs say about the code

These are results about the code as it is; each is stated for all inputs or runs.

- The server can panic: `receiveObNotifyReq` looks the observation up and sends on its channel in two steps, and
  `DestroyObserva` may close the channel in between (`PanicHappens`). A run panics, or can do nothing but panic, exactly
  when that happens (`PanicIffRace`).
- An answer that arrives after its caller timed out and returned ends the whole session (`LateAnswerBreaksSession`,
  `LateAnswerHappens`).
- The map, the count and the waits of session replacement are right in exactly the runs whose every step meets a guard
  of its own (`MapRightIffGuarded`, `CountRightIffGuarded`, `WaitRightIffGuarded`); orderly use meets all three
  (`OrderlyIsGuarded`). Five uses that the code allows do not:
  - overlapping logins of one device: the exit of the first session removes the registration of the second
    (`OverlapUnregisters`);
  - two logins of one device that wait for one session, even when map and count stay right: there is one token, and the
    second login waits for ever (`TwoWaitersOneToken`, `DeadForever`);
  - a second verification on one connection: the device ends up registered with a session that is over, and the next
    login waits for that session for ever (`SecondVerificationLeavesDeadSession`, `DeadForever`). A second request on
    a verified connection has this effect also when the call of the backend fails, because `receiveVerifyReq` then
    returns the earlier verdict (`ReceiveVerifyReq`);
  - an exit of `serve` during its own `AddSession`: the map holds a finished session while `sessionNum` is 0
    (`ExitDuringAddSession`);
  - a verification that passes after `serve` has ended, for example when the backend takes longer than the 15 seconds
    of the verification timer, whose branch does not cancel: the device is registered with a finished session
    (`VerifiedTooLate`).
- The limit of 256 observations holds exactly when creation is serialised; k concurrent creators can reach 255 + k
  (`LimitIffSerialised`, `LimitExceeded`).
- The observation count agrees with the store exactly as long as no live id is taken again (`QuiescentCount`,
  `CountsDisagree`).
- `serve` on the server can block on its own error channel for ever (`WhoIsStuck`, `StuckForever`); the session then
  stays in the map and every later login of the device waits for ever (`HangingSessionStaysRegistered`,
  `LoginWaitsForever`, `LoginHangs`).
- `serve` on the device can block for ever on the outgoing queue, once its writer is gone and others have filled it
  (`HopelessIffStuck`); it holds the only token then, and the device never connects again (`NeverReconnects`,
  `DeviceHangs`).
- Neither side limits the length of what its handlers return or what a device requests. Framing works exactly for bodies
  of at most 4096 bytes (`AllArriveIffDeliverable`). The first longer one ends the session, or, when its length modulo
  65536 is small, only a part of it is handed on and the rest of its body is read as headers (`EndToEnd`,
  `BigAnswerIsReadAsHeaders`).
- Get and Post subtract the size of the response's header where the request's is larger, so at capacity 4096 a request
  with 4092 to 4095 bytes of data is sent and the device drops the connection (`AdmittedGet`).
- The device resets its ticker when a message leaves its queue, so the time a ping waits in the queue counts in full
  against the half interval that the server grants, and not only the variation of the delay (`LiveDeviceKept`).
- The version bit is masked away when a header is encoded (`HeaderRoundTrip`, `HeaderInverse`).
- The reconnect counter has 16 bits: the waits fall back to 2 seconds after 65536 failures in a row (`WaitsGrow`).

Where code and documentation differ the model follows the code: a successful verification sends no response although
docs/device_access_protocol.md describes one, and a ping without a body leaves the interval as it is rather than
setting it back to 300 seconds, and requests on the send types carry code 1 rather than 0.

## Model

| member | source | states |
|---|---|---|
| ObGetProofs.EveryStreamFaithful | internal/deviceaccess/access_server/apprpc/apprpc.go:138-227 | in every run, for every observation: the CONTINUE frames are an in-order, loss-free, duplicate-free prefix of what the device's handler emitted, numbered from 0 modulo 2^32; at most one other frame follows and is last; TERMINATE means everything was shown; sent ≤ confirmed + 1, confirmed ≤ enqueued ≤ consumed + 1, sent ≤ consumed + 2; registered, closed and tokens agree with where the call is |
| ObGetStreams.EverythingCanBeShown | internal/deviceaccess/access_server/apprpc/apprpc.go:138-227 | whatever a handler emits, in pieces of at most 4093 bytes, and whatever other observations there are: some run shows the user all of it, numbered from 0 modulo 2^32, then TERMINATE, and leaves nothing behind |
| ObGetStreams.StreamFromStart | internal/deviceaccess/access_client/devicesession/devicesession.go:364-405 | in particular from the start, for every sequence of data |
| ObGetEnds.LoopEndsBecause | internal/deviceaccess/access_client/devicesession/devicesession.go:364-405 | in every run, while its id is not taken again, a loop has ended if and only if it timed out, got a reply that was stray or not CONTINUE, or got an answer to its terminating notice; confirmed data leaves it free |
| ObGetEnds.FreeLoopTakes | internal/deviceaccess/access_client/devicesession/devicesession.go:373-396 | a free loop can take whatever its handler has put on its channel, and the terminating notice once that is closed |
| ObGetEnds.LastFrameTells | internal/deviceaccess/access_server/apprpc/apprpc.go:160-227 | in every run a call has stopped attending if and only if one of its steps ended its attention, and its stream then ends with the frame that this reason calls for: timeout, offline, refusal of the device, termination, or none for a user who left |
| ObGetStreams.CallCanEnd | internal/deviceaccess/access_server/apprpc/apprpc.go:158-227 | in any state a call can end by its own steps: an establishment times out, a user leaves, a call that was told shows that the session is over |
| ObGetStreams.GoneIsTerminated | internal/deviceaccess/access_server/devicetcp/session.go:235-247 | a notification for an observation that is gone is answered TERMINATE, and its loop can then end |
| ObGetStreams.NoHandlerIsShown | internal/deviceaccess/access_client/devicesession/devicesession.go:418-427 | a device without a handler answers so, and the user can see NOT_FOUND and nothing else |
| ObGetStreams.ReaderTakesInOrder | internal/deviceaccess/access_server/devicetcp/session.go:223-248 | whatever else is on the wire, the server takes notifications in order; it can put one of a stored observation into its empty channel and confirm it with CONTINUE, and answers one of any other TERMINATE |
| ObGetStreams.DeviceAnswersInOrder | internal/deviceaccess/access_client/devicesession/devicesession.go:407-446 | whatever else is on the wire, the device can start a loop for an establish request and then queue its answer behind everything else, or answer that it has no handler |
| ObGetStreams.RepliesArrive | internal/deviceaccess/access_server/devicetcp/session.go:462-484 | whatever else is under way, a reply can reach the call or the loop that waits for it |
| ObGetStreams.TooLongStopsReader | pkg/deviceproto/codec.go:136-150 | the server's reader ends at a notification if and only if it has more than 4093 bytes |
| ObGetStreams.ExitTells | internal/deviceaccess/access_server/devicetcp/session.go:711-720 | a session that exits tells a stored observation once |
| ObGetProofs.TeardownOnce | internal/deviceaccess/access_server/devicetcp/session.go:162-169 | in every run: a channel that is closed was open, a call's deferred removal finds its entry on every return path, the exit of `serve` finds room for its session-done token, and no serving call sees its channel closed |
| ObGetProofs.PanicIffRace | internal/deviceaccess/access_server/devicetcp/session.go:235-241 | for every run: the server has panicked, or the panic is enabled, if and only if some call closed its channel between the reader's lookup and its send; and then the panic is the only step the reader can take |
| ObGetProofs.PanicHappens | internal/deviceaccess/access_server/devicetcp/session.go:223-248 | a run that panics exists: a first notification overtakes a late establish response |
| ObGetPrompt.WaitingCallNeverBlocksReader | internal/deviceaccess/access_client/devicesession/devicesession.go:436-445 | in every run in which an establish response that its call awaits reaches that call, the reader never blocks on the NotifyChan of a call that still waits for its answer: one notification may overtake the answer, a second cannot |
| ObGetProofs.RunKeepsInv | internal/deviceaccess/access_client/devicesession/devicesession.go:364-446 | every action of either side keeps the invariant: what the user has seen and what is on its way are exactly what the device's loop took from the handler |
| ObGetProofs.LastFrame | internal/deviceaccess/access_server/apprpc/apprpc.go:190-227 | whatever ends a stream (offline, timeout, refusal, termination) adds one last frame and keeps the stream faithful |
| AppRpc.StreamNumbered | internal/deviceaccess/access_server/apprpc/apprpc.go:190-227 | frame i of a stream shows event i and is numbered i on from the first, modulo 2^32, and only the last frame can be other than CONTINUE |
| AppRpc.StatusIsShown | internal/deviceaccess/access_server/apprpc/apprpc.go:45-68 | statuses 2 to 9 are shown as their own codes, in order, and everything else as an internal error |
| AppRpc.Observa.NotifyServe | internal/deviceaccess/access_server/apprpc/apprpc.go:190-227 | the serving loop puts exactly the stream of the selected events on the wire |
| Correlation.NoCrossTalk | internal/deviceaccess/access_server/devicetcp/session.go:274-332 | in every run with fewer than 65536 ids drawn while a call or its answer is outstanding, a returned body is the one the device produced for that very request, a channel holds at most one body, and the reader never blocks on it |
| CorrelationHistory.OutcomeIsHistory | internal/deviceaccess/access_server/devicetcp/session.go:293-319 | in every run a call has a body if and only if it received one, has timed out if and only if its timer expired, has come back if and only if it returned, and the device's answer to it is the one that it gave |
| CorrelationHistory.ReturnsItsAnswer | internal/deviceaccess/access_server/devicetcp/session.go:274-332 | in every run within the window, a call that received something returns a body that the device answered to that very call |
| CorrelationHistory.InTimeSucceeds | internal/deviceaccess/access_server/devicetcp/session.go:321-332 | for every body and all delays within 120 seconds before the device answers, on the way back and before the caller looks, a run within the window returns that body |
| CorrelationHistory.AnswerCanReturn | internal/deviceaccess/access_server/devicetcp/session.go:462-484 | in any state with a free reader, an answer on its way to a call that waits can be read, delivered and returned at once, and nothing else changes |
| CorrelationHistory.CallCanBeSent | internal/deviceaccess/access_server/devicetcp/session.go:274-292 | in any state within the window a new call can be drawn, stored under its id with the present time, and sent |
| CorrelationHistory.SweepEvictsTheOld | pkg/timekv/timekv.go:52-61 | a sweep that comes to an entry evicts it, and nothing else, if and only if it is more than 120 seconds old |
| Correlation.TableIsPendingCalls | internal/deviceaccess/access_server/devicetcp/session.go:293-319 | the table holds exactly the calls between Set and the deferred Del, each under its own id, in spite of sweeps |
| Correlation.LateAnswerBreaksSession | internal/deviceaccess/access_server/devicetcp/session.go:462-484 | an arriving answer ends the session if and only if its caller has returned |
| Correlation.LateAnswerHappens | internal/deviceaccess/access_server/devicetcp/session.go:293-319 | a run within the window and with punctual calls in which a late answer ends the session |
| Correlation.OwnerIsSource | internal/deviceaccess/access_server/devicetcp/session.go:462-484 | the entry found under the id of an answer belongs to the call whose request was answered |
| Correlation.WindowNeeded | internal/deviceaccess/access_server/devicetcp/session.go:141-143 | the window is tight: a run in which the 65537th id is drawn while call 1 is outstanding returns to that call, for which the device has produced nothing, the body produced for call 1 |
| Correlation.SweepFindsNothing | internal/deviceaccess/access_server/devicetcp/session.go:758-760 | a sweep, which reads and deletes key by key while others change the table, finds no entry to delete as long as calls are punctual |
| RollingIds.SameId | internal/deviceaccess/access_server/devicetcp/session.go:141-146 | two draws get the same id exactly when their distance is a multiple of 65536, also across the wrap of the 32-bit counter |
| TimeKV.Store.DelExpireKeys | pkg/timekv/timekv.go:52-61 | the sweep deletes while it ranges and reads the clock anew per key: it keeps every entry that is young at its end, no entry that was too old at its start, and changes none; read at one instant it is the sweep of the model |
| TimeKV.StoreIsHistory | pkg/timekv/timekv.go:52-80 | after any sequence of Set, Del, sweeps and clock advances a key is found exactly when some Set of it stands: nothing has replaced or deleted it since, and it was at most `expire` old at every sweep since; what is found is the channel and time of that Set |
| TimeKV.KeptWhileYoung | pkg/timekv/timekv.go:52-80 | under any sequence of operations on other keys, sweeps and clock advances, an entry stays while its age is at most `expire` |
| TimeKV.WaiterIsNotEvicted | internal/deviceaccess/access_server/devicetcp/session.go:274-319 | a request whose queueing time plus timeout is within `expire` is in the table, with its own channel, all that time |
| ObservaRegistry.CountConserved | internal/deviceaccess/access_server/devicetcp/session.go:147-169 | in every run the count is the size of the store plus the overwriting creates minus the creates between Store and Add plus the removals between LoadAndDelete and Add(-1) |
| ObservaRegistry.QuiescentCount | internal/deviceaccess/access_server/devicetcp/session.go:147-169 | in every run, whenever no call is half way, count and store agree if and only if no live id was ever taken again |
| ObservaRegistry.CountsDisagree | internal/deviceaccess/access_server/devicetcp/session.go:144-169 | a run in which the 65537th observation takes the id of the first, which lives: with no call half way the count is 2 and the store has one entry |
| ObservaRegistry.LimitUnderConcurrency | internal/deviceaccess/access_server/devicetcp/session.go:147-161 | with at most k calls between check and increment, the count with those calls never exceeds 255 + k |
| ObservaRegistry.LimitWhenSerialised | internal/deviceaccess/access_server/devicetcp/session.go:147-161 | with one creator at a time there are at most 256 observations |
| ObservaRegistry.LimitExceeded | internal/deviceaccess/access_server/devicetcp/session.go:147-161 | the bound is met: for every positive k for which 255 + k ids are distinct, a run with never more than k creators ends with 255 + k observations |
| ObservaRegistry.LimitIffSerialised | internal/deviceaccess/access_server/devicetcp/session.go:147-161 | every run with at most k concurrent creators stays within 256 observations if and only if k is at most 1 |
| ObservaRegistry.ClosedAtMostOnce | internal/deviceaccess/access_server/devicetcp/session.go:162-169 | in every run, ids reused or not, no channel is closed twice |
| ObservaRegistry.CheckIsExact | internal/deviceaccess/access_server/devicetcp/session.go:148-151 | in any state the check lets a call through if and only if fewer than 256 observations are counted |
| ObservaRegistry.CreateWorks | internal/deviceaccess/access_server/devicetcp/session.go:152-160 | in any state a call that has passed the check can store the next observation under its id and count it, and nothing else changes |
| ObservaRegistry.DestroyWorks | internal/deviceaccess/access_server/devicetcp/session.go:162-169 | in any state a call that finds its id can remove, close and discount what is stored there, and the server panics exactly if that had been closed before |
| ObservaRegistry.RemovesItsOwn | internal/deviceaccess/access_server/apprpc/apprpc.go:158-188 | without reuse of live ids, the entry that a call removes is its own |
| SessionRegistry.MapRightIffGuarded | internal/deviceaccess/access_server/devicetcp/devicetcp.go:55-70 | for every run: the map holds exactly the registered, not yet removed sessions, each under its device, at every moment, if and only if every step meets the guard: a session verifies only while not registered, registers only while it serves and its device has no entry, and deletes only its own entry |
| SessionRegistry.CountRightIffGuarded | internal/deviceaccess/access_server/devicetcp/devicetcp.go:55-70 | for every run: the corrected `sessionNum` equals the size of the map at every moment if and only if registrations find no entry for the device and deletions find one |
| SessionRegistry.WaitRightIffGuarded | internal/deviceaccess/access_server/devicetcp/devicetcp.go:56-62 | for every run: at no moment a login waits for a session that is over and whose token is gone, if and only if no login starts to wait for such a session and none takes a token that another login waits for |
| SessionRegistry.TwoWaitersOneToken | internal/deviceaccess/access_server/devicetcp/devicetcp.go:56-62 | a run that keeps map and count right throughout in which two logins wait for one session, the first takes its only token and the second waits for ever |
| SessionRegistry.SignalFindsRoom | internal/deviceaccess/access_server/devicetcp/session.go:711-725 | in every run a session that signals finds its done channel empty |
| SessionRegistry.OrderlyIsGuarded | internal/deviceaccess/access_server/devicetcp/session.go:634-646 | one verification per connection, read while the session serves, logins of a device one after another and no exit during a registration are enough for all three guards |
| SessionRegistry.OneSessionPerDevice | internal/deviceaccess/access_server/devicetcp/devicetcp.go:55-66 | in every guarded run a device has at most one session that is registered and not yet removed, and the map holds it |
| SessionRegistry.RemovedBeforeReplaced | internal/deviceaccess/access_server/devicetcp/devicetcp.go:56-64 | in every orderly run no session is registered before the one it replaces is removed |
| SessionRegistry.DeletesOnlyItself | internal/deviceaccess/access_server/devicetcp/devicetcp.go:67-70 | the entry a departing session deletes is its own, never its successor's |
| SessionRegistry.NumIsMapSize | internal/deviceaccess/access_server/devicetcp/devicetcp.go:55-70 | in every run that meets the count's guard, `sessionNum` is the size of the map whenever no session is between the two updates |
| SessionRegistry.RunKeepsInv | internal/deviceaccess/access_server/devicetcp/session.go:711-725 | every step of an orderly run keeps the invariant and the corrected count: `sessionNum` = map size + additions counted but not set + removals deleted but not subtracted |
| SessionRegistry.DoneIsNeverLost | internal/deviceaccess/access_server/devicetcp/devicetcp.go:56-62 | in every run that meets the guard of the wait, a login that waits for a session can go on if and only if that session has finished |
| SessionRegistry.OverlapUnregisters | internal/deviceaccess/access_server/devicetcp/devicetcp.go:55-66 | with overlapping logins a serving session is reachable that is not registered |
| SessionRegistry.ConnectionLogsIn | internal/deviceaccess/access_server/devicetcp/devicetcp.go:79-124 | in any state a new connection can be accepted and verified for any device, and its login can start |
| SessionRegistry.SecondVerificationLeavesDeadSession | internal/deviceaccess/access_server/devicetcp/session.go:640-650 | with a second verification on one connection a state is reachable in which the map holds a finished session |
| SessionRegistry.DeadForever | internal/deviceaccess/access_server/devicetcp/session.go:711-725 | a finished session whose token was taken never signals again, in any run |
| SessionRegistry.ExitDuringAddSession | internal/deviceaccess/access_server/devicetcp/session.go:634-646 | an exit of `serve` during its own `AddSession` can end with the map holding a finished session and `sessionNum` 0 |
| SessionRegistry.VerifiedTooLate | internal/deviceaccess/access_server/devicetcp/session.go:736-743 | a verification that passes after `serve` has ended registers and counts a finished session that nobody cancelled |
| ServerTcp.ServerTCP.AddSession | internal/deviceaccess/access_server/devicetcp/devicetcp.go:55-66 | unless the registered session of the device is dead, it performs in place exactly the run of atomic steps: lookup, cancel, what is left of the exit of the old session, wait, count, entry |
| ServerTcp.AddSessionReplaces | internal/deviceaccess/access_server/devicetcp/devicetcp.go:55-66 | that run is always enabled; a replaced session was cancelled, has finished, and has removed its entry and discounted itself unless it had done so before; then exactly the entry of the device is added and counted |
| ServerTcp.AddSessionKeepsCount | internal/deviceaccess/access_server/devicetcp/devicetcp.go:55-66 | while the map is right the map changes at the device only and `sessionNum` stays as far from its size as it was |
| ServerTcp.CanGoUnlessDead | internal/deviceaccess/access_server/devicetcp/devicetcp.go:55-66 | in every run `AddSession` can go on if and only if the session it finds, if any, is not dead |
| ServerTcp.ServerTCP.DelSession | internal/deviceaccess/access_server/devicetcp/devicetcp.go:67-70 | performs in place exactly the two atomic steps of a departing session, delete and decrement |
| ServerTcp.ServerTCP.ServeExit | internal/deviceaccess/access_server/devicetcp/session.go:711-725 | from wherever it is, the exit of a verified session performs in place exactly what is left of exit, delete, decrement, signal |
| ServerExit.WhoIsStuck | internal/deviceaccess/access_server/devicetcp/session.go:731-752 | in every run: `serve` is stuck on its own error exactly when a timer fired, both workers reported and no report was taken; a worker is stuck exactly when the other one reported and `serve` left its own report |
| ServerExit.StuckForever | internal/deviceaccess/access_server/devicetcp/session.go:731-752 | no later action of any goroutine frees a stuck `serve` |
| ServerExit.StuckHappens | internal/deviceaccess/access_server/devicetcp/session.go:740-743 | a run to a stuck `serve` |
| ServerExit.EndsUnlessStuck | internal/deviceaccess/access_server/devicetcp/session.go:734-763 | in every reachable state a `serve` that has not ended can end if and only if it is not stuck |
| ServerExit.TimerEnds | internal/deviceaccess/access_server/devicetcp/session.go:736-743 | in any state a timer ends `serve` with a report of its own, if there is room, and cancels nothing |
| ServerExit.ReportEnds | internal/deviceaccess/access_server/devicetcp/session.go:748-751 | in any state a report that is taken ends `serve` and cancels the context |
| ServerExit.WorkerEnds | internal/deviceaccess/access_server/devicetcp/session.go:613-698 | in any state a worker can fail and report while there is room, and can stop at a cancellation |
| StuckLogin.LoginWaitsForever | internal/deviceaccess/access_server/devicetcp/devicetcp.go:56-62 | a login that waits for a session whose `serve` is stuck waits for ever, whatever any goroutine does, cancellation included |
| StuckLogin.HangingSessionStaysRegistered | internal/deviceaccess/access_server/devicetcp/session.go:711-725 | in every guarded run a registered session whose `serve` is stuck stays in the map, so every later login of its device finds it |
| StuckLogin.LoginHangs | internal/deviceaccess/access_server/devicetcp/session.go:731-743 | a run that keeps the map right and leads to a registered session whose `serve` is stuck and a login that waits for it |
| StuckLogin.CancelIsSeen | internal/deviceaccess/access_server/devicetcp/session.go:334-339 | a login that cancels a connection is what its `serve` sees, and no other step on the map touches it |
| SessionState.Session.CreateObserva | internal/deviceaccess/access_server/devicetcp/session.go:147-161 | refused exactly from 256 counted observations on, changing nothing; otherwise a fresh open observation under the next id, stored and counted |
| SessionState.Session.DestroyObserva | internal/deviceaccess/access_server/devicetcp/session.go:162-169 | a stored observation is open, and is removed, closed and discounted; for an id that is not stored nothing changes |
| SessionState.Session.GenHeaderID | internal/deviceaccess/access_server/devicetcp/session.go:141-143 | the n-th call gives the n-th rolling id |
| SessionState.Session.ReceiveVerifyReq | internal/deviceaccess/access_server/devicetcp/session.go:343-396 | ends the session exactly on a body that does not decode; registers the session exactly when the backend passes or is disabled, or when its call fails on a session that was verified before; answers exactly when it was not passed, with the code for the reason and the session unchanged; a pass sets the device and a capacity of 512 times 2^level |
| SessionState.Session.DevicePingProcess | internal/deviceaccess/access_server/devicetcp/session.go:417-461 | 0 keeps the interval, 30 to 43200 seconds set it, other values are refused, and a body of another length dereferences nil; the check time never wraps |
| Reconnect.OneToken | internal/deviceaccess/access_client/devicesession/devicesession.go:670-740 | in every run, serve loops not handed off + errors in `errChan` + pending and running reconnects are at most 1, and exactly 1 until cancellation or a verification that cannot be encoded; no send on either error channel blocks, and one goroutine at most writes `reconnectTimes` |
| DeviceQueue.HopelessIffStuck | internal/deviceaccess/access_client/devicesession/devicesession.go:649-668 | the device's `serve`, about to send a verification or a ping, can never go on if and only if the outgoing queue is full and its writer is gone |
| DeviceQueue.Writes | internal/deviceaccess/access_client/devicesession/devicesession.go:649-668 | in any state the writer takes one message at a time, and after a write that fails it is gone |
| DeviceQueue.GoneBecause | internal/deviceaccess/access_client/devicesession/devicesession.go:649-668 | in every run the writer is gone only after a write that failed or a cancellation |
| StuckDevice.NeverReconnects | internal/deviceaccess/access_client/devicesession/devicesession.go:670-740 | from such a state of the first connection no goroutine ever starts a serve loop or a reconnect again: the stuck `serve` holds the token |
| StuckDevice.DeviceHangs | internal/deviceaccess/access_client/devicesession/devicesession.go:649-725 | a run from the start to such a state: the writer fails, other goroutines fill the queue, and the select picks the ticker |
| StuckDevice.AgreeThroughout | internal/deviceaccess/access_client/devicesession/devicesession.go:670-725 | in every run life cycle and queue agree on where the first connection's `serve` is |
| Reconnect.BackOff | internal/deviceaccess/access_client/devicesession/devicesession.go:206-226 | in every run the waits since the last success, the next one included, are those of the back-off law, and add up to its total |
| ReconnectRuns.LostIsReplaced | internal/deviceaccess/access_client/devicesession/devicesession.go:213-226 | in any state in which a loop serves after a success: its connection can be lost, any number of attempts can fail, the waits are then those of the law, and one more attempt can start a new serve loop with everything reset |
| ReconnectRuns.ConnectionLost | internal/deviceaccess/access_client/devicesession/devicesession.go:697-703 | in any state an error of the reader or of the writer can end a serve loop and reach `recover` |
| ReconnectRuns.CancellationEnds | internal/deviceaccess/access_client/devicesession/devicesession.go:704-740 | in any state a cancellation lets the serve loop and `recover` end without a report, and a verification that cannot be encoded ends its serve loop |
| Reconnect.TotalWait | internal/deviceaccess/access_client/devicesession/devicesession.go:203-212 | the first k waits add up to 2^(k+1) - 2 seconds for k up to 7, and to 254 + 128 (k - 7) beyond |
| Reconnect.WaitsGrow | internal/deviceaccess/access_client/devicesession/devicesession.go:203-214 | the next wait is no shorter if and only if the 16-bit counter does not wrap |
| Reconnect.DeviceSession.GetReconnectInterval | internal/deviceaccess/access_client/devicesession/devicesession.go:206-212 | the wait is 2 to the power of one more than the counter, up to the level and not beyond; at level 6 it is the wait of the law |
| Reconnect.DeviceSession.Reconnect | internal/deviceaccess/access_client/devicesession/devicesession.go:213-226 | performs in place the steps of the life cycle: a success resets the counter and starts one serve loop, a failure leaves the counter one higher and one error in `errChan`, for which there is room |
| Heartbeat.LiveDeviceKept | internal/deviceaccess/access_client/devicesession/devicesession.go:649-725 | for every interval of 30 to 43200 seconds, the server's timer fires in no timed run of a live device if and only if the longest queue wait and the delay variation together are below half the interval |
| Heartbeat.MessageResets | internal/deviceaccess/access_client/devicesession/devicesession.go:658-666 | in any state with nothing under way a message can go through at once, puts the next ping off by an interval and the server's timer by one and a half |
| Heartbeat.PingResets | internal/deviceaccess/access_client/devicesession/devicesession.go:712-714 | and so does a ping when it is due |
| Heartbeat.PingIsDue | internal/deviceaccess/access_client/devicesession/devicesession.go:649-668 | in every run of a device that is kept, the next ping is due exactly one interval after the last message unless something waits in the queue |
| Heartbeat.CheckSecondsExact | internal/deviceaccess/access_server/devicetcp/session.go:136-139 | one and a half intervals fit 16 bits exactly up to 43690, so for all intervals a device may set |
| Codec.HeaderRoundTrip | pkg/deviceproto/codec.go:136-161 | decoding an encoded header gives it back if and only if its version is 0, its type and code fit and its length is at most 4096 |
| Codec.HeaderInverse | pkg/deviceproto/codec.go:136-161 | an accepted header re-encodes to its bytes if and only if the version bit is clear |
| Codec.HeaderAccepted | pkg/deviceproto/codec.go:136-150 | the decoder refuses an encoded header for its length only |
| Codec.GetCapSize | pkg/deviceproto/codec.go:128-134 | level n stands for 512 times 2^n bytes up to level 3, and anything above is an error |
| Codec.HeaderFields | pkg/deviceproto/codec.go:136-150 | the fields and both errors of the decoder, in plain numbers |
| Codec.VersionBit | pkg/deviceproto/codec.go:151-161 | of the version only bit 4 is ever written, into the top bit of the type |
| Codec.VerifyErrors | pkg/deviceproto/codec.go:194-242 | exactly which bodies the decoder accepts, which error the others get, and which requests the encoder refuses |
| Codec.EncodeHeader | pkg/deviceproto/codec.go:151-161 | writes the five bytes into the slice and nothing else; a short slice is an error and stays as it was |
| Codec.VerifyRoundTrip | pkg/deviceproto/codec.go:194-242 | decoding undoes encoding if and only if the id has 36 bytes and no colon, the secret 24 to 64 bytes and the level 2 bits |
| Codec.VerifyInverse | pkg/deviceproto/codec.go:194-225 | every accepted body re-encodes to itself up to the six reserved bits |
| Codec.VerifyReqIsHeaderThenBody | pkg/deviceproto/codec.go:163-225 | decoding a whole buffer is decoding its header and then its body, errors included |
| Codec.EncodeVerifyReq | pkg/deviceproto/codec.go:226-242 | a buffer with header, length, level and data, or an error exactly when the total length is out of range |
| Codec.EncodePingReq | pkg/deviceproto/codec.go:277-292 | a buffer with no body for 0 and two bytes otherwise |
| Codec.PingRoundTrip | pkg/deviceproto/codec.go:260-292 | every timeout survives the round trip, and only a two-byte zero decodes without being an encoding |
| RestLike.BodyRoundTrip | pkg/deviceproto/codec_restlike.go:128-158 | for all six messages, decoding undoes encoding if and only if method and status fit four bits, and `DecodeMethod` sees the method that was written |
| RestLike.DecodeErrors | pkg/deviceproto/codec_restlike.go:128-146 | the decoders refuse a body that is shorter than the fixed part of its kind, and nothing else |
| RestLike.LayeredRoundTrip | pkg/deviceproto/codec_restlike.go:159-196 | a layered message comes back with its type, id, length and fields if and only if they are in range and the body has at most 4096 bytes |
| RestLike.EncodeOver | pkg/deviceproto/codec_restlike.go:178-196 | fills the front of the buffer with header and body and leaves the rest; a short buffer is an error and stays as it was |
| RestLike.Encode | pkg/deviceproto/codec_restlike.go:147-158 | writes the body into the slice and nothing else; a short slice is an error and stays as it was |
| RestLike.ServerMessage | internal/deviceaccess/access_server/devicetcp/session.go:274-287 | the buffer sized in 16 bits is filled exactly when the true size fits 16 bits; otherwise nothing is sent |
| RestLike.DeviceMessage | internal/deviceaccess/access_client/devicesession/devicesession.go:228-243 | the device fills and sends a buffer for data of any length |
| Capacity.AdmittedGet | internal/deviceaccess/access_server/apprpc/apprpc.go:80-84 | a Get or Post is admitted if and only if its body is at most capacity + 4; then no length wraps, and the device accepts its header except exactly at capacity 4096 with 4092 or more bytes of data |
| Capacity.AdmittedObGet | internal/deviceaccess/access_server/apprpc/apprpc.go:151-156 | an ObGet is admitted if and only if its body fits the capacity, and then its header is accepted |
| Delivery.AllArriveIffDeliverable | internal/deviceaccess/access_client/devicesession/devicesession.go:587-647 | for every sequence of messages one side can queue, of any length: on an unbroken stream everything arrives with its own meaning if and only if every message fits (a body of at most 4096 bytes, a well-formed id and secret), none is a bad verdict, and every handler accepts |
| Delivery.EndToEnd | internal/deviceaccess/access_client/devicesession/devicesession.go:526-647 | for every such sequence and every point at which the connection breaks: before the first message that does not fit, what is handled is a prefix with its meaning; at that message the reader stops as malformed, or hands on only the announced part of its body |
| Delivery.QueueToHandler | internal/deviceaccess/access_server/devicetcp/session.go:613-698 | encoders, writer loop, connection and reader loop composed, with that outcome, for any piecemeal or failing writes; if no write fails everything arrives exactly under the condition above |
| Delivery.NextOfQueued | internal/deviceaccess/access_client/devicesession/devicesession.go:597-643 | what the reader makes of any message the peer can queue, whatever follows it: refused exactly for a bad verdict, malformed exactly for an announced length over 4096, and otherwise the announced part of the body is taken |
| Delivery.WireFormat | pkg/deviceproto/codec.go:151-161 | every message that either side queues goes onto the wire as the protocol draws it, byte by byte, in plain numbers |
| Delivery.TypesTaken | internal/deviceaccess/access_server/devicetcp/session.go:629-672 | the message types that each reader takes, and those it goes on after without a body, by number |
| Delivery.OnlyThreeMethods | internal/deviceaccess/access_server/devicetcp/session.go:597-611 | a request is dispatched if and only if its method is 1, 2 or 3 |
| Delivery.BigAnswerIsReadAsHeaders | internal/deviceaccess/access_client/devicesession/devicesession.go:470-483 | a Get handler that returns 65535 bytes makes a frame that announces no body, and the server's reader takes the first bytes of the body for the header of a verification |
| Framing.StreamRecovered | internal/deviceaccess/access_server/devicetcp/session.go:613-678 | for any frames at all: the leading readable and accepted frames are recovered; everything is, with every byte, if and only if all are; and a next frame that is whole but refused or failed ends the reading there |
| Framing.FrameRecovered | internal/deviceaccess/access_client/devicesession/devicesession.go:597-643 | whatever follows it, a frame is read back if and only if its header is sound and of a type the reader goes on with, and its body is as long as announced, or empty where the reader reads none |
| Framing.CutStream | internal/deviceaccess/access_client/devicesession/devicesession.go:597-607 | on any bytes, a reader of a cut stream handles a prefix of what it would have handled, and stops for another reason only if it would have anyway |
| Framing.ReencodesItsBytes | internal/deviceaccess/access_server/devicetcp/session.go:613-678 | on any bytes, the frames handled re-encode to the bytes they took if and only if no header carried the version bit |
| Delivery.MeaningSurvives | internal/deviceaccess/access_server/devicetcp/session.go:582-612 | the handler that gets the announced part of a message recovers what was meant, by dispatch and decoder, if and only if the message fits |
| Delivery.Encoded | internal/deviceaccess/access_client/devicesession/devicesession.go:137-201 | the encoders of either side write the bytes of the frame that is meant, for every message that is queued |
| Framing.Inbound.Incoming | internal/deviceaccess/access_server/devicetcp/session.go:613-678 | the loop over the connection computes the reading that the theorems are about |
| Framing.Outbound.WriteFull | pkg/rtioutils/rtioutils.go:37-48 | it fails exactly when a write fails, and stops there; without an error all bytes were written, with one exactly the first n |
| Framing.Outbound.Outgoing | internal/deviceaccess/access_server/devicetcp/session.go:679-698 | what reaches the connection is a prefix of the queued buffers' concatenation, all of it unless a write failed |

## Left out

- TCP, TLS, gRPC, the gateway, the HTTP page, the backends, configuration, logging, CRC-32, random ids and base64:
  library plumbing; their results are parameters or free choices of an action.
- The error and status translation for the SDK and for the backends, `String` methods and handler registration: finite
  or trivial.
- Liveness and fairness: the theorems are about safety, and about time only where stated.
- ObGet: ids of the observations in use are assumed not to be taken again while a call, loop or message still uses
  them, as `Create` demands; observe loops that survive a reconnect are therefore outside. The pipes have no capacity;
  the bounded outgoing channels only delay. Header ids are over-approximated: a reply may reach any goroutine that
  waits, for an observation or for something else, which covers every behaviour of the two id stores. Notifications
  of more than 4096 bytes end the server's reader, those whose length does not fit 16 bits are excluded.
- ObGetPrompt.WaitingCallNeverBlocksReader: for runs in which establish responses reach the calls that await them, as
  they do while header ids do not collide.
- Correlation: the two pipes may reorder messages, which covers the ordered ones. The device answers a request at most
  once. The device's own `Get` and `Post` follow the same pattern and are not modelled a second time.
- ObservaRegistry, SessionRegistry: the 32-bit atomics `observaCount` and `sessionNum` are unbounded.
- ServerTcp.ServerTCP.AddSession: called by one goroutine at a time, with the exit of the replaced session as its only
  partner; for a dead session, where the call never returns, there is no method result to state (CanGoUnlessDead,
  DeadForever). Other interleavings are in SessionRegistry.
- TimeKV.Store.DelExpireKeys: no other goroutine uses the store meanwhile; Correlation splits the sweep into reads and
  deletes between which entries may be replaced.
- SessionState.Session.CreateObserva: called by one goroutine at a time; interleavings are in ObservaRegistry.
- SessionState.Session.DestroyObserva: called by one goroutine at a time; ClosedAtMostOnce is about all interleavings.
- SessionState.Session.DevicePingProcess: a ping whose body is neither empty nor two bytes dereferences nil in the
  source; the model reports that as a fault and stops there. So do session.go:226 and devicesession.go:410 for bodies
  too short to decode, which no encoder produces; these two are not modelled.
- Reconnect.DeviceSession.GetReconnectInterval: levels above 61, for which the shift leaves 64 bits; only level 6 is used.
- Reconnect.TotalWait: up to 65536 failures in a row, after which the counter wraps.
- Heartbeat: the server's clock is read relative to the fastest transit, so a constant delay does not appear; time is
  in whole units.
- Codec.EncodeHeader: headers are values here, so the length that an encoder stores in the caller's header is a second
  result.
- RestLike.EncodeOver: six message types and eight layered encoders differ in their fields and constants only and are
  one type and one encoder with the kind as a parameter.
- StuckDevice.NeverReconnects: for the first connection; a later one differs in the messages that its queue starts with.
- Framing.Inbound.Incoming: what handlers do with a frame is their verdict only, given in advance for every position;
  a reader that looks a response's id up before it reads the body is merged with one that looks it up afterwards.
- Framing.Outbound.WriteFull: a write that neither fails nor writes anything is excluded, as by the contract of
  `io.Writer`.
