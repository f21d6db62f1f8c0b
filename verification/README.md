# Verified model of the DoIP connection handler and the fault memory pipeline

This project models, in Dafny, the two stateful parts of the OpenBSW SOVD demo and proves what
holds over every run of them.

**One DoIP connection on the ECU.** A connection handler takes one TCP connection through
INACTIVE, ACTIVATING, ACTIVE, CLOSING and SHUTDOWN (routing activation, alive check and socket
handling of ISO 13400-2). It has a bounded pool of send jobs, one timer, one address binding and
two ways of closing: at once, or after a message was sent.

| file | contents |
|---|---|
| `DoipModel.dfy` | the state as a value, and the effect of every entry point |
| `DoipHandler.dfy` | the handler as a class with the fields of the original; each method is proved to have that effect |
| `DoipRuns.dfy` | runs (any sequence of entry points, with any answers of the environment) and the invariant |
| `DoipTheorems.dfy` | lifecycle, alive checks, send jobs, order of states, timer and dispatch over every run |
| `DoipMessages.dfy` | the table of messages and verdicts due, and the proof that every event produces exactly these |
| `DoipEvents.dfy`, `DoipTable.dfy`, `DoipPool.dfy` | every event as one update of the fields; the message due, the calls in order, state, flags, pool and offers after every event |
| `DoipBinding.dfy`, `DoipTimers.dfy`, `DoipOrder.dfy` | over every run: who a connection is bound to, which timeout is running, and the order of the calls that close it |
| `DoipReplies.dfy` | message trace, formats, who is told of success, and the end of every exchange of replies |
| `DoipCommitments.dfy` | the bound on successful close-after-send messages over every run |
| `DoipEndings.dfy` | what shuts a connection down, the verdict on an alive check, and progress of closing |

**The fault memory, from the simulator to the history.** A 10 ms tick drives a simulator (pseudo-random
sensor walks, random fault toggles, two faults linked to thresholds); the UDS services 0x19 and
0x14 (sections 11.3 and 11.2 of ISO 14229-1:2013, status bits in Annex D) read and clear its
faults; a Python adapter decodes the bytes and keeps bounded histories.

| file | contents |
|---|---|
| `Lcg.dfy` | the 32-bit generator and its full period |
| `Sensor.dfy`, `TroubleCodes.dfy`, `DtcStore.dfy`, `Simulator.dfy` | the simulated sensor, the fault code, the store and the simulator as classes |
| `SimulatorRuns.dfy` | any interleaving of steps, clears and injected values |
| `SimulatorSteps.dfy` | which fault a step draws and what becomes of it, and the sensor values, at every step of every run |
| `UdsTick.dfy` | the tick counter with its 32-bit wrap |
| `Response.dfy`, `UdsServices.dfy` | the bounded response buffer and the two services |
| `UdsWire.dfy` | the responses of both services byte for byte |
| `FaultAdapter.dfy` | the decoders and histories of the adapter |
| `FaultPipeline.dfy` | the whole chain |
| `AdapterHistories.dfy` | what the histories hold over every run of the chain |
| `Wrappers.dfy`, `Bytes.dfy`, `Arithmetic.dfy` | options, byte conversions, modular arithmetic |

**Where the code differs from what it is meant to do.** The model follows the code.

- A successful activation that finds the send-job pool empty closes the connection and then marks
  it ACTIVE again (lines 490 and 182 of `DoIpServerConnectionHandler.cpp`). `Lifecycle` shows that
  this is the only way a handler sees a disorderly life; `ReopeningRun` exhibits it.
- A close-after-send job refused by the connection is released without closing (line 536), so the
  connection can stay in CLOSING. `ClosingProgress` shows that nothing else prevents the closing,
  `StuckClosing` exhibits a run, and `StuckForever` that no expiry and no returning job ends it.
- The filter may answer Respond or Reject with the code of a successful activation; the response is
  then sent to an address that the connection is not bound to. `SuccessNamesBound` shows that this
  is the only way, `StraySuccess` exhibits it.
- A header of a wrong version is answered by a NACK whatever its type, acknowledgements included;
  `DescentFailsExactly` gives the exact condition under which a reply is not nearer to silence than
  the message. `CommitmentsBounded` shows that in every run the pool bounds how often this happens.
- A clear sets status bits 4 and 6, so it does not reduce the fault count that test TEST_RG1_008
  re-reads (`doc/sovd-demo/tests_rg1.rst`, lines 90-97), unless the mask avoids these bits.
  `CountAfterClear` gives the exact condition.
- The adapter reads the occurrence counter from the byte that echoes the record number.
  `FaultDetailRoundTrip` shows that this is so for every fault.

**Assumptions about code that is not part of this model.** `isRouting()` is taken as the state being
ACTIVE. `checkProtocolVersion`, `receivePayload`, `sendMessage`, the filter and the handlers' answers
are parameters of the entry points, arbitrary in every run; so are the pool size and the capacity of
a response. The handler's header, the connection interface, `Service::verify` (taken as accepting),
`PositiveResponse` (an append that does not fit changes nothing) and the values of the DoIP payload
types and NACK codes (those of ISO 13400-2) are not in the sources either. Nothing arrives on a
connection that was not started, close() is not called before start, in a run a resumed connection
gets no alive check before start, and only jobs in flight come back. Requests and ticks are atomic and
interleave freely, as both run in the same asynchronous context.

`dafny verify dfyconfig.toml` checks the project.

## Model

| member | source | states |
|---|---|---|
| `DoipTheorems.Lifecycle` | OpenBSW-SOVD-Demo/openbsw-overlay/libs/doip/src/doip/server/DoIpServerConnectionHandler.cpp:73-131 | in every run a message handler registered before start sees a prefix of opened, routing active, closed (or of opened, closed) if and only if no successful activation ever completed with an empty pool; otherwise it sees exactly opened, closed, routing active and, at the end, closed again |
| `DoipTheorems.LateHandler` | OpenBSW-SOVD-Demo/openbsw-overlay/libs/doip/src/doip/server/DoIpServerConnectionHandler.cpp:49-52 | in every run a handler registered at any time has seen a suffix of the one sequence of broadcasts that the state determines |
| `DoipTheorems.ClosedCallback` | OpenBSW-SOVD-Demo/openbsw-overlay/libs/doip/src/doip/server/DoIpServerConnectionHandler.cpp:104-131 | in every run the upper callback hears of the closing at least once when the connection is shut down, and more than once exactly for a re-opened connection, never three times |
| `DoipTheorems.ReopeningRun` | OpenBSW-SOVD-Demo/openbsw-overlay/libs/doip/src/doip/server/DoIpServerConnectionHandler.cpp:457-492 | a concrete run of six events (pool of one) after which the first handler has seen opened, closed, routing active, closed, and the callback two closings |
| `DoipTheorems.Drain` | OpenBSW-SOVD-Demo/openbsw-overlay/libs/doip/src/doip/server/DoIpServerConnectionHandler.cpp:574-592 | returning any set of in-flight jobs, in any order, frees exactly those slots and shuts down exactly when one of them was a close-after-send job |
| `DoipTheorems.ReopeningShape` | OpenBSW-SOVD-Demo/openbsw-overlay/libs/doip/src/doip/server/DoIpServerConnectionHandler.cpp:166-188 | a successful activation with an empty pool closes the connection, gives every handler closed and routing active, sends nothing, and leaves the connection ACTIVE with a running timer |
| `DoipTheorems.AliveCheckAccounting` | OpenBSW-SOVD-Demo/openbsw-overlay/libs/doip/src/doip/server/DoIpServerConnectionHandler.cpp:349-374 | in every run requests made after start, plus responses delivered after shutdown, equal the verdicts given plus the outstanding check |
| `DoipTheorems.SendJobConservation` | OpenBSW-SOVD-Demo/openbsw-overlay/libs/doip/src/doip/server/DoIpServerConnectionHandler.cpp:542-592 | in every run free slots and jobs in flight add up to the pool, and the jobs allocated are exactly those in flight or released, never both, and released at most once |
| `DoipTheorems.DispatchToFirst` | OpenBSW-SOVD-Demo/openbsw-overlay/libs/doip/src/doip/server/DoIpServerConnectionHandler.cpp:244-256 | in every state an unlisted type is offered in registration order up to and including the first handler that accepts; nothing is sent then; a NACK for an unknown type goes out, or the connection closes for want of a job, exactly when none accepts and the connection is not shut down |
| `DoipTheorems.ReturnsClose` | OpenBSW-SOVD-Demo/openbsw-overlay/libs/doip/src/doip/server/DoIpServerConnectionHandler.cpp:574-592 | when the in-flight jobs of a closing connection come back one after the other with nothing in between, the pool is full and the connection is SHUTDOWN if and only if one of them was close-after-send |
| `DoipEndings.ClosingProgress` | OpenBSW-SOVD-Demo/openbsw-overlay/libs/doip/src/doip/server/DoIpServerConnectionHandler.cpp:574-592 | from every CLOSING state that satisfies the invariant, every run, whatever else happens in it, in which the in-flight jobs come back at some time ends SHUTDOWN, provided one of them is close-after-send, which is certain when no such job was refused |
| `DoipEndings.ClosingStep` | OpenBSW-SOVD-Demo/openbsw-overlay/libs/doip/src/doip/server/DoIpServerConnectionHandler.cpp:524-592 | a close-after-send job of a closing connection stays in flight until it returns or the connection is shut down, and its return shuts it down |
| `DoipEndings.ShutdownExactly` | OpenBSW-SOVD-Demo/openbsw-overlay/libs/doip/src/doip/server/DoIpServerConnectionHandler.cpp:104-131 | the events that shut an open connection down are exactly: a call, a peer closing, an expiry while INACTIVE or ACTIVE, the return of a close-after-send job, an alive check response of another address, and a message due with no job left, except a re-opening |
| `DoipEndings.CheckOpens` | OpenBSW-SOVD-Demo/openbsw-overlay/libs/doip/src/doip/server/DoIpServerConnectionHandler.cpp:133-154 | a check started while ACTIVE with a job left is outstanding |
| `DoipEndings.OutstandingStep` | OpenBSW-SOVD-Demo/openbsw-overlay/libs/doip/src/doip/server/DoIpServerConnectionHandler.cpp:133-164 | an outstanding check is settled by exactly a response or a closing of the connection, and by no other event |
| `DoipEndings.VerdictOfCheck` | OpenBSW-SOVD-Demo/openbsw-overlay/libs/doip/src/doip/server/DoIpServerConnectionHandler.cpp:349-374 | whatever run follows an outstanding check: until the first response or closing only further checks are refused, and that event gives exactly one verdict on it, a success exactly for a response of the address bound all along |
| `DoipMessages.StepGrows` | OpenBSW-SOVD-Demo/openbsw-overlay/libs/doip/src/doip/server/DoIpServerConnectionHandler.cpp:202-592 | every event hands over exactly the message due in a table (NACKs with code and closing, activation responses, alive check requests), if a job is left, and gives exactly the alive check verdict due |
| `DoipReplies.MessageTrace` | OpenBSW-SOVD-Demo/openbsw-overlay/libs/doip/src/doip/server/DoIpServerConnectionHandler.cpp:457-572 | over every run the messages handed over and the verdicts given are, in order, exactly those that were due |
| `DoipReplies.MessagesWellFormed` | OpenBSW-SOVD-Demo/openbsw-overlay/libs/doip/src/doip/server/DoIpServerConnectionHandler.cpp:457-522 | over every run the k-th message handed over carries number k and is a NACK of code 0, 1 or 4 that closes unless the code is 1, a response naming this entity with zero reserved bytes, or a plain alive check request |
| `DoipReplies.SuccessNamesBound` | OpenBSW-SOVD-Demo/openbsw-overlay/libs/doip/src/doip/server/DoIpServerConnectionHandler.cpp:300-347 | over every run: every ROUTING_SUCCESS names the address bound when it was handed over if and only if the filter never answered Respond or Reject with that code to an address that is not the bound one; then all of them name the one bound address |
| `DoipReplies.StraysExactly` | OpenBSW-SOVD-Demo/openbsw-overlay/libs/doip/src/doip/server/DoIpServerConnectionHandler.cpp:322-345 | per event: a success that does not name the bound address is handed over exactly for such a verdict of the filter with a job left |
| `DoipReplies.HonestFilter` | OpenBSW-SOVD-Demo/openbsw-overlay/libs/doip/src/doip/server/DoIpServerConnectionHandler.cpp:322-345 | if the filter never responds or rejects with the success code, every ROUTING_SUCCESS of the run names the bound address, also those sent while still ACTIVATING |
| `DoipReplies.StraySuccess` | OpenBSW-SOVD-Demo/openbsw-overlay/libs/doip/src/doip/server/DoIpServerConnectionHandler.cpp:322-330 | a concrete run in which the filter responds with the success code: an address is told of success and the connection is bound to none |
| `DoipReplies.RepliesDescend` | OpenBSW-SOVD-Demo/openbsw-overlay/libs/doip/src/doip/server/DoIpServerConnectionHandler.cpp:202-374 | whatever is sent while a received message of the right version, or its payload, is processed is strictly nearer to silence than the message, in every state |
| `DoipReplies.DialoguesEnd` | OpenBSW-SOVD-Demo/openbsw-overlay/libs/doip/src/doip/server/DoIpServerConnectionHandler.cpp:236-296 | two such endpoints that accept each other's version, in arbitrary states, never answer each other for ever: a chain of replies to replies has at most two links |
| `DoipReplies.DescentFailsExactly` | OpenBSW-SOVD-Demo/openbsw-overlay/libs/doip/src/doip/server/DoIpServerConnectionHandler.cpp:258-264 | a header leads to a reply that is not nearer to silence than itself if and only if it is an acknowledgement (NACK, 0x8002 or 0x8003) of the wrong version that reaches an open connection with a job left |
| `DoipReplies.WrongVersionAnswered` | OpenBSW-SOVD-Demo/openbsw-overlay/libs/doip/src/doip/server/DoIpServerConnectionHandler.cpp:258-264 | in exactly that case, for each of the three acknowledgement types, the reply is a NACK |
| `DoipCommitments.CommitmentsBounded` | OpenBSW-SOVD-Demo/openbsw-overlay/libs/doip/src/doip/server/DoIpServerConnectionHandler.cpp:494-592 | over every run, whatever else happens in it: at most as many close-after-send messages are handed over successfully as the pool has slots, none before the connection is closing, and while it is closing all of them are still in flight; so endpoints of different versions cannot exchange NACKs for ever |
| `DoipReplies.WrongVersionsRunDry` | OpenBSW-SOVD-Demo/openbsw-overlay/libs/doip/src/doip/server/DoIpServerConnectionHandler.cpp:494-522 | only wrong versions, nothing else happening: each accepted NACK costs one slot, and the connection is shut down exactly by the first such header that finds the pool empty |
| `DoipTheorems.StuckClosing` | OpenBSW-SOVD-Demo/openbsw-overlay/libs/doip/src/doip/server/DoIpServerConnectionHandler.cpp:524-540 | a concrete run in which a refused close-after-send NACK leaves a CLOSING connection with nothing in flight and no timer |
| `DoipEndings.StuckForever` | OpenBSW-SOVD-Demo/openbsw-overlay/libs/doip/src/doip/server/DoIpServerConnectionHandler.cpp:524-540 | a closing connection with no close-after-send job in flight stays closing through any number of expiries, returning jobs and shutdown() calls |
| `DoipEndings.ClosingStays` | OpenBSW-SOVD-Demo/openbsw-overlay/libs/doip/src/doip/server/DoIpServerConnectionHandler.cpp:104-131 | a closing connection stays closing over a run if and only if no event of the run closes it, and is shut down otherwise |
| `DoipTheorems.StateOrder` | OpenBSW-SOVD-Demo/openbsw-overlay/libs/doip/src/doip/server/DoIpServerConnectionHandler.cpp:54-188 | between any two points of any run the state moves only forward, and the source address of a started connection that left INACTIVE never changes |
| `DoipTheorems.TimerGuarantee` | OpenBSW-SOVD-Demo/openbsw-overlay/libs/doip/src/doip/server/DoIpServerConnectionHandler.cpp:399-455 | in every run without shutdown() a started INACTIVE or ACTIVE connection has an armed timer whose expiry shuts it down; in the other states expiry changes only the timer; SHUTDOWN never has an armed timer |
| `DoipTheorems.AcknowledgementsAreSilent` | OpenBSW-SOVD-Demo/openbsw-overlay/libs/doip/src/doip/server/DoIpServerConnectionHandler.cpp:236-296 | any number of headers of the three acknowledgement types: no job, no state change, no answer, nothing offered, each message consumed |
| `DoipRuns.StepKeeps` | OpenBSW-SOVD-Demo/openbsw-overlay/libs/doip/src/doip/server/DoIpServerConnectionHandler.cpp:54-598 | every entry point keeps the invariant: pool balance, backing of CLOSING, handlers informed of every broadcast, alive checks answered, timer armed, closings counted |
| `DoipModel.FirstAccepting` | OpenBSW-SOVD-Demo/openbsw-overlay/libs/doip/src/doip/server/DoIpServerConnectionHandler.cpp:244-256 | the least index of a handler that accepts, or none |
| `DoipModel.JoinSplit16` | OpenBSW-SOVD-Demo/openbsw-overlay/libs/doip/src/doip/server/DoIpServerConnectionHandler.cpp:300-310 | an address survives the split into two big-endian bytes of a response and the reading of a request |
| `DoipModel.JoinedAddress` | OpenBSW-SOVD-Demo/openbsw-overlay/libs/doip/src/doip/server/DoIpServerConnectionHandler.cpp:303 | two bytes are read as 256 times the first plus the second |
| `DoipBinding.FirstRequestBinds` | OpenBSW-SOVD-Demo/openbsw-overlay/libs/doip/src/doip/server/DoIpServerConnectionHandler.cpp:331-336 | the first request that the filter lets continue leads to ACTIVATING, with the number in its first two payload bytes as source address and the filter's address as internal address |
| `DoipBinding.AddressesAfter` | OpenBSW-SOVD-Demo/openbsw-overlay/libs/doip/src/doip/server/DoIpServerConnectionHandler.cpp:54-99 | no event but that one and a resumption before start changes the source address; the internal address changes with the binding and at the start of a resumed connection |
| `DoipBinding.BoundToTheFirst` | OpenBSW-SOVD-Demo/openbsw-overlay/libs/doip/src/doip/server/DoIpServerConnectionHandler.cpp:300-347 | over every run: the connection is bound to the address in the first payload that the filter let continue while INACTIVE and to the internal address given then, or to the address it was resumed with and the internal address given at start; unbound connections are neither ACTIVATING nor ACTIVE and keep the invalid address |
| `DoipBinding.AskedOnce` | OpenBSW-SOVD-Demo/openbsw-overlay/libs/doip/src/doip/server/DoIpServerConnectionHandler.cpp:331-336 | over every run at most one request binds the connection, and whatever follows it is the origin of the binding |
| `DoipBinding.SuccessNamesAsker` | OpenBSW-SOVD-Demo/openbsw-overlay/libs/doip/src/doip/server/DoIpServerConnectionHandler.cpp:300-347 | over every run without a stray verdict of the filter: every response with code 0x10 repeats the first two payload bytes of the request that bound the connection, or names the resumed address; one sent by a connection that was never bound names the invalid address |
| `DoipTimers.HeaderRestarts` | OpenBSW-SOVD-Demo/openbsw-overlay/libs/doip/src/doip/server/DoIpServerConnectionHandler.cpp:258-269 | a header of the right version restarts the general inactivity timer of an ACTIVE connection; unless the header shuts the connection down, no other header and no other state touches the timer |
| `DoipTimers.ArmedBy` | OpenBSW-SOVD-Demo/openbsw-overlay/libs/doip/src/doip/server/DoIpServerConnectionHandler.cpp:73-188 | for every event that leaves the connection open: which timeout runs afterwards |
| `DoipTimers.RunningTimeout` | OpenBSW-SOVD-Demo/openbsw-overlay/libs/doip/src/doip/server/DoIpServerConnectionHandler.cpp:399-455 | over every run without shutdown(): a started INACTIVE connection has the initial inactivity timeout running; an ACTIVE one has the alive check timeout running if and only if the latest of becoming active, a right-version header and the start of a check was the start of a check, and the general inactivity timeout otherwise |
| `DoipOrder.CheckAnsweredLast` | OpenBSW-SOVD-Demo/openbsw-overlay/libs/doip/src/doip/server/DoIpServerConnectionHandler.cpp:104-131 | every event that shuts a connection down with a check outstanding, or that is itself a check finding no job, makes exactly these calls: close the connection, tell the callback, then answer the check negatively (between the question to the filter and the end of receiving for a request); for a response of another address the answer comes first |
| `DoipOrder.ClosingTrace` | OpenBSW-SOVD-Demo/openbsw-overlay/libs/doip/src/doip/server/DoIpServerConnectionHandler.cpp:117-130 | in the calls of every run: each closing of the connection is followed at once by the closing callback, which comes only there, and each closing with a check outstanding stands in that order |
| `DoipTable.DueOfEvent` | OpenBSW-SOVD-Demo/openbsw-overlay/libs/doip/src/doip/server/DoIpServerConnectionHandler.cpp:202-522 | the message due to every event, with its type, its bytes and whether it closes |
| `DoipTable.CallsOfEvent` | OpenBSW-SOVD-Demo/openbsw-overlay/libs/doip/src/doip/server/DoIpServerConnectionHandler.cpp:54-598 | for every event of a connection in every state: the calls made on the connection and the callback, in order and with their arguments |
| `DoipTable.ClosingOrder` | OpenBSW-SOVD-Demo/openbsw-overlay/libs/doip/src/doip/server/DoIpServerConnectionHandler.cpp:104-131 | the calls of a closing: connection, callback, and last the answer to a pending check |
| `DoipTable.StateAfter` | OpenBSW-SOVD-Demo/openbsw-overlay/libs/doip/src/doip/server/DoIpServerConnectionHandler.cpp:54-598 | the state after every event |
| `DoipTable.FlagsAfter` | OpenBSW-SOVD-Demo/openbsw-overlay/libs/doip/src/doip/server/DoIpServerConnectionHandler.cpp:54-374 | the three flags after every event: started, alive check pending, is or was routing |
| `DoipPool.PoolOfEvent` | OpenBSW-SOVD-Demo/openbsw-overlay/libs/doip/src/doip/server/DoIpServerConnectionHandler.cpp:524-592 | the pool after every event: a message due takes the next job while one is free, which is in flight with exactly that message if the connection accepted it and back in the pool if not; a returning job frees its slot; nothing else touches the pool |
| `DoipPool.OffersOfHeader` | OpenBSW-SOVD-Demo/openbsw-overlay/libs/doip/src/doip/server/DoIpServerConnectionHandler.cpp:244-296 | the message handlers are offered exactly the headers of the right version whose type is none of the five processed by the connection, each handler until one accepts |
| `DoipPool.OffersOfEvent` | OpenBSW-SOVD-Demo/openbsw-overlay/libs/doip/src/doip/server/DoIpServerConnectionHandler.cpp:49-52 | no other event offers anything, and a new handler has been offered nothing |
| `DoipPool.KeptExactly` | OpenBSW-SOVD-Demo/openbsw-overlay/libs/doip/src/doip/server/DoIpServerConnectionHandler.cpp:202-296 | the returned flag: a message is kept when the connection receives its payload, consumes an acknowledgement, or a handler takes it |
| `DoipHandler.DoIpServerConnectionHandler.constructor` | OpenBSW-SOVD-Demo/openbsw-overlay/libs/doip/src/doip/server/DoIpServerConnectionHandler.cpp:25-47 | a fresh connection: INACTIVE, invalid addresses, no timer, full pool |
| `DoipHandler.DoIpServerConnectionHandler.AddMessageHandler` | OpenBSW-SOVD-Demo/openbsw-overlay/libs/doip/src/doip/server/DoIpServerConnectionHandler.cpp:49-52 | one more handler at the end of the list |
| `DoipHandler.DoIpServerConnectionHandler.Resume` | OpenBSW-SOVD-Demo/openbsw-overlay/libs/doip/src/doip/server/DoIpServerConnectionHandler.cpp:54-71 | before start: bound, ACTIVE and reported as done; after start: refused without effect |
| `DoipHandler.DoIpServerConnectionHandler.Start` | OpenBSW-SOVD-Demo/openbsw-overlay/libs/doip/src/doip/server/DoIpServerConnectionHandler.cpp:73-102 | the effect of start() on every field, handler and collaborator, for fresh and resumed connections; a second call does nothing |
| `DoipHandler.DoIpServerConnectionHandler.StartResumedConnection` | OpenBSW-SOVD-Demo/openbsw-overlay/libs/doip/src/doip/server/DoIpServerConnectionHandler.cpp:83-99 | the resumed part of start(): filter asked with the resumed flag, general timer, handlers told |
| `DoipHandler.DoIpServerConnectionHandler.TellHandlers` | OpenBSW-SOVD-Demo/openbsw-overlay/libs/doip/src/doip/server/DoIpServerConnectionHandler.cpp:376-397 | the loop over the message handlers tells each of them exactly once |
| `DoipHandler.DoIpServerConnectionHandler.SendRoutingActive` | OpenBSW-SOVD-Demo/openbsw-overlay/libs/doip/src/doip/server/DoIpServerConnectionHandler.cpp:384-397 | every handler and then the callback hears that routing is active |
| `DoipHandler.DoIpServerConnectionHandler.Close` | OpenBSW-SOVD-Demo/openbsw-overlay/libs/doip/src/doip/server/DoIpServerConnectionHandler.cpp:104-131 | the effect of close() on every field and collaborator, idempotent once SHUTDOWN (what it calls, and in which order: DoipTable.CallsOfEvent) |
| `DoipHandler.DoIpServerConnectionHandler.AnnounceClosing` | OpenBSW-SOVD-Demo/openbsw-overlay/libs/doip/src/doip/server/DoIpServerConnectionHandler.cpp:117-130 | timer stopped, callback told, and a pending alive check answered negatively after that (the order of the calls: DoipTable.ClosingOrder and DoipOrder.CheckAnsweredLast) |
| `DoipHandler.DoIpServerConnectionHandler.AllocateSendJob` | OpenBSW-SOVD-Demo/openbsw-overlay/libs/doip/src/doip/server/DoIpServerConnectionHandler.cpp:542-572 | no job once SHUTDOWN; a close-after-send request moves to CLOSING even when the pool is empty |
| `DoipHandler.DoIpServerConnectionHandler.SendOrCloseJob` | OpenBSW-SOVD-Demo/openbsw-overlay/libs/doip/src/doip/server/DoIpServerConnectionHandler.cpp:457-522 | the shared body of the two senders: sent with the job, or closed without one |
| `DoipHandler.DoIpServerConnectionHandler.SendNack` | OpenBSW-SOVD-Demo/openbsw-overlay/libs/doip/src/doip/server/DoIpServerConnectionHandler.cpp:494-522 | the effect of sendNack() on the whole state |
| `DoipHandler.DoIpServerConnectionHandler.SendRoutingActivationResponse` | OpenBSW-SOVD-Demo/openbsw-overlay/libs/doip/src/doip/server/DoIpServerConnectionHandler.cpp:457-492 | the effect of sendRoutingActivationResponse() on the whole state |
| `DoipHandler.DoIpServerConnectionHandler.SendOrReleaseMessage` | OpenBSW-SOVD-Demo/openbsw-overlay/libs/doip/src/doip/server/DoIpServerConnectionHandler.cpp:524-540 | an accepted job is in flight, a refused one back in the pool, and nothing is closed |
| `DoipHandler.DoIpServerConnectionHandler.ReleaseSendJob` | OpenBSW-SOVD-Demo/openbsw-overlay/libs/doip/src/doip/server/DoIpServerConnectionHandler.cpp:587-592 | the slot is free again |
| `DoipHandler.DoIpServerConnectionHandler.ReleaseSendJobAndClose` | OpenBSW-SOVD-Demo/openbsw-overlay/libs/doip/src/doip/server/DoIpServerConnectionHandler.cpp:574-585 | the slot is free again and the connection closed |
| `DoipHandler.DoIpServerConnectionHandler.JobReturned` | OpenBSW-SOVD-Demo/openbsw-overlay/libs/doip/src/doip/server/DoIpServerConnectionHandler.cpp:574-592 | a returned job takes the release path it was allocated with |
| `DoipHandler.DoIpServerConnectionHandler.StartAliveCheck` | OpenBSW-SOVD-Demo/openbsw-overlay/libs/doip/src/doip/server/DoIpServerConnectionHandler.cpp:133-164 | request, immediate negative answer, or nothing, by state and callback |
| `DoipHandler.DoIpServerConnectionHandler.RequestAliveCheck` | OpenBSW-SOVD-Demo/openbsw-overlay/libs/doip/src/doip/server/DoIpServerConnectionHandler.cpp:142-153 | the ACTIVE case: pending flag, then timer and request, or close |
| `DoipHandler.DoIpServerConnectionHandler.RoutingActivationCompleted` | OpenBSW-SOVD-Demo/openbsw-overlay/libs/doip/src/doip/server/DoIpServerConnectionHandler.cpp:166-188 | the effect on the whole state, the re-opening included |
| `DoipHandler.DoIpServerConnectionHandler.BecomeActive` | OpenBSW-SOVD-Demo/openbsw-overlay/libs/doip/src/doip/server/DoIpServerConnectionHandler.cpp:180-187 | the state is overwritten with ACTIVE whatever the response did |
| `DoipHandler.DoIpServerConnectionHandler.ConnectionClosed` | OpenBSW-SOVD-Demo/openbsw-overlay/libs/doip/src/doip/server/DoIpServerConnectionHandler.cpp:190-200 | the peer closing has the effect of close() |
| `DoipHandler.DoIpServerConnectionHandler.HeaderReceivedRoutingActivationRequest` | OpenBSW-SOVD-Demo/openbsw-overlay/libs/doip/src/doip/server/DoIpServerConnectionHandler.cpp:202-217 | lengths 7 and 11 are received, any other is NACKed |
| `DoipHandler.DoIpServerConnectionHandler.HeaderReceivedAliveCheckResponse` | OpenBSW-SOVD-Demo/openbsw-overlay/libs/doip/src/doip/server/DoIpServerConnectionHandler.cpp:219-234 | length 2 is received, any other is NACKed |
| `DoipHandler.DoIpServerConnectionHandler.HeaderReceivedDefault` | OpenBSW-SOVD-Demo/openbsw-overlay/libs/doip/src/doip/server/DoIpServerConnectionHandler.cpp:244-256 | offered in order, NACKed when nobody accepts |
| `DoipHandler.DoIpServerConnectionHandler.OfferInOrder` | OpenBSW-SOVD-Demo/openbsw-overlay/libs/doip/src/doip/server/DoIpServerConnectionHandler.cpp:246-252 | the loop stops at the first handler that accepts |
| `DoipHandler.DoIpServerConnectionHandler.HeaderReceived` | OpenBSW-SOVD-Demo/openbsw-overlay/libs/doip/src/doip/server/DoIpServerConnectionHandler.cpp:258-296 | the dispatch over version and payload type, timer restart included (DoipTimers.HeaderRestarts), and the returned flag (DoipPool.KeptExactly) |
| `DoipHandler.DoIpServerConnectionHandler.Execute` | OpenBSW-SOVD-Demo/openbsw-overlay/libs/doip/src/doip/server/DoIpServerConnectionHandler.cpp:298-455 | the timer callback by state |
| `DoipHandler.DoIpServerConnectionHandler.RoutingActivationRequestReceived` | OpenBSW-SOVD-Demo/openbsw-overlay/libs/doip/src/doip/server/DoIpServerConnectionHandler.cpp:300-347 | filter asked with address, type and optional OEM field of the payload, then decided (DoipBinding.FirstRequestBinds, DoipTable.DueOfEvent), then receiving ended |
| `DoipHandler.DoIpServerConnectionHandler.DecideOnRequest` | OpenBSW-SOVD-Demo/openbsw-overlay/libs/doip/src/doip/server/DoIpServerConnectionHandler.cpp:316-345 | the four outcomes after the filter: bound, answered as the filter says, confirmed, or refused with 0x02 and closed |
| `DoipHandler.DoIpServerConnectionHandler.AliveCheckResponseReceived` | OpenBSW-SOVD-Demo/openbsw-overlay/libs/doip/src/doip/server/DoIpServerConnectionHandler.cpp:349-374 | the verdict, then continue or close |
| `DoipHandler.DoIpServerConnectionHandler.Shutdown` | OpenBSW-SOVD-Demo/openbsw-overlay/libs/doip/src/doip/server/DoIpServerConnectionHandler.cpp:598 | only the timer is stopped |
| `Lcg.FullPeriod` | OpenBSW-SOVD-Demo/openbsw-overlay/app/src/uds/DtcSimulator.cpp:39-40 | for every k up to 32, start and n: the low k bits of the seed are back after n steps if and only if 2^k divides n |
| `Lcg.VisitsAll` | OpenBSW-SOVD-Demo/openbsw-overlay/app/src/uds/ReadIdentifierSimulated.cpp:31-33 | every value of the low k bits is reached within 2^k steps from any start |
| `Lcg.WordPeriod` | OpenBSW-SOVD-Demo/openbsw-overlay/app/src/uds/DtcSimulator.cpp:39-40 | each of the 2^32 values occurs at exactly one step below 2^32 |
| `Lcg.SeedRepeats` | OpenBSW-SOVD-Demo/openbsw-overlay/app/src/uds/ReadIdentifierSimulated.cpp:29-33 | the 32-bit seed returns to its start exactly at the multiples of 2^32 steps |
| `Lcg.DoubledWalk` | OpenBSW-SOVD-Demo/openbsw-overlay/app/src/uds/DtcSimulator.cpp:39 | 2^k steps compose to one affine map obtained by repeated doubling |
| `Sensors.ReadIdentifierSimulated.constructor` | OpenBSW-SOVD-Demo/openbsw-overlay/app/src/uds/ReadIdentifierSimulated.cpp:12-27 | start value, bounds and the seed derived from the identifier |
| `Sensors.ReadIdentifierSimulated.Step` | OpenBSW-SOVD-Demo/openbsw-overlay/app/src/uds/ReadIdentifierSimulated.cpp:29-48 | one step of the clamped walk |
| `Sensors.ReadIdentifierSimulated.SetValue` | OpenBSW-SOVD-Demo/openbsw-overlay/app/src/uds/ReadIdentifierSimulated.cpp:52-63 | the injected value clamped to the bounds |
| `Sensors.ReadIdentifierSimulated.Process` | OpenBSW-SOVD-Demo/openbsw-overlay/app/src/uds/ReadIdentifierSimulated.cpp:65-77 | the value as four big-endian bytes, or nothing when they do not fit |
| `Sensors.StepStaysBounded` | OpenBSW-SOVD-Demo/openbsw-overlay/app/src/uds/ReadIdentifierSimulated.cpp:29-48 | a bounded sensor stays bounded, moves by at most two and never overflows |
| `Sensors.SetValueStaysBounded` | OpenBSW-SOVD-Demo/openbsw-overlay/app/src/uds/ReadIdentifierSimulated.cpp:52-63 | an injection is taken literally exactly when it lies in the bounds, and becomes the lower bound below and the upper bound above them |
| `Sensors.WalkDistance` | OpenBSW-SOVD-Demo/openbsw-overlay/app/src/uds/ReadIdentifierSimulated.cpp:29-48 | n steps move the value by at most 2n within the bounds, and the seed is the n-th iterate |
| `Sensors.ValueRoundTrip` | OpenBSW-SOVD-Demo/sovd-cda/main.py:386-387 | the four bytes decode as a signed integer to the value sent |
| `Bytes.BigEndianRoundTrip` | OpenBSW-SOVD-Demo/openbsw-overlay/app/src/uds/ReadIdentifierSimulated.cpp:72-75 | every 32-bit value survives the big-endian bytes |
| `Bytes.BigEndianBytes` | OpenBSW-SOVD-Demo/openbsw-overlay/app/src/uds/ReadIdentifierSimulated.cpp:72-75 | the four bytes are the digits of the value to the base 256, most significant first |
| `Bytes.JoinedNumber` | OpenBSW-SOVD-Demo/openbsw-overlay/libs/uds/src/services/readdtcinformation/ReadDTCInformation.cpp:116-152 | three bytes are joined most significant first, as a number |
| `Bytes.SplitNumber` | OpenBSW-SOVD-Demo/openbsw-overlay/libs/uds/include/uds/dtc/DiagnosticTroubleCode.h:107-114 | the three number bytes of a code are the digits of its lower 24 bits to the base 256, most significant first |
| `Bytes.ValueIsNumber` | OpenBSW-SOVD-Demo/openbsw-overlay/app/src/uds/ReadIdentifierSimulated.cpp:72-75 | the value of a byte is its number |
| `TroubleCodes.DiagnosticTroubleCode.Assign` | OpenBSW-SOVD-Demo/openbsw-overlay/libs/uds/include/uds/dtc/DiagnosticTroubleCode.h:100-103 | the number keeps 24 bits |
| `TroubleCodes.DiagnosticTroubleCode.SetStatusBit` | OpenBSW-SOVD-Demo/openbsw-overlay/libs/uds/include/uds/dtc/DiagnosticTroubleCode.h:118 | the bits are set, the others and the number stay |
| `TroubleCodes.DiagnosticTroubleCode.ClearStatusBit` | OpenBSW-SOVD-Demo/openbsw-overlay/libs/uds/include/uds/dtc/DiagnosticTroubleCode.h:120-121 | the bits are cleared, the others and the number stay |
| `TroubleCodes.DiagnosticTroubleCode.Clear` | OpenBSW-SOVD-Demo/openbsw-overlay/libs/uds/include/uds/dtc/DiagnosticTroubleCode.h:128-129 | the status of a cleared fault |
| `Bytes.ByteRoundTrip` | OpenBSW-SOVD-Demo/openbsw-overlay/app/src/uds/ReadIdentifierSimulated.cpp:72-75 | bytes and the numbers below 256 correspond one to one |
| `Bytes.JoinSplit24` | OpenBSW-SOVD-Demo/openbsw-overlay/libs/uds/include/uds/dtc/DiagnosticTroubleCode.h:107-114 | three number bytes join to the lower 24 bits |
| `DtcStore.DiagnosticTroubleCodeStore.AddDtc` | OpenBSW-SOVD-Demo/openbsw-overlay/libs/uds/include/uds/dtc/DiagnosticTroubleCodeStore.h:92-102 | appended at the end if there is room, else refused unchanged |
| `DtcStore.DiagnosticTroubleCodeStore.GetDtcByIndex` | OpenBSW-SOVD-Demo/openbsw-overlay/libs/uds/include/uds/dtc/DiagnosticTroubleCodeStore.h:104-122 | the cell at the index, or null beyond the count |
| `DtcStore.DiagnosticTroubleCodeStore.FindDtcByNumber` | OpenBSW-SOVD-Demo/openbsw-overlay/libs/uds/include/uds/dtc/DiagnosticTroubleCodeStore.h:124-149 | the first cell with the number, or null if there is none |
| `DtcStore.DiagnosticTroubleCodeStore.CountByStatusMask` | OpenBSW-SOVD-Demo/openbsw-overlay/libs/uds/include/uds/dtc/DiagnosticTroubleCodeStore.h:159-171 | the number of entries that share a bit with the mask |
| `DtcStore.DiagnosticTroubleCodeStore.ClearAll` | OpenBSW-SOVD-Demo/openbsw-overlay/libs/uds/include/uds/dtc/DiagnosticTroubleCodeStore.h:173-180 | every entry cleared, numbers and order kept |
| `DtcStore.DiagnosticTroubleCodeStore.ClearByNumber` | OpenBSW-SOVD-Demo/openbsw-overlay/libs/uds/include/uds/dtc/DiagnosticTroubleCodeStore.h:182-192 | the first entry with the number cleared, nothing else |
| `DtcStore.FirstIndex` | OpenBSW-SOVD-Demo/openbsw-overlay/libs/uds/include/uds/dtc/DiagnosticTroubleCodeStore.h:124-149 | the least index with the number; none exactly when no entry has it |
| `Simulator.DtcSimulator.constructor` | OpenBSW-SOVD-Demo/openbsw-overlay/app/src/uds/DtcSimulator.cpp:8-16 | the three sensors, the generator and an empty store |
| `Simulator.DtcSimulator.Init` | OpenBSW-SOVD-Demo/openbsw-overlay/app/src/uds/DtcSimulator.cpp:18-26 | the five demo faults appended with status zero |
| `Simulator.InitAfterConstruction` | OpenBSW-SOVD-Demo/openbsw-overlay/app/src/uds/DtcSimulator.cpp:8-26 | construction followed by init() is the initial state of the runs |
| `Simulator.DtcSimulator.Step` | OpenBSW-SOVD-Demo/openbsw-overlay/app/src/uds/DtcSimulator.cpp:28-105 | one step changes counter, sensors, generator and faults as the transition says, which SimulatorSteps.StatusAfterStep and SimulatorSteps.SensorsAfterStep state outright |
| `Simulator.DtcSimulator.UpdateFaults` | OpenBSW-SOVD-Demo/openbsw-overlay/app/src/uds/DtcSimulator.cpp:42-104 | toggle on every fourth step, then the thresholds (SimulatorSteps.StatusAfterStep) |
| `Simulator.DtcSimulator.ToggleDtc` | OpenBSW-SOVD-Demo/openbsw-overlay/app/src/uds/DtcSimulator.cpp:45-69 | the coin flip on the drawn fault, every other fault unchanged |
| `Simulator.DtcSimulator.LinkToSensor` | OpenBSW-SOVD-Demo/openbsw-overlay/app/src/uds/DtcSimulator.cpp:72-104 | the threshold rule on the named fault, every other fault unchanged |
| `SimulatorRuns.PlausibleBytes` | OpenBSW-SOVD-Demo/openbsw-overlay/libs/uds/include/uds/dtc/DiagnosticTroubleCode.h:118-129 | the plausible status bytes are exactly ten values |
| `SimulatorRuns.ReachableStatus` | OpenBSW-SOVD-Demo/openbsw-overlay/app/src/uds/DtcSimulator.cpp:18-104 | from init(), under any mix of steps, clears and injections: bits 2 and 7 clear, bit 3 = bit 5, bit 4 = bit 6, bits 0 and 1 imply bit 3, bit 0 = bit 1 for the three faults without a sensor; numbers and order fixed |
| `SimulatorRuns.RunEvolves` | OpenBSW-SOVD-Demo/openbsw-overlay/app/src/uds/DtcSimulator.cpp:42-104 | over every run from any state a sound non-zero status never becomes zero, a clear included, and bits 4 and 6 stay once set |
| `SimulatorRuns.ClearLeavesMarks` | OpenBSW-SOVD-Demo/openbsw-overlay/libs/uds/include/uds/dtc/DiagnosticTroubleCode.h:128-129 | after a clear of all, every later status has bits 4 and 6 |
| `SimulatorRuns.RunBounded` | OpenBSW-SOVD-Demo/openbsw-overlay/app/src/uds/DtcSimulator.cpp:10-13 | over every run each sensor stays in its range and the next step does not overflow |
| `SimulatorRuns.ThresholdsDecide` | OpenBSW-SOVD-Demo/openbsw-overlay/app/src/uds/DtcSimulator.cpp:72-104 | after every step both linked faults agree with their sensors whatever the random toggle did |
| `SimulatorRuns.Hysteresis` | OpenBSW-SOVD-Demo/openbsw-overlay/app/src/uds/DtcSimulator.cpp:77-103 | when one step forces a linked fault on and a later one forces it off, its test-failed bit is set and then clear, with at least 11 steps (engine) or 6 steps (battery) in between unless a value was injected into its sensor |
| `SimulatorSteps.StatusAfterStep` | OpenBSW-SOVD-Demo/openbsw-overlay/app/src/uds/DtcSimulator.cpp:28-104 | over every run, n counting the steps so far and rnd being the upper half of the n-th generator value: a step draws fault rnd % 5 exactly when 4 divides n; the drawn fault loses bits 0 and 1 if it was failing and bit 0 of rnd is set, gets bits 0, 1, 3 and 5 if it was not failing and bit 1 of rnd is set, and is kept otherwise; then the first two faults follow temperature and voltage at the thresholds 120/100 and 110/120 |
| `SimulatorSteps.ChangedByStep` | OpenBSW-SOVD-Demo/openbsw-overlay/app/src/uds/DtcSimulator.cpp:42-69 | over every run: a step changes a fault without a sensor if and only if 4 divides n, the fault is drawn and the bit of rnd that decides about its present state is set |
| `SimulatorSteps.ToggleRate` | OpenBSW-SOVD-Demo/openbsw-overlay/app/src/uds/DtcSimulator.cpp:30-45 | in every run of s steps the five faults together are drawn exactly floor(s/4) times, counter wraps included |
| `SimulatorSteps.TogglesAreDraws` | OpenBSW-SOVD-Demo/openbsw-overlay/app/src/uds/DtcSimulator.cpp:42-69 | a fault without a sensor changes at most as often as it is drawn |
| `SimulatorSteps.BrakeFaultSet` | OpenBSW-SOVD-Demo/openbsw-overlay/app/src/uds/DtcSimulator.cpp:42-69 | the first twelve steps from init(): the brake fault has status 0x00 after eleven and 0x2B after the twelfth |
| `SimulatorSteps.RunStepped` | OpenBSW-SOVD-Demo/openbsw-overlay/app/src/uds/DtcSimulator.cpp:28-45 | over every run the generator and the counter of a step are at the number of steps so far, also across the wrap |
| `SimulatorSteps.InitialInitialised` | OpenBSW-SOVD-Demo/openbsw-overlay/app/src/uds/DtcSimulator.cpp:8-26 | the state after init() is a start from which the lemmas of this module hold, with all statuses zero |
| `SimulatorSteps.FirstValues` | OpenBSW-SOVD-Demo/openbsw-overlay/app/src/uds/DtcSimulator.cpp:39 | the first, fourth, eighth and twelfth value of the generator started at 42 |
| `SimulatorSteps.SensorsAfterStep` | OpenBSW-SOVD-Demo/openbsw-overlay/app/src/uds/ReadIdentifierSimulated.cpp:29-48 | over every run, injections included: each sensor moves by the n-th value of its own generator, bits 16 to 30 modulo 5 less 2, and stops at its bounds 70/130, 100/150 and 0/220 |
| `SimulatorSteps.InjectionCuts` | OpenBSW-SOVD-Demo/openbsw-overlay/app/src/uds/ReadIdentifierSimulated.cpp:52-63 | over every run an injection cuts the value to the range of its sensor and changes nothing else |
| `SimulatorRuns.SeedsOf` | OpenBSW-SOVD-Demo/openbsw-overlay/app/src/uds/DtcSimulator.cpp:28-40 | all four generators depend on the number of steps alone, whatever else happened |
| `SimulatorRuns.GeneratorRecurs` | OpenBSW-SOVD-Demo/openbsw-overlay/app/src/uds/DtcSimulator.cpp:39-40 | in a run the fault generator recurs exactly when the numbers of steps agree modulo 2^32 |
| `UdsTick.UdsSystem.Init` | OpenBSW-SOVD-Demo/openbsw-overlay/app/src/systems/UdsSystem.cpp:61-71 | the simulator part of init() |
| `UdsTick.UdsSystem.Execute` | OpenBSW-SOVD-Demo/openbsw-overlay/app/src/systems/UdsSystem.cpp:188-197 | the wrapping counter, and one simulator step at each multiple of 50 |
| `UdsTick.StepCountClosedForm` | OpenBSW-SOVD-Demo/openbsw-overlay/app/src/systems/UdsSystem.cpp:188-197 | q * 2^32 + r ticks run exactly q * 85899346 + floor(r/50) steps |
| `UdsTick.StepGap` | OpenBSW-SOVD-Demo/openbsw-overlay/app/src/systems/UdsSystem.cpp:188-197 | consecutive steps are 50 ticks apart, 46 across a counter wrap, none in between |
| `UdsTick.TicksAreSteps` | OpenBSW-SOVD-Demo/openbsw-overlay/app/src/systems/UdsSystem.cpp:188-197 | n ticks have on the simulator exactly the effect of that many steps |
| `UdsServices.ReadDTCInformation.Execute` | OpenBSW-SOVD-Demo/openbsw-overlay/libs/uds/src/services/readdtcinformation/ReadDTCInformation.cpp:15-62 | return code, and the response as the answer cut at the buffer size |
| `UdsServices.ReadDTCInformation.ReportNumberOfDtc` | OpenBSW-SOVD-Demo/openbsw-overlay/libs/uds/src/services/readdtcinformation/ReadDTCInformation.cpp:64-85 | the 16-bit count answer |
| `UdsServices.ReadDTCInformation.ReportDtcs` | OpenBSW-SOVD-Demo/openbsw-overlay/libs/uds/src/services/readdtcinformation/ReadDTCInformation.cpp:87-114 | the list answer |
| `UdsServices.ReadDTCInformation.ReportMatching` | OpenBSW-SOVD-Demo/openbsw-overlay/libs/uds/src/services/readdtcinformation/ReadDTCInformation.cpp:96-110 | the loop appends the records of the matching entries in order |
| `UdsServices.ReadDTCInformation.ReportExtDataRecord` | OpenBSW-SOVD-Demo/openbsw-overlay/libs/uds/src/services/readdtcinformation/ReadDTCInformation.cpp:116-152 | the detail answer with its two error cases |
| `UdsServices.ClearDiagnosticInformation.Execute` | OpenBSW-SOVD-Demo/openbsw-overlay/libs/uds/src/services/cleardiagnosticinformation/ClearDiagnosticInformation.cpp:16-56 | store and return code after a clear request of any bytes |
| `UdsServices.MatchingIsFilter` | OpenBSW-SOVD-Demo/openbsw-overlay/libs/uds/include/uds/dtc/DiagnosticTroubleCodeStore.h:159-171 | the listed faults are exactly the stored ones that share a bit with the mask |
| `UdsWire.MatchingInOrder` | OpenBSW-SOVD-Demo/openbsw-overlay/libs/uds/include/uds/dtc/DiagnosticTroubleCodeStore.h:159-171 | the listing by mask keeps the order of the store: entry i, if its status shares a bit with the mask, stands at the place given by the number of such entries before it, and no other entry is listed |
| `UdsWire.RecordBytes` | OpenBSW-SOVD-Demo/openbsw-overlay/libs/uds/src/services/readdtcinformation/ReadDTCInformation.cpp:87-114 | a fault list on the wire: 0x59 0x02 0xFF, then for each listed fault its number as three bytes, most significant first, and its status |
| `UdsWire.CountBytes` | OpenBSW-SOVD-Demo/openbsw-overlay/libs/uds/src/services/readdtcinformation/ReadDTCInformation.cpp:64-85 | a count on the wire: 0x59 0x01 0xFF 0x01 and the count modulo 2^16 in two bytes, most significant first |
| `UdsWire.DetailBytes` | OpenBSW-SOVD-Demo/openbsw-overlay/libs/uds/src/services/readdtcinformation/ReadDTCInformation.cpp:116-152 | a detail on the wire, byte for byte: the number asked for, the stored status, the echoed record number, and 1 while the fault is failing, else 0 |
| `UdsWire.NegativeExactly` | OpenBSW-SOVD-Demo/openbsw-overlay/libs/uds/src/services/readdtcinformation/ReadDTCInformation.cpp:15-62 | for every request and store: 0x13 exactly for a wrong length, 0x12 exactly for an unknown sub-function, 0x31 exactly for a detail of a fault that is not stored, and a positive response in every other case |
| `UdsWire.ShorterBuffer` | OpenBSW-SOVD-Demo/openbsw-overlay/libs/uds/src/services/readdtcinformation/ReadDTCInformation.cpp:87-114 | a shorter buffer gives a prefix of the answer, as long as the buffer allows |
| `UdsWire.TopBitIgnored` | OpenBSW-SOVD-Demo/openbsw-overlay/libs/uds/src/services/readdtcinformation/ReadDTCInformation.cpp:33 | the suppress bit of the sub-function makes no difference to the answer |
| `UdsWire.ClearExactly` | OpenBSW-SOVD-Demo/openbsw-overlay/libs/uds/src/services/cleardiagnosticinformation/ClearDiagnosticInformation.cpp:16-56 | for every request and store, repeated numbers included: a wrong length and an unknown group are refused with 0x13 and 0x31 and change nothing; otherwise the answer is 0x54, and exactly the entries named (all, or the first with the number) get the status 0x50 |
| `UdsServices.ClearPointwise` | OpenBSW-SOVD-Demo/openbsw-overlay/libs/uds/src/services/cleardiagnosticinformation/ClearDiagnosticInformation.cpp:31-56 | for distinct numbers each status becomes 0x50 exactly when the request names its entry or the group of all; everything else is kept; the code is positive exactly when something was named |
| `UdsServices.ClearIdempotent` | OpenBSW-SOVD-Demo/openbsw-overlay/libs/uds/src/services/cleardiagnosticinformation/ClearDiagnosticInformation.cpp:31-56 | repeating a clear of any bytes gives the same store and code |
| `UdsServices.CountRoundTrip` | OpenBSW-SOVD-Demo/openbsw-overlay/libs/uds/src/services/readdtcinformation/ReadDTCInformation.cpp:71-82 | the two count bytes decode to the number of matching faults modulo 2^16, exact below 65536 entries |
| `UdsServices.CountAfterClear` | doc/sovd-demo/tests_rg1.rst:90-97 | the count after a clear of all is zero or reduced if and only if the mask avoids bits 4 and 6 or the store is empty |
| `UdsServices.ClearRaisesCount` | OpenBSW-SOVD-Demo/openbsw-overlay/libs/uds/include/uds/dtc/DiagnosticTroubleCode.h:128-129 | with mask 0xFF a store that never failed counts zero before a clear and every fault after it |
| `FaultAdapter.StatusRoundTrip` | OpenBSW-SOVD-Demo/sovd-cda/main.py:101-117 | the eight flags and the status byte determine each other |
| `FaultAdapter.ReadFaults` | OpenBSW-SOVD-Demo/sovd-cda/main.py:226-239 | the handler's reply: error, unexpected, or the decoded list |
| `FaultAdapter.DecodeLoop` | OpenBSW-SOVD-Demo/sovd-cda/main.py:231-239 | the loop reads exactly floor(len/4) records |
| `FaultAdapter.Poller.PollEcuOnce` | OpenBSW-SOVD-Demo/sovd-cda/main.py:433-489 | both histories after one poll (what they hold over every run: AdapterHistories) |
| `FaultAdapter.Poller.PollSensor` | OpenBSW-SOVD-Demo/sovd-cda/main.py:453-472 | one sample, decoded by the format of the catalogue (AdapterHistories.SensorFormats), appended to the sensor's bounded history, or nothing |
| `FaultAdapter.Poller.SnapshotLoop` | OpenBSW-SOVD-Demo/sovd-cda/main.py:480-486 | the dictionary of a fault response |
| `FaultAdapter.Poller.FaultsHistory` | OpenBSW-SOVD-Demo/sovd-cda/main.py:566-579 | the counts of every entry in order |
| `FaultAdapter.HexIdInjective` | OpenBSW-SOVD-Demo/sovd-cda/main.py:486 | different 24-bit numbers have different identifiers |
| `FaultAdapter.SnapshotFaithful` | OpenBSW-SOVD-Demo/sovd-cda/main.py:480-487 | with distinct numbers the dictionary has one binding per record, with its status |
| `FaultAdapter.CountsOrdered` | OpenBSW-SOVD-Demo/sovd-cda/main.py:571-576 | active <= confirmed <= total whenever failing faults are confirmed |
| `FaultAdapter.Push` | OpenBSW-SOVD-Demo/sovd-cda/main.py:423-428 | the result is the suffix of the history and the new entry whose length is one more than before, but at most 300 |
| `FaultAdapter.HexIds` | OpenBSW-SOVD-Demo/sovd-cda/main.py:486 | the identifiers of the five demo faults and of 0xABCDEF, letter for letter |
| `AdapterHistories.FaultHistoryRemembers` | OpenBSW-SOVD-Demo/sovd-cda/main.py:428-487 | over every interleaving of ticks, clears, injections and polls, for every buffer size: the fault history is the last 300 of the snapshots that the fault reads of the run got, in order, each with its time and the faults with a non-zero status in the store at that moment, cut to those that fit |
| `AdapterHistories.SensorHistoryRemembers` | OpenBSW-SOVD-Demo/sovd-cda/main.py:426-472 | likewise the history of each sensor is the last 300 of the samples that its reads got, each with its time and the value at that moment, and it exists exactly when there was one |
| `AdapterHistories.PushRecent` | OpenBSW-SOVD-Demo/sovd-cda/main.py:423-428 | appending to the last 300 entries of a sequence gives the last 300 entries of the longer sequence |
| `AdapterHistories.SensorFormats` | OpenBSW-SOVD-Demo/sovd-cda/main.py:457-468 | the value of a response: four bytes as a signed number or two as an unsigned one, most significant byte first; none from a short or foreign response or another format |
| `AdapterHistories.CountsExactly` | OpenBSW-SOVD-Demo/sovd-cda/main.py:571-576 | with distinct numbers the three counts of a snapshot are the numbers of its entries with bit 0, with bit 3, and of all entries |
| `FaultPipeline.PrefixDecodes` | OpenBSW-SOVD-Demo/openbsw-overlay/libs/uds/src/services/readdtcinformation/ReadDTCInformation.cpp:96-110 | decoding any prefix of the encoded records gives a prefix of the true list, never a wrong record |
| `FaultPipeline.FaultListRoundTrip` | OpenBSW-SOVD-Demo/sovd-cda/main.py:226-252 | for every store, mask and buffer size the adapter shows exactly the faults that meet the mask, in order, cut to the records that fit |
| `FaultPipeline.ViewsAgree` | OpenBSW-SOVD-Demo/sovd-cda/main.py:480-487 | the list, the 16-bit count received and the dictionary size agree when the matching faults fit the response |
| `FaultPipeline.DetailRequestNumber` | OpenBSW-SOVD-Demo/sovd-cda/main.py:272-277 | the packed request names the number it was given if and only if that has 24 bits |
| `FaultPipeline.FaultDetailRoundTrip` | OpenBSW-SOVD-Demo/sovd-cda/main.py:272-290 | the status shown is the stored one; the occurrence counter shown is always 0xFF, the echoed record number, while the real counter is one byte later |
| `FaultPipeline.MatchingGrows` | OpenBSW-SOVD-Demo/openbsw-overlay/libs/uds/src/services/readdtcinformation/ReadDTCInformation.cpp:87-114 | the number of faults listed under mask 0xFF never falls |
| `FaultPipeline.PolledSnapshot` | OpenBSW-SOVD-Demo/sovd-cda/main.py:476-487 | what one poll records: ordered counts and the total of the faults that fit |
| `FaultPipeline.PollIsFourReads` | OpenBSW-SOVD-Demo/sovd-cda/main.py:433-489 | one poll on the responses of the ECU is, on the whole system, three sensor reads and one fault read |
| `FaultPipeline.FaultHistorySafe` | OpenBSW-SOVD-Demo/sovd-cda/main.py:566-579 | over every interleaving of ticks, clears, injections and polls every entry has active <= confirmed <= total and totals never decrease |
| `FaultPipeline.SensorReply` | OpenBSW-SOVD-Demo/openbsw-overlay/app/src/uds/ReadIdentifierSimulated.cpp:65-77 | the polled value is the sensor's value and lies in its range |
| `FaultPipeline.SensorHistorySafe` | OpenBSW-SOVD-Demo/sovd-cda/main.py:451-472 | over every run all values in the sensor histories lie in [70,130], [100,150] or [0,220] |

## Left out

- Logger calls, the TCP stack, the asynchronous scheduler and the connection's mutex: each entry point is one atomic step.
- Real time: a timer is idle or armed with one of three kinds of timeout; a run may let it fire at any moment. The configured durations are not modelled.
- Re-entrant calls: connection, callback and message handlers do not call back into the handler during a call.
- The identity of connection and filter objects and the endpoint addresses handed to the filter; only the source address, activation type, OEM field and resumed flag are kept.
- DoipHandler.DoIpServerConnectionHandler.TellHandlers: the three loops over the message handlers (in sendConnectionOpened, sendRoutingActive and close) appear as this one method.
- DoipHandler.DoIpServerConnectionHandler.SendOrCloseJob: the equal bodies of sendNack and sendRoutingActivationResponse appear as this one method; the writing of the payload bytes into the job's buffer is the payload argument.
- DoipHandler.DoIpServerConnectionHandler.JobReturned: the connection's choice of the release callback bound at allocation is made from the job's close-after-send flag; the success flag passed to it is unused by the original and left out.
- DoipHandler.DoIpServerConnectionHandler.ConnectionClosed: the flag for a close by the remote peer is only logged and left out.
- suspendSending and resumeSending, which only forward to the connection.
- Sensors.ReadIdentifierSimulated.Step: a sum outside the signed 32-bit range, undefined in the original, is computed exactly; StepStaysBounded and RunBounded show that it does not occur.
- DoipHandler.DoIpServerConnectionHandler.StartAliveCheck: before start() it may be called on a resumed connection with a job left; with an empty pool the original then calls the missing callback, which the contract excludes.
- Simulator.DtcSimulator.Step: requires a non-empty store on toggling steps, where the original divides by the number of faults.
- UdsTick.UdsSystem.Init: only the simulator's part; transport, dispatcher and job registration are left out.
- UdsTick.UdsSystem.Execute: the function-static counter is a field.
- FaultAdapter.Poller.PollEcuOnce: a failed request or an exception counts as an empty response; the conversion to floating point and the reading of the catalogue are left out (the formats are parameters; in the runs of FaultPipeline all three sensors use the four-byte signed format, as the catalogue has it).
- Parsing of hexadecimal path parameters, HTTP routing and status codes, the clear endpoint of the adapter (a request builder), the current-value endpoints.
- setStatusByte and isActive of the trouble code, which nothing in the modelled code calls.
- ODX and MDD generators, protobuf output, Grafana, Docker, CMake and the test drivers.
