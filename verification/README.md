# A verified model of the proxy-client worker

`proxy-client` keeps outbound WebSocket connections to a proxy server, receives scrape requests, calls local
exporters and sends their answers back over the WebSocket or by HTTP POST. This project models the worker, the memory
budget all workers share, the exporter download, the two response encoders, the timing rules and the target URLs, and
proves what they keep.

## How it is modelled

**The connection** (`Connection.dfy` and the `Connection*.dfy` files, `ScrapeTask.dfy`, `BusyAnswers.dfy`,
`BulkQueue.dfy`, `WriterLoop.dfy`, `Parcels.dfy`) is a transition system. The session loop, the scrape task with its
one-slot completion channel, the busy-answer actor and the writer each have their own steps; a step ends where the
code awaits. Server, exporter, POST endpoint, network and allocator are adversarial: every step that is enabled may be
taken, in any order, with any outcome. The writer's `select!` is biased as in the source, the session's is not. A
*parcel* is one request on its way, with its buffers, its reservations and the history of what was done with it.
`ConnectionRuns.Reachable` means reachable by any finite run from a new connection, interleaved with anything other
users of the budget do.

**The process** (`System.dfy`) is any number of workers that connect, run a connection to its end, rest and connect
again without bound, on one budget.

**The budget** is modelled twice: `AtomicBudget.dfy` at the grain of single atomic operations with any number of
concurrent owners, and `Memory.dfy` as the classes one worker uses. There, what everybody else holds at each access of
this worker to the counter is an input, an arbitrary function of the access, and so are the allocator's answers: the
contracts say which levels an operation finds, and none of them can be made up. `AtomicBudget.EffectsAreAtomic` is what
lets the other models treat a grant or a release as one step.

**The sequential code** is imperative: `Resource.dfy` (the download loop), `Encoders.dfy` (the two encoders in their
preallocated buffers), `WriterTask.dfy` (the writer's loop on its two flags), `Session.dfy` (the session's methods on
its fields), `Backoff.dfy` (the reconnect loop), `Heartbeat.dfy` (the heartbeat branch) and `Target.dfy` (edits of
local URL copies), with the busy actor's branches in `BusyActor.dfy`. The methods of session and actor take the steps
of the transition system and keep its invariant; `Refinement.dfy` composes download, encoders and memory classes into
the calls the connection makes and proves that their outcome, and the bytes they hold, are those of the steps.
`Protocol.dfy` and `FormEncoding.dfy` hold the encodings as functions, with decoders written independently from
section 7 of RFC 8259 and sections 5.1 and 5.2 of the WHATWG URL Standard.

Strings are byte strings; a capacity is whatever the allocator chose, at least what was asked for. Clock, random
fraction, shutdown token, exporter replies and received messages (already parsed from JSON) are inputs.

## Where the documentation and the code differ

- `README.md:22` says reading never waits for a network write. The session awaits a slot of the bulk queue inside its
  own branch (`src/worker.rs:266-272`, `src/worker.rs:349`, `src/worker.rs:392`, `src/worker.rs:434`).
  `ConnectionWaiting.ReadingCanWaitForUpload` builds a run in which it waits during an upload,
  `ConnectionWaiting.WaitsExactlyWhenFull` says exactly when the wait begins, and
  `ConnectionProgress.BoundedBlocking` bounds it.
- `README.md:133` says a silent connection is closed after 45 seconds. The test is made only at heartbeat ticks
  (`src/worker.rs:245-251`). `Heartbeat.NotAfterExactly45Seconds` gives two counterexamples,
  `Heartbeat.ExpiresExactlyWhen` and `Heartbeat.HeartbeatWindow` the exact rule and the window.
- `README.md:36` calls delivery at least once over the transports and names one exception, a large response whose POST
  timed out. A refused reservation is another (`src/worker.rs:341-344`, `src/worker.rs:424-430`, `src/resource.rs:15-22`).
  `ConnectionDelivery.RequestCanGoUnanswered` is a run in which a received request is never answered, while the session
  runs and the writer lives. `ConnectionDelivery.DeployedUnansweredExactlyWhen` gives the exact condition for every step
  of every run: the budget refuses the memory for the uid, for the error response or for the slack of the JSON, or the
  POST times out with more than 256 KiB of body. What is sent may also be a 500 for the same uid in place of the
  response; `ConnectionSafety.TransportsAgree` holds up to that replacement.

## Model

| member | source | states |
|---|---|---|
| ConnectionSafety.RequestConservation | src/worker.rs:340-375 | in every reachable state a received request is in exactly one of nine places, once, and nowhere else; one that was not received is nowhere |
| ConnectionSafety.BoundedDuplication | src/worker.rs:368-374 | at most one POST attempt and one WebSocket frame per request, both only after a reported failure; no frame after a large scrape's POST timed out; wires 1 and 2 never POST |
| ConnectionSafety.TransportsAgree | src/worker.rs:498-524 | a frame sent after a POST of the same request carries the same content, or the error for the same uid |
| ConnectionSafety.BufferCoverage | src/worker.rs:611-640 | capacities of live buffers are covered by reservations, exactly except for JSON reserved and not yet allocated, and all of it is within the budget |
| ConnectionSafety.BoundedFootprint | src/worker.rs:32-35 | whatever the server sends, a connection holds at most 23 responses, 4 POSTs, 8 queued busy answers, 8 bulk entries and 32 control messages |
| ConnectionSafety.NothingLeftBehind | src/worker.rs:172-186 | when the connection has returned, by any exit, its task, writer and actor have ended and nothing it reserved is live |
| ConnectionSafety.OthersUntouched | src/worker.rs:182-186 | no sequence of a connection's own steps changes what others have taken from the budget |
| ConnectionSafety.OneScrape | src/worker.rs:257-265 | a full completion slot implies an active scrape whose task is done; the completion send finds the slot free; an idle session has no task |
| ConnectionSafety.BusyOnlyWhileScraping | src/worker.rs:341-355 | a request becomes a 503 exactly when it arrives while a scrape is held as active, and leaves that scrape alone |
| ConnectionFrames.FramesInOrder | src/worker.rs:441-479 | frames are an order-preserving interleaving of the control and the bulk queue, register first, nothing after a close |
| ConnectionFrames.ControlGoesFirst | src/worker.rs:454-467 | a response frame is started only when the control queue is empty |
| ConnectionFrames.CloseEndsWriter | src/worker.rs:457-463 | once a close frame was started the writer only stops |
| ConnectionFrames.DrainedMeansWritten | src/worker.rs:465-476 | a writer that ended with both inputs closed, without close frame or failed send, has sent every control message and every queued response |
| ConnectionFrames.FramesAreFaithful | src/worker.rs:590-641 | every response frame decodes to the answer of a received request as produced, or to the error for the same uid |
| ConnectionFrames.FrameWithinLimit | src/worker.rs:468-471 | the frame being written is within the message limit and covered by its own reservation only |
| ConnectionFrames.TextIsHandled | src/worker.rs:309-380 | which text messages are answered, how, and when; oversized identifiers change nothing; exactly the valid requests are counted |
| ConnectionSelect.BranchesThatSpeak | src/worker.rs:245-256 | a heartbeat tick in time queues a ping message and a ping frame, a ping frame a pong frame, a ping message a pong message, a `ready` message its answer from an idle worker on wire 2 or 3, each as far as the control queue has room, and nothing else changes |
| ConnectionSelect.BranchesThatEnd | src/worker.rs:233-304 | shutdown, the writer's end, an expired tick, the end of reading and the server's close each end the session with its own exit and farewell, and drop only a completion nobody took |
| ConnectionSelect.CompletionIsTaken | src/worker.rs:257-273 | a completion is taken exactly when there is one; the worker is idle from then on, and its response, if it has one, goes on to be queued once the task is joined |
| ConnectionSelect.EndsForItsReason | src/worker.rs:233-304 | a step that ends the session is the one the recorded exit names, and no other step ends it |
| ConnectionEnd.CloseFrameTellsWhy | src/worker.rs:233-256 | in every run a close frame is the last frame, appears only after the session ended, and the step by which the session ended is the one its reason names: the shutdown, an expired heartbeat tick, or the server's close |
| ConnectionDelivery.DeployedUnansweredExactlyWhen | README.md:36 | while session and writer live, a request is settled undelivered exactly at a step that is refused memory for its uid, its error response or the slack of its JSON, or at which its POST times out with more than 256 KiB of body |
| ConnectionDelivery.UnansweredExactlyWhen | src/worker.rs:421-437 | the same for any encoder: or at a step that finds even the error response over the message limit |
| ConnectionDelivery.RequestCanGoUnanswered | src/resource.rs:15-22 | a reachable state, for every configuration, in which a received request was neither posted nor framed and is lost while session and writer live |
| ConnectionDelivery.StepReasons | src/worker.rs:421-437 | at every step, of any state, a response is given up for memory exactly when the budget refuses it, as too large exactly when its error response is, and as large and late exactly when its POST times out so |
| ConnectionDelivery.RefusedOnTheWay | src/memory.rs:73-77 | whatever a run drops for want of memory is dropped at a step of that run whose request did not fit |
| ConnectionDelivery.MetadataAlwaysFits | src/worker.rs:622-626 | as deployed, no reachable step finds an error response over the message limit |
| ConnectionDelivery.DeliveredExactlyWhen | src/worker.rs:468-474 | at every step a response is recorded as written exactly when its send succeeds, and as accepted exactly when its POST is |
| ConnectionDelivery.SendsDecide | src/worker.rs:457-472 | a failed send other than the close frame's ends the writer and drops everything it had, for that reason; a successful one settles exactly the response that was sent |
| ConnectionPosts.PostComesFirst | src/worker.rs:368-374 | in every reachable state on wire 3, a scrape on its way to the WebSocket, or with a frame, has had its POST fail or be refused |
| ConnectionPosts.AttemptsAreLogged | src/worker.rs:368-374 | the POSTs and frames a request's parcel remembers are those in the logs |
| ConnectionPosts.ScrapesArePosted | src/worker.rs:357-375 | for every response, on wire 3 with room for it and its form, a reachable state with exactly its POST under way, and one after it was accepted with nothing held, framed or left to hand back |
| ConnectionDelivery.FatesAreTrue | src/worker.rs:496-524 | every settled request has the fate its history says, for the reason named: what was dropped for memory was refused by the budget at that step, and as deployed none was dropped as too large; none holds memory |
| ConnectionEnd.FatesMatchHistory | src/worker.rs:496-524 | in every reachable state the fate of a settled request agrees with its POSTs, frames and failures, and with how far the connection has ended |
| ConnectionEnd.DrainTerminates | src/worker.rs:465-476 | once session and actor are gone and no close frame waits, the writer alone ends by successful sends within two steps per queued entry and four more, with everything ever queued written |
| ConnectionEnd.FarewellIsQueued | src/worker.rs:396-411 | the farewell is queued exactly when the writer is alive and its queue has room |
| ConnectionEnd.CloseIsDelivered | src/worker.rs:406-411 | while sends succeed, a flushing writer sends everything queued and then the close frame, in a known number of steps, and ends |
| ConnectionEnd.TeardownTerminates | src/worker.rs:182-186 | from any point after the session ended, at most 7 steps of the worker alone complete the teardown and return exactly what was reserved |
| ConnectionEnd.TeardownMovesExactlyWhen | src/worker.rs:396-416 | what each phase of the teardown waits for and where it goes from there; a flush that succeeds needs no abort |
| ConnectionEnd.TeardownOnlyAdvances | src/worker.rs:396-416 | no step leaves the teardown, goes back in it, or takes another request |
| ConnectionEnd.ReturnedIsFinal | src/worker.rs:184-186 | after the return no part of the connection can take a step |
| ConnectionProgress.NoDeadlock | src/worker.rs:434-436 | whenever the session or the busy actor stands in line for the bulk queue, a writer step, success as well as failure, is enabled |
| ConnectionProgress.OutOfLineMoves | src/worker.rs:434-436 | a session, and likewise a busy actor, that is no longer in line can go on by itself |
| ConnectionProgress.BoundedBlocking | src/worker.rs:421-495 | while the session is stuck at most 34 sends end, the writer takes at most 67 steps, and the wait, counting the sends that ended and the one still in flight, is at most 2 max(base, 45 s) + 32 base |
| ConnectionProgress.WriterUnblocks | src/worker.rs:441-479 | from any stuck state at most 68 steps of the writer alone let the session go on |
| ConnectionProgress.ActorBlocking | src/worker.rs:562-567 | the busy actor waits for at most 34 sends plus one per control message queued meanwhile |
| ConnectionProgress.PingsOvertake | src/worker.rs:454-467 | that bound cannot be improved to a constant: any number of pings can be answered while the actor stays in line |
| ConnectionWaiting.WaitsExactlyWhenFull | src/worker.rs:434-436 | the session starts to wait exactly when the bulk queue has no free slot, and then reads nothing |
| ConnectionWaiting.ReadingCanWaitForUpload | src/worker.rs:266-272 | on every wire, from any level of the budget that leaves room for ten error responses: a reachable state in which a response is being uploaded and the session reads nothing because it waits for the writer |
| ConnectionWaiting.DeployedReadingCanWait | src/worker.rs:349-349 | that happens with the deployed encoder, on every wire, whenever 510 bytes of budget are free |
| ConnectionWaiting.PingsCanStarveBusyAnswers | src/worker.rs:526-572 | a reachable state on wire 3 from which the busy actor can be kept waiting through any number of pings |
| ConnectionRuns.StepKeepsInv | src/worker.rs:215-307 | every step of every actor keeps the whole invariant, and moves the budget by exactly what the connection's holdings change |
| ConnectionInvariant.SessionMovesKeepParcels | src/worker.rs:215-436 | every session step keeps coverage, contents and history of every parcel |
| ConnectionBooks.SessionMovesKeepBooks | src/worker.rs:215-436 | no session step loses or copies a request, and its histories agree with the logs |
| ConnectionControl.SessionMovesKeepControl | src/worker.rs:215-416 | every session step keeps the one-scrape rule, the phases and the queue bounds |
| WriterTrace.WriterMovesKeepTrace | src/worker.rs:451-479 | every writer step keeps frame order, register first, close last and completion |
| BulkQueue.QueueKeepsSlots | src/worker.rs:421-437 | slots of the bulk queue are never lost or invented, and each sender waits for at most one |
| BulkQueue.QueueConserves | src/worker.rs:421-437 | queueing a response neither loses nor copies it, whatever it is downgraded to |
| BulkQueue.QueueKeepsLedger | src/worker.rs:611-640 | the budget moves by exactly what the response and the queue have reserved, never beyond the limit |
| BulkQueue.QueueMovesExactlyWhen | src/worker.rs:421-437 | when each step of queueing a response can be taken: only a full queue makes it wait |
| ScrapeTask.TaskConserves | src/worker.rs:357-375 | the scrape task delivers its request to exactly one place, and a POST is logged exactly when one is attempted |
| ScrapeTask.TaskKeepsParcels | src/worker.rs:498-524 | what the scrape task hands back may go to the WebSocket only if it was not posted, or its POST failed and it is small enough or did not time out |
| ScrapeTask.AnswersAreDelivered | src/resource.rs:23-55 | the call ends with exactly one answer, 404, the exporter's own or the error, which wire 3 goes on to post and older wires hand back; it holds what its buffers occupy |
| ScrapeTask.PostsThenFallsBack | src/worker.rs:498-524 | a POST goes out if its form's memory is granted; an accepted one ends the request, and any other hands the same answer back as failed, unless it timed out with more than 256 KiB of body |
| ScrapeTask.TaskMovesExactlyWhen | src/worker.rs:357-375 | when each step of the scrape task can be taken: nothing but a missing completion slot can hold it up |
| BusyAnswers.ActorStaysBounded | src/worker.rs:534-571 | the busy actor never holds more than 8 queued answers and 4 POSTs, counting one whose answer is being queued |
| BusyAnswers.ActorConserves | src/worker.rs:526-572 | the busy actor neither loses nor copies an answer, and logs its POSTs |
| BusyAnswers.BusyPostsThenFallsBack | src/worker.rs:535-569 | busy answers are posted in the order they came while fewer than four POSTs run; an accepted one is done, and any other goes unchanged to the WebSocket |
| BusyAnswers.ActorMovesExactlyWhen | src/worker.rs:535-569 | when each step of the busy actor can be taken, with four POSTs at most |
| BusyAnswers.AnsweringGoesOn | src/worker.rs:562-568 | once an answer is queued or given up the actor serves on with what it has; only a dead writer ends it there |
| WriterLoop.WriterConserves | src/worker.rs:441-479 | the writer neither loses nor copies a response, and logs every frame it starts once |
| SessionObject.Session.constructor | src/worker.rs:172-181 | a new session is in the initial state of the connection |
| SessionObject.Session.Tick | src/worker.rs:245-256 | the heartbeat branch computes the expiry from the time of the last frame: it ends the session with the farewell for that, or queues both pings as far as there is room and changes nothing else; it keeps the invariant |
| SessionObject.Session.ReceiveCompletion | src/worker.rs:257-265 | receiving a completion clears the active scrape before its task is joined, and keeps the invariant |
| SessionObject.Session.HandleText | src/worker.rs:309-380 | handling a text message, on the session's fields, is the step that stands for the message: what it queues, or that it takes a request, or that nothing changes |
| SessionObject.Session.HandleRequest | src/worker.rs:340-376 | a request starts the one scrape or is answered busy, by actor or WebSocket, or dropped if its uid does not fit; the invariant is kept |
| SessionObject.Session.AnswerBusy | src/worker.rs:384-393 | wire 3 hands a busy answer to the actor if its queue takes it, else the WebSocket carries it |
| SessionObject.Session.Read | src/worker.rs:274-304 | what each kind of frame makes the session do, field by field; every frame is recorded as the last inbound one, the end of the stream is not; the invariant is kept |
| SessionObject.Session.Finish | src/worker.rs:396-416 | the farewell and the dropping of the senders |
| BusyActorLoop.Actor.Receive | src/worker.rs:540-551 | the receiving branch, on the actor's variables, is the receiving step, enabled only below four posts |
| BusyActorLoop.Actor.Prepare | src/worker.rs:543-546 | a post goes out if its form's memory is granted, and fails at once otherwise |
| BusyActorLoop.Actor.RefuseHeader | src/worker.rs:709-720 | a POST whose headers cannot be encoded keeps no memory for its form and its answer starts on the WebSocket queue |
| BusyActorLoop.Actor.Complete | src/worker.rs:552-569 | an accepted post is done; a failed one gives its form's memory back and starts on the WebSocket queue |
| BusyActorLoop.Actor.ReturnIfIdle | src/worker.rs:535-537 | the actor returns exactly when its input is closed and no post is running, with nothing left |
| WriterTask.RunWriter | src/worker.rs:441-479 | the writer's loop: order of both inputs, control before bulk, nothing after close; every frame but the last was sent, it fails exactly when the last is no close frame and its send failed, and everything was sent when it returns without close; once both senders are gone and sends succeed it returns within as many turns as there are messages and three more |
| System.ConnectionsAreIndependent | src/worker.rs:87-109 | whatever any number of workers do over any number of reconnects, each connection is in a state a single connection can reach |
| System.NoLeak | src/worker.rs:87-109 | over unboundedly many reconnects the counter is exactly the sum of what live connections hold, covers every buffer, stays within the limit, and is zero when no connection is up |
| System.ProcessFootprint | src/worker.rs:32-35 | the process holds at most 23 responses per worker |
| System.CleanHandover | src/worker.rs:90-107 | a worker can connect again only after its last connection ended in every part and gave back all memory |
| System.EndsAndRests | src/worker.rs:182-186 | from any state of the process, a connection whose session has ended is brought to its end by its own worker in at most 8 moves; nobody else is touched and the counter has back exactly what it held |
| System.RoundTrip | src/worker.rs:87-109 | a resting worker can always connect, be shut down and rest again with nothing changed |
| AtomicBudget.CounterIsExact | src/memory.rs:58-129 | under any interleaving the counter is live plus granted-not-recorded plus recorded-not-released, never beyond the limit; nothing wraps |
| AtomicBudget.SettledCounter | src/memory.rs:50-129 | between operations the counter is the sum of the live reservations, zero when there are none |
| AtomicBudget.HighWatermarkIsPeak | src/memory.rs:66-72 | the high watermark with the pending updates is exactly the largest value the counter ever had |
| AtomicBudget.RefusalsAreTruthful | src/memory.rs:73-77 | a refusal names what was available at a moment during the call, and at that moment the request did not fit |
| AtomicBudget.StaleMeansProgress | src/memory.rs:59-65 | an exchange with a stale value fails only because the counter moved since the load |
| AtomicBudget.ExchangeDecides | src/memory.rs:59-65 | an exchange with the present value grants the request exactly if it fits, and a request is refused exactly if what it loaded leaves no room |
| AtomicBudget.UncontendedReserve | src/memory.rs:50-78 | left alone, a reservation that fits is granted in five steps and takes exactly its bytes |
| AtomicBudget.EffectsAreAtomic | src/memory.rs:58-129 | every operation takes effect in one step; no other step changes the counter or anybody's share |
| AtomicBudget.StepKeepsOk | src/memory.rs:50-129 | every atomic step keeps the exact ledger, the watermark rule and the truth of all refusals |
| Memory.MemoryBudget.TryAcquire | src/memory.rs:58-78 | grants exactly when the bytes fit next to what the counter holds at this access |
| Memory.MemoryBudget.TryReserve | src/memory.rs:50-56 | a reservation of exactly the bytes asked for, or none and nothing taken |
| Memory.MemoryReservation.TryGrow | src/memory.rs:101-105 | reservation and budget grow together, or neither does |
| Memory.MemoryReservation.ShrinkTo | src/memory.rs:107-115 | takes exactly the difference off the reservation and off the counter, whatever that holds at this access |
| Memory.MemoryReservation.Drop | src/memory.rs:122-129 | takes everything off the counter |
| Memory.ReserveAndDrop | src/memory.rs:50-129 | if nobody else holds more or less at the second access, a reservation that is dropped leaves the counter as the first access found it |
| Memory.BudgetedResponse.TryNew | src/memory.rs:138-150 | a response holding exactly the capacities of its uid and body, or nothing |
| Memory.BudgetedResponse.FromReserved | src/memory.rs:152-168 | a reservation that covers both buffers ends up exactly their size, and the rest leaves the counter |
| Memory.BudgetedResponse.DowngradeToError | src/memory.rs:170-174 | same uid, status 500, no body; only the uid's capacity is still held, and the rest leaves the counter |
| Resource.FetchResource | src/resource.rs:58-103 | success is the exporter's status and the concatenation of all chunks, UTF-8 and within 64 MiB, with the reservation grown by exactly the buffer's capacity; it fails only if no download of this reply can succeed, the allocator refuses a chunk that does not fit, or the budget's last access leaves too little room; a download that can succeed and is refused nothing succeeds |
| Resource.MakeRoom | src/resource.rs:89-98 | the reservation grows before the buffer and again by the allocator's slack, and what was refused is what was asked for |
| Resource.CallResource | src/resource.rs:8-56 | no response exactly if the uid does not fit; 404 text exactly if that fits; the exporter's own answer if its download can succeed and nothing is refused; every failure leaves (500, empty) with exactly the uid's capacity |
| Resource.PrefixDecides | src/resource.rs:83-88 | stopping at a broken or oversized prefix never rejects a download that could have succeeded |
| Encoders.ResponseJson | src/protocol.rs:153-159 | the serializer fills a buffer of the announced length without reallocating, and the result is valid UTF-8 |
| Encoders.BoundedResponseJsonWithLimitAndEncoder | src/worker.rs:602-641 | original or same-uid error, exactly by the levels the counter has at its accesses; the encoder only sees candidates within the limit; the JSON is covered to the byte; what each error means |
| Encoders.BoundedResponseJson | src/worker.rs:590-600 | with the deployed limits the frame decodes to the response; it is encoded exactly if the budget has room at each access, and which refusal stops it |
| Encoders.WriteForm | src/worker.rs:728-735 | the form is written into the announced length without reallocating |
| Encoders.PrepareFormRequestWithEncoder | src/worker.rs:686-726 | form covered to the byte, timeout from its length, nothing left reserved on failure, what each error means |
| Encoders.PrepareFormRequest | src/worker.rs:679-684 | with the deployed encoder the form parses back to status and body; it is prepared exactly if the budget has room for form and slack and the headers are good |
| Refinement.QueueResponse | src/worker.rs:421-433 | encoding a queued response on the objects gives up exactly when the steps do at the levels it finds, with the frame, the reservation and the budget change of the steps |
| Refinement.CallTask | src/worker.rs:357-366 | the exporter call returns what the steps of the scrape task come to, at levels of the budget within its limit, with the same bytes held; wire 3 goes on to post it and older wires complete with it |
| Refinement.PrepareTask | src/worker.rs:659-665 | a prepared form is a POST that starts with exactly its bytes reserved; every failure is the step for it, and holds nothing |
| Protocol.JsonPrecheckIsExact | src/protocol.rs:161-193 | the precheck is the exact length of the JSON, and `None` exactly when that is no usize |
| Protocol.JsonPrecheckNeverOverflows | src/protocol.rs:161-193 | within the wire limits no checked addition overflows on 32 bits or more |
| Protocol.DecimalDigitsIsExact | src/protocol.rs:207-215 | the digit count is the length of the numeral, for every status |
| Protocol.JsonRoundTrip | src/protocol.rs:153-159 | decoding the JSON gives back uid, status and body, for all byte strings |
| Protocol.JsonInjective | src/protocol.rs:153-159 | different responses have different JSON |
| Protocol.JsonIsUtf8 | src/protocol.rs:158-158 | the conversion of the finished buffer to a string cannot fail |
| Protocol.FallbackLength | src/worker.rs:622-627 | the error response of a valid uid takes 51 to 819 bytes, so the deployed limit never refuses it |
| FormEncoding.FormPrecheckIsExact | src/protocol.rs:176-205 | the precheck is the exact length of the form, and `None` exactly when that is no usize |
| FormEncoding.FormPrecheckNeverOverflows | src/protocol.rs:176-205 | for bodies up to 64 MiB it never overflows on 32 bits or more |
| FormEncoding.FormRoundTrip | src/worker.rs:728-735 | parsing undoes serializing for every list of pairs of byte strings |
| FormEncoding.ResponseFormRoundTrip | src/worker.rs:728-735 | the form of a response parses to the pairs status and body, with the status readable |
| Timing.ScaledTimeoutBounds | src/worker.rs:491-494 | between base and the larger of base and cap, never shorter for a longer body |
| Timing.ScaledTimeoutExact | src/worker.rs:483-494 | one second per 64 KiB below the cap, and from where on the cap applies |
| Timing.PostTimeoutSeconds | README.md:130 | a POST gets its base plus a second per 64 KiB, at most 60 seconds, or the base if that is longer |
| Timing.BulkSendTimeoutSeconds | README.md:134 | a response frame gets its base plus a second per 64 KiB, at most 45 seconds, or the base if that is longer |
| Backoff.RunWorker | src/worker.rs:87-109 | the reconnect loop: how often it connects and how long it sleeps, until the shutdown; within a second after a stable connection, and the rounds it slept after take at least (76 N - 287) / 6 seconds |
| Backoff.BaseLevels | src/worker.rs:114-118 | the six levels of the backoff |
| Backoff.DelayBounds | src/worker.rs:114-120 | every delay is between half its base and its base, in 0.5 to 30 seconds; the base never falls as failures mount |
| Backoff.JitterIsEven | src/worker.rs:119-124 | the fraction spreads the delay evenly over the upper half of the base |
| Backoff.QuickFailuresSleep | src/worker.rs:97-106 | n quick failures sleep between half of S(n) and S(n), with S(n) = 2^n - 1 up to 5 and 31 + 30 (n - 5) beyond |
| Backoff.SleepAt | src/worker.rs:97-106 | each sleep is the delay for the number of connections in a row, up to it, that lived less than a minute |
| Backoff.StableConnectionResets | src/worker.rs:97-106 | after a connection of a minute or more the next delay is between half a second and a second, whatever came before |
| Backoff.AttemptsAreSpaced | src/worker.rs:90-107 | any N attempts in a row take at least (76 N - 287) / 6 seconds, however connections end |
| Backoff.SleptRoundsAreSpaced | src/worker.rs:90-107 | what the loop has slept, with the time its connections lived, is spaced by that bound, however the shutdown cuts it off |
| Backoff.SpacingIsTight | src/worker.rs:90-107 | that bound is attained for every N = 5 + 6 k |
| Heartbeat.Run | src/worker.rs:224-256 | the branches that read and set the time of the last frame |
| Heartbeat.HeartbeatWindow | src/worker.rs:245-251 | a connection that expires ends later than the timeout after its last frame and at most one interval later than that |
| Heartbeat.SilenceEndsConnection | src/worker.rs:245-251 | no frame for the timeout and one interval ends the connection, inside that window |
| Heartbeat.ExpiresAtFirstTick | src/worker.rs:245-251 | at exactly the first tick more than the timeout after the last frame |
| Heartbeat.ExpiresExactlyWhen | src/worker.rs:245-251 | it expires if and only if some tick finds the last frame that long ago, and every tick before the first such one pings |
| Heartbeat.AliveNeverExpires | src/worker.rs:280-280 | if no gap between frames exceeds the timeout it never expires |
| Heartbeat.NotAfterExactly45Seconds | README.md:133 | two runs in which "closed after 45 seconds" fails |
| Target.Parse | src/target.rs:11-49 | the step-by-step edits compute base and WebSocket URL |
| Target.ParsesExactlyWebUrls | src/target.rs:13-19 | exactly four schemes are accepted; both URLs keep authority and security and drop query and fragment |
| Target.PathsEndInSlash | src/target.rs:73-80 | both paths begin and end with a slash |
| Target.TargetOfPath | src/target.rs:23-43 | a path without trailing slash is kept by both URLs, with one slash for the base and `/ws/` for the WebSocket, unless it ends in `/ws`, which then belongs to the WebSocket URL alone |
| Target.PathsOfBare | src/target.rs:23-43 | the same for any such path as configured, with the bare `ws` |
| Target.TrailingSlashesDoNotMatter | src/target.rs:23-43 | slashes at the end of the configured path change nothing |
| Target.WsUrlIsFixpoint | src/target.rs:23-43 | parsing the WebSocket URL of a target gives the same target |
| Target.ResponseBaseIsFixpointExactlyWhen | src/target.rs:23-43 | parsing the response base gives the same target if and only if the WebSocket path is the base followed by `ws/` and the base does not end in `/ws/` |

## Left out

- Step system: the interleaving of session, scrape task, busy actor and writer is a transition system on values, because
  other tasks run at every await; the methods and branches of session and actor are also given as classes, but the
  sharing of channels and task handles between objects is not captured.
- Channels: a send into a full bulk queue gets in line at once and a freed slot goes to the first in line; the moment
  between freeing a slot and waking the sender inside the channel library is not modelled.
- Encoding steps: in the step system reserving the slack of a new buffer is one step with its allocation, and the two
  reservations of a form are one; `Encoders.dfy` has them one by one, and `Refinement.dfy` relates the two.
- Refinement.PrepareTask: the two reservations of a form are matched by one step at one level of the budget: what the
  first access finds if that refuses, and otherwise what the second finds without the form.
- Refinement.CallTask: the growth of a body over a download is matched by one step at this worker's own share of the
  budget; `Resource.FetchResource` has every growth at the level it finds.
- Stopping the writer: closing the sink after a close frame, and the time that takes, are part of the frame's send.
- Heartbeat.Run: covers a session that is not waiting for the bulk queue; a wait delays the tick by as long as it lasts.
- Backoff.RunWorker: the failure counter is unbounded; the source's u32 would overflow after 2^32 quick failures.
- Protocol.JsonRoundTrip: the decoder reads the members of a response in the order they are written and refuses
  surrogate escapes, which the encoder never produces.
- Timing: durations are reals; rounding of floating-point seconds is not modelled.
- Memory.MemoryBudget: what others do to the high watermark between two accesses is arbitrary; `AtomicBudget.dfy` has it
  exactly.
- Atomic orderings: every atomic operation is one step on one counter; weak-memory effects are not modelled.
- Panics: a panic is modelled only where a scrape task that has delivered its completion is joined. A scrape task that
  panicked earlier would leave `active_task` set, and since `run` keeps its own sender (`src/worker.rs:225`,
  `src/worker.rs:257`) no completion would come: the worker would answer 503 until the connection ends.
- Allocation failure: only the fallible reservation of the download loop can fail; elsewhere it ends the process.
- Target.response_url: percent-encoding of the uid is done by the URL library; only its length check is used here.
- Messages: JSON parsing of inbound messages, the text of `register` and `ready`, and Cloudflare header contents.
- TLS, WebSocket handshake and framing, HTTP client internals: a send or POST succeeds, fails or times out.
- Configuration, EC2 metadata, command line, signals, logging, Sentry, and the 15-second process shutdown.
