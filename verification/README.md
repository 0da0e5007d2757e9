# mod_http3: a verified model of the QUIC event thread, its workers and its buffers

mod_http3 serves HTTP/3 from Apache httpd.  One event thread per child drives QUIC and nghttp3;
a pool of workers runs the requests.  The two meet in a few shared structures: a bounded queue
of response bytes per stream, the flags that say when a stream, a session or a QUIC handle may
be released, and the tables of connections.  This project models those structures and proves
what the module relies on, for every interleaving of the threads and every answer of nghttp3
and the transport.

`dafny verify dfyconfig.toml` checks everything.

## How it is built

| file | what it is |
|---|---|
| `Bytes.dfy` | optional values, concatenation, offsets and sums |
| `SendQueue.dfy` | the response queue as a value: chunks queued, freed, acknowledged, and the submit cursor |
| `ResponseQueue.dfy` | the same queue as the linked list the program keeps, changed in place under interference |
| `OutQueue.dfy` | nghttp3's side of a stream: its own frames and zero-copy vectors into the queue |
| `QuicStream.dfy` | the vectored write to a QUIC stream |
| `Transmit.dfy` | the sending side of one stream, end to end |
| `SessionModel.dfy` | one session as a state machine: every locked section and lock-free flag write is a step |
| `SessionInvariant.dfy` | the invariant every step keeps |
| `SessionRecords.dfy` | what else every run keeps: untouched queues, accounted handles, an idle dead session; which steps leave what alone |
| `SessionTheorems.dfy` | what follows for every reachable state and every run |
| `SessionSteps.dfy` | why each move of the event thread is such a step, and why flushing ends |
| `DrainSchedule.dfy` | the rotating cursor and its fairness |
| `EventThread.dfy` | flushing, draining, dispatching, shutdown and the service pass, in place |
| `RequestWorker.dfy` | one worker among all other threads, in both response modes, and what a FIN says about its response |
| `TruncatedResponses.dfy` | three runs that end a response early with a clean FIN |
| `Connections.dfy` | the connection tables and the event loop |
| `EventLoop.dfy` | the service loop over the sessions of the table |
| `RequestBody.dfy` | receiving and serving request bodies |
| `RequestHeaders.dfy` | header limits and the advertised budget |
| `ResponseCapture.dfy` | brigades, what streaming and buffering make of them, and the capture buffer |
| `DatagramQueue.dfy` | the peer-address datagram queue |

A state of the session machine records, besides the program's own fields, what an observer
would see: the bytes a transport has accepted on each stream, whether FIN was sent, which
handles were freed, and where every task is.  `Enabled` says when a step can be taken and
`Apply` what it does; conditions there such as index bounds and the validity of a queue only
make `Apply` well defined and hold in every reachable state.  The methods of
`EventThread.Session` change fields as the program does, and each is proved to be a run of
the machine, so the theorems about runs hold between any two of its statements.

nghttp3 and OpenSSL are the environment.  What is taken from them:

- `nghttp3_conn_writev_stream` offers the first unwritten items of some unblocked stream, at
  most 16, and says that nothing is left only when no stream has anything to pull or offer;
- during one flush nghttp3 queues only finitely many frames of its own (SETTINGS, QPACK, GOAWAY);
- `nghttp3_conn_add_ack_offset` reports exactly the body bytes it covers, so an acknowledgement
  never covers bytes that were not offered;
- no header or data callback follows FIN, and a header block is final only when FIN is fed;
- a broken write side stays broken and takes nothing more;
- stream ids handed over by the transport are not repeated;
- the header callbacks of a stream come only while that stream is read (H3QpackBlockedStreams 0,
  its default).

Three promises a reader might expect do not hold, and the model says exactly when they do:

- A clean FIN does not always end a whole response.  There are three ways for it to fail.  A
  cancelled reader reports EOF, so a response abandoned because it made no progress is finished
  with bytes missing (`AbandonedFinishesCleanly`).  When the wait for room or the reading of a
  bucket fails, the worker completes an uncancelled response as far as it got
  (`FailedWaitFinishesCleanly`).  And in streaming mode an end-of-stream bucket completes the
  response, but the filter goes on: bytes behind it are queued with success and never offered
  once EOF was reported (`LateBytesAreLost`).  After FIN the peer has the whole body if and only
  if the worker queued all of it, no chunk was waiting behind the cursor at EOF, and no byte was
  queued after EOF (`FinMeansWholeBody`).  The last cannot happen unless the handlers pass a
  readable bucket with bytes behind an end-of-stream bucket (`StreamWorker`, `OverrunOverall`).
- The peer address noted for a new connection need not be the datagram's own: a datagram that
  waited may be delivered into a message that has a place for an address when its own had none,
  or the other way round (`StaleAddressNoted`, and `NotesOwnPeerExactly` for the condition).  If
  every message has such a place, it always is (`NotesOwnPeer`).
- A buffered response that succeeds need not hold all that the handlers produced: a bucket that
  cannot be read is passed over in buffered mode, where streaming mode fails
  (`BufferedLosesAByte`).  If what can be read is within the limit, the response is all of it if
  and only if no such bucket has bytes in it (`BufferedIsWhole`).

## Model

| member | source | states |
|---|---|---|
| `SendQueue.Ordered` | mod_http3/src/h3_session.c:217-423 | acknowledged bytes never exceed offered bytes, which never exceed queued bytes; the first two agree exactly when the head has caught up with the cursor |
| `SendQueue.ChunkLen` | mod_http3/src/h3_session.c:243-253 | one round of append takes what fits the data, the room and the chunk size, and nothing only when there is no data or no room |
| `SendQueue.PushValid` | mod_http3/src/h3_session.c:275-289 | a chunk that fits the room keeps the whole invariant and moves only the buffered count |
| `SendQueue.PushKeeps` | mod_http3/src/h3_session.c:275-289 | queueing appends to the byte stream and leaves every offered vector as it was |
| `SendQueue.AckKeeps` | mod_http3/src/h3_session.c:317-348 | an acknowledgement of offered bytes keeps the list invariant, advances the acknowledged count by exactly that much and lowers the buffered count by as much |
| `SendQueue.AckOvertakes` | mod_http3/src/h3_session.c:317-348 | acknowledgements stay behind the submit cursor if and only if they cover no byte past it |
| `SendQueue.AckTotal` | mod_http3/src/h3_session.c:317-348 | without the caller's promise an acknowledgement still covers that many bytes, or all there are, and never leaves the list |
| `SendQueue.BufferedIsSum` | mod_http3/src/h3_session.c:288-334 | response_buffered is the sum over the listed chunks of length minus acknowledged bytes |
| `SendQueue.CleanupKeeps` | mod_http3/src/h3_session.c:364-382 | cleanup keeps the invariant, leaves nothing buffered and nothing outstanding, and forgets no queued byte |
| `SendQueue.ReadKeeps` | mod_http3/src/h3_session.c:384-423 | the data reader keeps the invariant and moves nothing but the cursor, forward |
| `SendQueue.ReadPending` | mod_http3/src/h3_session.c:399-408 | the vectors handed out continue the outstanding ones: each chunk is offered once and in order |
| `SendQueue.EofMeansAll` | mod_http3/src/h3_session.c:392-423 | a reader that reports EOF has offered everything if and only if the response was not cancelled or no chunk was waiting |
| `SendQueue.HeadBytes` | mod_http3/src/h3_session.c:399-408 | the bytes behind the first outstanding vector are the queued bytes right after the acknowledged ones |
| `ResponseQueue.Response.constructor` | mod_http3/src/h3_stream.c:166-177 | a new stream has an empty, valid queue with the configured limit |
| `ResponseQueue.Response.Enqueue` | mod_http3/src/h3_session.c:268-289 | linking a chunk at the tail, and moving the cursor onto it if it was on nothing, is `Push`; head, links, tail, cursor and both counters stay right |
| `ResponseQueue.Response.AckLocked` | mod_http3/src/h3_session.c:317-348 | the acknowledgement loop computes `Ack` and frees exactly the chunks it covers whole |
| `ResponseQueue.Response.CancelLocked` | mod_http3/src/h3_session.c:350-362 | cancelling sets both flags and touches nothing else |
| `ResponseQueue.Response.MarkComplete` | mod_http3/src/h3_session.c:299-315 | completing sets one flag and touches nothing else |
| `ResponseQueue.Response.CleanupLocked` | mod_http3/src/h3_session.c:364-382 | every chunk still listed is freed, once, and no freed chunk is read |
| `ResponseQueue.Response.ReadData` | mod_http3/src/h3_session.c:384-423 | the reader returns the vectors, the flag and the cursor that `Read` says, each vector pointing into its own chunk |
| `ResponseQueue.Response.QueueRound` | mod_http3/src/h3_session.c:242-290 | a round with room queues at least one byte, or cancels the response |
| `ResponseQueue.Response.Append` | mod_http3/src/h3_session.c:217-297 | whatever the event thread does in between, the bytes queued are a prefix of the data placed right behind what was queued before, and all of it exactly on success; an abort means the response is cancelled or the session gone, a refusal or lack of memory cancels it, and a failed wait promises neither |
| `OutQueue.ConsumeTracksAck` | mod_http3/src/h3_stream.c:131-132 | telling nghttp3 that n bytes are written and acknowledged keeps its vectors equal to the outstanding slices of the queue |
| `OutQueue.CarriedIsNext` | mod_http3/src/h3_stream.c:97-132 | the body bytes among the first n offered bytes are exactly the queued bytes after the acknowledged ones |
| `OutQueue.PendingInside` | mod_http3/src/h3_stream.c:97-113 | every vector nghttp3 holds lies inside a chunk that is not freed |
| `QuicStream.Handle.Write` | mod_http3/src/quic/h3q_stream.c:23-60 | the accepted bytes are a prefix of the vectors joined; blocked and broken exclude each other and mean less than everything went; FIN is sent exactly when it was asked for and everything went; a broken handle stays broken |
| `QuicStream.Handle.WriteVectors` | mod_http3/src/quic/h3q_stream.c:32-54 | the write loop stops inside the first vector that is not taken whole |
| `Transmit.WireIsPrefix` | mod_http3/src/h3_stream.c:97-152 | in a good state the accepted body bytes are a prefix of everything queued |
| `Transmit.FinMeansWhole` | mod_http3/src/h3_session.c:392-423 | a FIN the transport sent follows everything queued at EOF if and only if no chunk was left behind the cursor |
| `Transmit.ReadCases` | mod_http3/src/h3_session.c:384-423 | the reader fills vectors, ends, or has nothing yet, in exactly these three cases |
| `Transmit.TakeOk` | mod_http3/src/h3_session.c:399-414 | pulling vectors keeps the stream's sending invariant |
| `Transmit.EofOk` | mod_http3/src/h3_session.c:392-421 | an empty EOF keeps the sending invariant, and leaves chunks behind only if the response was cancelled |
| `Transmit.WentOk` | mod_http3/src/h3_stream.c:111-132 | an offer accepted whole keeps the sending invariant: the wire continues exactly where it stopped |
| `Transmit.BlockedOk` | mod_http3/src/h3_stream.c:131-144 | a partly accepted offer on a full stream keeps the sending invariant |
| `Transmit.BrokenOk` | mod_http3/src/h3_stream.c:124-130 | dropping the rest of an offer on a broken stream keeps the sending invariant |
| `Transmit.SwallowOk` | mod_http3/src/h3_stream.c:103-110 | swallowing an offer of a stream that is gone keeps the sending invariant |
| `Transmit.PushOk` | mod_http3/src/h3_session.c:268-289 | queueing a chunk that fits keeps the sending invariant and only extends what is queued |
| `Transmit.CleanOk` | mod_http3/src/h3_stream.c:407-417 | freeing the queue of a cancelled response keeps the sending invariant |
| `SessionInvariant.InitOk` | mod_http3/src/h3_session.c:62-117 | a new session satisfies the session invariant |
| `SessionInvariant.WorkerOk` | mod_http3/src/h3_request.c:268-422 | every step of a request worker, on every path, keeps the session invariant |
| `SessionInvariant.ReceivingOk` | mod_http3/src/h3_stream.c:154-334 | taking a stream in, reading it, feeding its end and every nghttp3 callback keep the session invariant |
| `SessionInvariant.SendingOk` | mod_http3/src/h3_stream.c:55-152 | every step of a flush keeps the session invariant |
| `SessionInvariant.DispatchingOk` | mod_http3/src/h3_request.c:424-485 | every step of dispatching, with its failure paths, keeps the session invariant |
| `SessionInvariant.EndingOk` | mod_http3/src/h3_stream.c:395-425 | abandoning, reclaiming, aborting and destroying keep the session invariant |
| `SessionInvariant.RejectOk` | mod_http3/src/h3_stream.c:199-221 | rejecting a malformed stream keeps the invariant and counts the stream once |
| `SessionInvariant.CallbacksOk` | mod_http3/src/h3_callbacks.c:79-268 | any permitted sequence of callbacks during one read keeps the invariant |
| `SessionInvariant.RunOk` | mod_http3/src/h3_stream.c:55-432 | the session invariant holds in every state of every interleaving of event thread and workers |
| `SessionRecords.RecordsRun` | mod_http3/src/h3_stream.c:154-332 | along every run: a stream no task has begun on has an untouched queue, every handle taken in is accounted for, and the dispatcher holds nothing of a dead session |
| `SessionTheorems.ByteExactDelivery` | mod_http3/src/h3_stream.c:97-152 | in every reachable state the body bytes the transport accepted are a prefix of everything appended |
| `SessionTheorems.FinEndsTheBody` | mod_http3/src/h3_session.c:384-423 | a FIN sent ends exactly the bytes queued when the reader reported EOF, if and only if no chunk was left behind then; a response with chunks left behind was cancelled |
| `SessionTheorems.EofOffersEverything` | mod_http3/src/h3_session.c:392-423 | when the reader of an uncancelled response reports EOF every queued byte has been offered |
| `TruncatedResponses.AbandonedFinishesCleanly` | mod_http3/src/h3_io.c:385-410 | a run that abandons a blocked response in a state a flush leaves and ends in a clean FIN although queued bytes were never sent |
| `TruncatedResponses.FailedWaitFinishesCleanly` | mod_http3/src/h3_session.c:228-236 | a run in which the wait for room fails: a response that is not cancelled and not cut off ends in a clean FIN after the first of its two bytes |
| `TruncatedResponses.LateBytesAreLost` | mod_http3/src/h3_filter.c:435-447 | a run in which a byte is appended, with success, after the response was completed and FIN sent: nothing is cancelled or cut off, and the peer gets one byte of two |
| `TruncatedResponses.SecondIsLate` | mod_http3/src/h3_filter.c:435-447 | for any bytes before and behind an end-of-stream bucket, all of them are the body and those behind it are queued late |
| `SessionTheorems.QueueBounded` | mod_http3/src/h3_session.c:225-297 | response_buffered is between zero and the limit in every reachable state, and the cursor is never overtaken |
| `SessionTheorems.ZeroCopySafety` | mod_http3/src/h3_stream.c:97-113 | every vector written to a live handle lies inside a chunk that has not been freed |
| `SessionTheorems.ChunksOutliveTheirHandle` | mod_http3/src/h3_stream.c:404-417 | before the session is destroyed, a stream whose chunks were all freed has no handle left to write to and is cancelled |
| `SessionTheorems.BlockedCounted` | mod_http3/src/h3_stream.c:55-152 | blocked_streams is the number of tracked streams with write_blocked set |
| `SessionTheorems.OfferedIsUnblocked` | mod_http3/src/h3_stream.c:133-143 | a stream nghttp3 offers is never marked blocked already |
| `SessionTheorems.TasksOutlivedByTheirStream` | mod_http3/src/h3_request.c:268-485 | while a task can touch its stream the stream is not reclaimed and the session not destroyed |
| `SessionTheorems.ActiveTasksExact` | mod_http3/src/h3_request.c:464-485 | active_tasks is the number of tasks between their increment and their decrement |
| `SessionTheorems.OneTaskPerStream` | mod_http3/src/h3_request.c:430-438 | at most one task touches a stream, and none while the dispatcher holds it |
| `SessionTheorems.DispatchedAreServable` | mod_http3/src/h3_stream.c:275-333 | a dispatched stream is bidirectional and well formed, its headers and body are complete, and FIN was fed for it (as it also is after a remote reset) |
| `SessionTheorems.RunEvolves` | mod_http3/src/h3_stream.c:55-432 | along every run identities stay, queued bytes and wires only grow, and done, finished, rejected and cancelled never revert |
| `SessionTheorems.FinishedIsFinal` | mod_http3/src/h3_request.c:416-421 | once a task has finished normally no later task touches its stream |
| `SessionTheorems.BodyFrozen` | mod_http3/src/h3_request.c:300-330 | the request body, and the verdict on it, never change while a task reads them without the lock |
| `SessionTheorems.NothingAfterFin` | mod_http3/src/quic/h3q_stream.c:55-58 | once FIN is sent the wire of a stream never grows |
| `SessionTheorems.HandleOwnership` | mod_http3/src/h3_callbacks.c:219-268 | the handles taken in are exactly those in a stream slot, queued to be freed or freed; each is in one of them only, in one slot only, and freed or queued once |
| `SessionTheorems.MalformedContained` | mod_http3/src/h3_stream.c:199-221 | rejections are counted once per stream, never pass the limit by more than one, and passing it is exactly what marks the session overloaded and dead |
| `SessionTheorems.DeadIsQuiet` | mod_http3/src/h3_stream.c:365-386 | along every run from a dead session no stream is read or written, no request collected, counted, queued or answered: no wire grows, no task appears, and it stays dead |
| `SessionSteps.PullIsStep` | mod_http3/src/h3_session.c:384-423 | every answer of the data reader is a step of the machine and leaves less to pull |
| `SessionSteps.WrittenBy` | mod_http3/src/h3_stream.c:111-144 | every way a write can end is a step of the machine that leaves less to write |
| `SessionSteps.OfferCounts` | mod_http3/src/h3_stream.c:97-101 | an offer is never empty: it carries bytes or the FIN |
| `SessionSteps.PayloadIsCarried` | mod_http3/src/h3_stream.c:97-123 | the body positions of any first n bytes handed to the transport hold exactly the bytes the offered vectors carry |
| `SessionSteps.ZeroMeansNone` | mod_http3/src/h3_stream.c:57-60 | when blocked_streams is zero no tracked stream is marked blocked, so the early return misses nothing |
| `SessionSteps.HandleUntilDone` | mod_http3/src/h3_stream.c:280-284 | a stream keeps its handle until it is done, so the read loop never finds it gone |
| `SessionRecords.CallbacksApart` | mod_http3/src/h3_callbacks.c:79-268 | the callbacks of one read touch only the stream being read |
| `SessionSteps.EveryEligibleStreamIsDrained` | mod_http3/src/h3_stream.c:362-393 | over as many consecutive passes as there are streams, in an unchanged order, every stream that stays eligible is drained in one of them |
| `DrainSchedule.EveryPositionHasItsTurn` | mod_http3/src/h3_stream.c:362-393 | any n consecutive passes of the rotating cursor over n positions visit every position |
| `DrainSchedule.NextTurn` | mod_http3/src/h3_stream.c:388-393 | a pass that stops when a budget is spent hands the next turn to the following pass |
| `DrainSchedule.TurnsDiffer` | mod_http3/src/h3_stream.c:369-371 | no position is visited twice in one pass |
| `EventThread.StreamWrite` | mod_http3/src/h3_stream.c:111-123 | the body bytes among those the transport took, read off its own record, are the next bytes of the response; the three outcomes of `h3q_stream_write` and FIN are told apart |
| `EventThread.Session.constructor` | mod_http3/src/h3_session.c:62-117 | a new session is a reachable state with no shutdown call made |
| `EventThread.Session.Writev` | mod_http3/src/h3_stream.c:88-96 | whatever frames of its own nghttp3 queues and whatever it pulls before it answers is a run of sending steps, with fewer such frames to come, or less to pull, or nothing changed; it says nothing is left only when no stream can be pulled or offered |
| `EventThread.Session.WriteOffer` | mod_http3/src/h3_stream.c:97-144 | the branches for one offer are the machine's swallow, break, block and full-write steps, and each makes progress |
| `EventThread.Session.UnblockWritable` | mod_http3/src/h3_stream.c:55-76 | exactly the tracked streams with a handle whose send buffer is still full stay blocked, and no other stream changes |
| `EventThread.Session.WriteTurn` | mod_http3/src/h3_stream.c:84-144 | one turn leaves nghttp3 fewer frames of its own to come, or as many and less to pull, or as much and less to write; it stops only when nothing is left or nghttp3 failed |
| `EventThread.Session.WriteAll` | mod_http3/src/h3_stream.c:84-144 | the flush loop ends, however many frames of its own nghttp3 adds meanwhile, and unless nghttp3 fails nothing is left to pull or offer |
| `EventThread.Session.FreePending` | mod_http3/src/h3_stream.c:145-151 | the queued handles are freed, each once, last first |
| `EventThread.Session.Flush` | mod_http3/src/h3_stream.c:78-152 | a flush is a finite run of sending steps; it does nothing on a dead session, leaves every stream quiet unless nghttp3 fails, and empties the handle queue |
| `EventThread.Session.OnStopSending` | mod_http3/src/h3_callbacks.c:219-238 | the callback does what the machine's stop-sending step does |
| `EventThread.Session.CloseStream` | mod_http3/src/h3_callbacks.c:252-268 | closing a stream does what the machine's close step does, handle queue included |
| `EventThread.Session.DeliverAll` | mod_http3/src/h3_callbacks.c:79-268 | delivering callbacks one by one is the machine's callback sequence |
| `EventThread.Session.RejectMalformed` | mod_http3/src/h3_stream.c:199-221 | rejecting computes the machine's rejection, error count and overload flag |
| `EventThread.Session.FeedStreamFin` | mod_http3/src/h3_stream.c:223-242 | feeding the end of a stream is one machine step that leaves the body complete and no other stream changed |
| `EventThread.Session.ReadWhileBudget` | mod_http3/src/h3_stream.c:278-332 | the read loop counts each successful read and byte against its budget and never passes below zero |
| `EventThread.Session.DrainOne` | mod_http3/src/h3_stream.c:244-334 | with both budgets positive on entry, draining one stream is a run that touches only that stream and answers whether it can be dispatched |
| `EventThread.Session.DrainPass` | mod_http3/src/h3_stream.c:362-393 | a pass makes at most 256 reads of at most 1 MiB in all, drains every eligible stream it visits, collects exactly those that are ready, and leaves the cursor behind the last one visited |
| `EventThread.Session.ReclaimFinished` | mod_http3/src/h3_stream.c:395-425 | exactly the finished request streams leave the hash |
| `EventThread.Session.DrainReady` | mod_http3/src/h3_stream.c:336-432 | the whole function is a run within both budgets after which no finished stream is tracked; it logs which eligible streams were drained and where the cursor went |
| `EventThread.Session.DrainRounds` | mod_http3/src/h3_stream.c:336-432 | over as many calls as there are tracked streams, with workers running in between, every stream eligible at the start of each call is drained in one of them, unless the session died or the order changed |
| `EventThread.Session.Workers` | mod_http3/src/h3_request.c:268-422 | the workers may take any steps the machine allows while the lock is free |
| `EventThread.Session.ProcessRequest` | mod_http3/src/h3_request.c:424-485 | every path, with workers running in between, is a run that ends with nothing reserved |
| `EventThread.Session.AcceptStreams` | mod_http3/src/h3_io.c:463-483 | taking in any number of streams, with workers running in between, is a run of the machine |
| `EventThread.Session.AbandonStalled` | mod_http3/src/h3_io.c:385-410 | only full, unfinished, uncancelled responses are cancelled |
| `EventThread.Session.Announce` | mod_http3/src/h3_io.c:425-443 | the notice is submitted once; the deadline is set only when the server has stopped, and once |
| `EventThread.Session.Shutdown` | mod_http3/src/h3_io.c:423-453 | the final call follows the notice, ends the session, and is made when the deadline has passed |
| `EventThread.Session.Serve` | mod_http3/src/h3_io.c:455-534 | accepting, draining, dispatching and flushing are one run; crossing the error limit aborts the session in the same pass |
| `EventThread.Session.ServicePass` | mod_http3/src/h3_io.c:412-534 | a pass is a run of the machine with workers stepping wherever the lock is free, also before the lock-free aborted writes; the shutdown calls are made once each and in order, nothing is accepted or dispatched with or after the last one, and an aborted session is left alone |
| `EventThread.Session.Destroy` | mod_http3/src/h3_session.c:173-206 | with the session aborted and no task counted, dropping nghttp3, releasing every tracked queue and freeing the queued handles is the machine's destroy step |
| `EventThread.Session.ServiceTurn` | mod_http3/src/h3_threads.c:95-123 | one turn of the event loop for a session, workers included, is a run of the machine; when it destroys the session, no task is left that could touch it |
| `RequestWorker.OthersLeave` | mod_http3/src/h3_request.c:268-422 | no step of any other thread moves a task at work or changes the queued chunks, the submission or the lifecycle of its stream |
| `RequestWorker.BeginsEmpty` | mod_http3/src/h3_request.c:268-300 | a task that begins finds nothing queued and nothing submitted on its stream |
| `RequestWorker.WaitForRoom` | mod_http3/src/h3_session.c:227-241 | after the wait there is room, or the response is unwanted, or the wait itself failed or goes on |
| `RequestWorker.SubmitResponse` | mod_http3/src/h3_request.c:205-237 | a response is submitted at most once; a session that is gone takes none and nothing changes; it answers whether the response is submitted, and one that nghttp3 refuses is cancelled |
| `RequestWorker.StreamBrigade` | mod_http3/src/h3_filter.c:343-453 | one brigade in streaming mode, among all other threads: the headers go first; its body is queued in order, whole on success and up to the failure otherwise, where an unreadable bucket is such a failure; an end-of-stream bucket completes the response and the brigade goes on |
| `RequestWorker.PassAll` | mod_http3/src/h3_filter.c:343-453 | all brigades of a request, where handlers may stop or go on after a failure: what is queued is the whole exactly if every brigade was queued whole, and a prefix of it if failures were heeded |
| `RequestWorker.ProduceStreamed` | mod_http3/src/h3_request.c:367-403 | streaming mode queues the body as it comes and submits the headers at the end if they are not out yet; without headers nothing is queued |
| `RequestWorker.ProduceBuffered` | mod_http3/src/h3_request.c:367-403 | buffered mode queues the captured body, or the fixed error text for one over the limit, behind the headers; without headers nothing is queued |
| `RequestWorker.Append` | mod_http3/src/h3_session.c:217-297 | among all other threads, the bytes a worker queues are a prefix of its data right behind what was there, and all of it exactly on success; an abort, a refusal or lack of memory leaves the response unwanted, and an append to a completed response is told apart from one to an open one |
| `RequestWorker.ServeRequest` | mod_http3/src/h3_request.c:367-403 | in both modes the queue ends complete, with no more than the body in it, nothing unless the headers were submitted, and if they were, the whole body exactly if every brigade was queued whole; it is a prefix of the body if the handlers heeded failures, and nothing was queued after EOF unless they passed on bytes behind an end of stream |
| `RequestWorker.StreamWorker` | mod_http3/src/h3_request.c:268-422 | every step of a worker is possible whatever the other threads do in between; unless it waits for room it ends counted out, and if its request could be created it is answered as `ServeRequest` says |
| `RequestWorker.RunServed` | mod_http3/src/h3_request.c:399-422 | what a finished task left in its queue stays as it is along every later run, and nothing is queued after EOF later |
| `RequestWorker.FinMeansWholeBody` | mod_http3/src/h3_request.c:399-403 | in every state after a task finished the wire is a prefix of what it queued; once FIN was sent it is the whole body if and only if the worker queued all of it, no chunk was cut off at EOF, and no byte was queued after EOF |
| `Connections.SwapRemoveLoses` | mod_http3/src/h3_io.c:251-255 | moving the last element into the gap loses exactly the removed element |
| `Connections.KeptPending` | mod_http3/src/h3_io.c:240-306 | a pending connection that is freed or promoted stays in exactly one place |
| `Connections.KeptActive` | mod_http3/src/h3_threads.c:107-123 | an active connection that is freed stays in exactly one place |
| `Connections.AllFreed` | mod_http3/src/h3_threads.c:128-133 | with both tables empty, every accepted connection has been freed exactly once |
| `Connections.Io.constructor` | mod_http3/src/h3_io.c:111-172 | an empty table is balanced |
| `Connections.Io.Accept` | mod_http3/src/h3_threads.c:72-93 | a connection is refused and freed at the limit or when it cannot be prepared, and pends otherwise; the table never exceeds the limit |
| `Connections.Io.RemovePending` | mod_http3/src/h3_io.c:240-256 | one handshake leaves, its connection freed or not as asked, and the MPM is told once |
| `Connections.Io.Spawn` | mod_http3/src/h3_io.c:258-306 | the session is active and counted, or its connection is freed, on every path |
| `Connections.Io.ProgressPending` | mod_http3/src/h3_io.c:308-363 | every pending handshake is looked at: the timed-out and the closed are freed, the finished become sessions or are freed, exactly the others stay |
| `Connections.Io.DestroySession` | mod_http3/src/h3_threads.c:107-123 | destroying a session keeps conservation, the session count and the MPM balance |
| `Connections.Io.ServiceAll` | mod_http3/src/h3_threads.c:95-126 | every session present at the start of a pass is serviced exactly once although the table changes under the loop |
| `Connections.Io.Pass` | mod_http3/src/h3_threads.c:50-126 | a turn of the loop keeps every connection accounted for, and a draining server accepts nothing |
| `Connections.Io.EventThread` | mod_http3/src/h3_threads.c:34-136 | when the thread leaves its loop both tables are empty, both counters even, and every connection ever accepted has been freed exactly once |
| `EventLoop.Loop.Attach` | mod_http3/src/h3_io.c:258-306 | a connection that became active gets a session of its own that can be serviced |
| `EventLoop.Loop.ServiceOne` | mod_http3/src/h3_threads.c:95-123 | the session at a position is serviced; it leaves the table exactly when it was destroyed, and then no task is left that could touch it; the other sessions are untouched |
| `EventLoop.Loop.ServiceSessions` | mod_http3/src/h3_threads.c:95-126 | over the sessions themselves, every session present at the start is serviced once; those that left are destroyed without a task left, the others can be serviced again |
| `RequestBody.KeptIsAllOrNothingMore` | mod_http3/src/h3_callbacks.c:162-208 | the body overflows if and only if the payloads exceed the limit; it is their concatenation otherwise, and whole leading payloads if it overflows |
| `RequestBody.ConsumedIsPrefix` | mod_http3/src/h3_filter.c:84-135 | for any mix of calls the non-speculative buckets are consecutive body bytes, none twice |
| `RequestBody.EosMeansRead` | mod_http3/src/h3_filter.c:94-99 | in the reading modes a call emits EOS if and only if it leaves offset equal to length |
| `RequestBody.SpeculationIsHonest` | mod_http3/src/h3_filter.c:103-109 | a speculative read shows what the same read would take and moves nothing |
| `RequestBody.LineEndsAtNewline` | mod_http3/src/h3_filter.c:110-117 | a line ends at the first newline or with the body |
| `RequestBody.EnoughCallsReadAll` | mod_http3/src/h3_filter.c:84-135 | every taking call makes progress, so the whole body is read in at most as many calls as it has bytes |
| `RequestBody.RoundTrip` | mod_http3/src/h3_callbacks.c:162-208 | within the limit, receiving and then reading gives the payloads back |
| `RequestBody.ServedIsPrefixOfSent` | mod_http3/src/h3_filter.c:84-135 | under any limit and any mix of calls what is handed over is a prefix of what was sent |
| `RequestBody.Doubled` | mod_http3/src/h3_callbacks.c:188-192 | the doubling loop arrives at enough, at least twice the old capacity, and less than twice the need |
| `RequestBody.BodyBuffer.Grow` | mod_http3/src/h3_callbacks.c:186-203 | regrowth keeps the content and the limit, and total copying stays within twice the capacity |
| `RequestBody.BodyBuffer.RecvData` | mod_http3/src/h3_callbacks.c:162-208 | the buffer computes `Keep` in place: length within capacity within the limit |
| `RequestBody.BodyBuffer.ServeBody` | mod_http3/src/h3_filter.c:84-135 | the filter computes `Serve` and moves the offset accordingly |
| `RequestHeaders.WithinAdvertisedSize` | mod_http3/src/h3_callbacks.c:110-144 | with both limits set, the stored fields never weigh more than the advertised section size (section 4.2.2 of RFC 9114) |
| `RequestHeaders.AdvertisedSizeFits` | mod_http3/src/h3_session.c:91-94 | the advertised size fits 64 bits for all limits |
| `RequestHeaders.TooLargeIsFinal` | mod_http3/src/h3_callbacks.c:124-127 | once the section is too large the table never grows |
| `RequestHeaders.StoredIsAllThatFits` | mod_http3/src/h3_callbacks.c:101-145 | the section is too large if and only if some regular field does not fit; what is stored is every regular field, or those before the first that does not fit |
| `RequestHeaders.PseudoIsChecked` | mod_http3/src/h3_callbacks.c:45-77 | an oversized, empty or overlong pseudo-header marks the request malformed and is not stored; any other is stored |
| `RequestHeaders.HeaderTable.RecvHeader` | mod_http3/src/h3_callbacks.c:101-145 | the callback computes `OnHeader` in place |
| `RequestHeaders.HeaderTable.ReceiveSection` | mod_http3/src/h3_callbacks.c:79-145 | a field section on a stream with a table is found too large if and only if its regular fields do not fit, and is stored whole otherwise; without a table only its pseudo-headers have an effect; the table never outweighs the advertised size |
| `ResponseCapture.BufferedRefinesStreamed` | mod_http3/src/h3_request.c:367-403 | a body within the limit is queued alike in both modes; over it only the fixed text is queued, never a part of the body |
| `ResponseCapture.BufferedIsWhole` | mod_http3/src/h3_filter.c:145-151 | if what can be read is within the limit a buffered response is exactly that, also when the unreadable part would have exceeded the limit, and it is all that the handlers produced if and only if no bucket with bytes in it was unreadable; otherwise it is the fixed text |
| `ResponseCapture.BufferedLosesAByte` | mod_http3/src/h3_filter.c:145-151 | two bytes of which the second cannot be read: under every limit of at least one byte the buffered response is the first alone |
| `ResponseCapture.OverrunOverall` | mod_http3/src/h3_filter.c:435-447 | streaming the brigades of a request queues bytes behind an end of stream if and only if a readable bucket with bytes follows an end-of-stream bucket among those it gets to |
| `ResponseCapture.PieceFirst` | mod_http3/src/h3_filter.c:414-432 | reading and queueing the first piece takes exactly those bytes off what is left of the brigade |
| `ResponseCapture.ReadTakesFirst` | mod_http3/src/h3_filter.c:431-434 | reading a bucket that splits moves exactly one piece out of the brigade, and the remainder is next |
| `ResponseCapture.ResponseFilter.CapturePiece` | mod_http3/src/h3_filter.c:137-179 | captured bytes stay within the limit, and total copying within the capacity |
| `ResponseCapture.ResponseFilter.Grow` | mod_http3/src/h3_filter.c:161-174 | regrowth keeps the content, at least doubles the capacity and stays under twice the need |
| `ResponseCapture.ResponseFilter.CaptureBrigade` | mod_http3/src/h3_filter.c:343-453 | in buffered mode a brigade's readable body is captured piece by piece, and skipped unread once it is too large |
| `ResponseCapture.ResponseFilter.Capture` | mod_http3/src/h3_request.c:367-397 | over all the brigades of a request, what is to be sent is the body that `Body` says: what was read, or the fixed text |
| `DatagramQueue.NotesOwnPeer` | mod_http3/src/quic/detail/h3q_addr.c:146-191 | if every message has a place for its peer, then over any sequence of calls the address noted after a delivery is the peer of the datagram just delivered |
| `DatagramQueue.NotesOwnPeerExactly` | mod_http3/src/quic/detail/h3q_addr.c:119-172 | a delivery notes the datagram's own address if and only if the datagram had not waited, or a place for its peer was given alike when it arrived and when it is delivered |
| `DatagramQueue.StaleAddressNoted` | mod_http3/src/quic/detail/h3q_addr.c:119-172 | two calls after which the address noted belongs to no datagram |
| `DatagramQueue.WaitingHavePeers` | mod_http3/src/quic/detail/h3q_addr.c:69-105 | if every message has a place for its peer, every datagram that waits has its peer with it |
| `DatagramQueue.WaitingIsTheEnd` | mod_http3/src/quic/detail/h3q_addr.c:146-191 | over any sequence of calls, what waits is the end of what arrived |
| `DatagramQueue.DeliveredInOrder` | mod_http3/src/quic/detail/h3q_addr.c:146-191 | over any sequence of calls, what is delivered is an in-order subsequence of what arrived, with none of it twice |
| `DatagramQueue.QueueShrinks` | mod_http3/src/quic/detail/h3q_addr.c:107-116 | a queue that meets a buffer loses its head, which is delivered if and only if it fits |
| `DatagramQueue.Engine.DropHead` | mod_http3/src/quic/detail/h3q_addr.c:45-54 | the head leaves and is freed, and head, links and tail stay right |
| `DatagramQueue.Engine.Clear` | mod_http3/src/quic/detail/h3q_addr.c:56-67 | every datagram still queued is freed, once, its link read before that, and the queue is empty |
| `DatagramQueue.Engine.Fill` | mod_http3/src/quic/detail/h3q_addr.c:69-105 | a batch is queued in order and whole, or, on any failure or empty datagram, not at all |
| `DatagramQueue.Engine.Pop` | mod_http3/src/quic/detail/h3q_addr.c:107-132 | the head is delivered exactly when the buffer can hold it, and leaves the queue whenever there is a buffer |
| `DatagramQueue.Engine.RecvMmsg` | mod_http3/src/quic/detail/h3q_addr.c:146-191 | one call computes `Recv` on the linked list: at most one datagram is delivered, and the socket is asked only when nothing waits |
| `DatagramQueue.Engine.NewPendingConn` | mod_http3/src/quic/detail/h3q_addr.c:208-223 | a new connection records the peer noted last, if any |

## Left out

- OpenSSL, nghttp3, APR and httpd internals: foreign code, present only through the contracts above.
- Socket set-up, polling, wake-ups, file descriptors and `h3_socket*.c`: input and output plumbing.
- Configuration parsing, Alt-Svc, status pages, TLS variables, `h3_response_finalize` and `build_response_nva`: thin table and library calls that would only add easy members.
- Clocks, except the GOAWAY deadline and the handshake timeout, which take time as a number; idle and stall timeouts are nondeterministic answers.
- Condition variables: waiting is modelled as interference by the other thread, and liveness that depends on a handler or a peer acting is not claimed.
- ResponseQueue.Response.Append: a wait that has not ended shows as the status `StillWaiting`, because a method must return.
- RequestWorker.Append: whether memory runs out or the 64-bit length overflows is a free answer; the counter itself is in `ResponseQueue`.
- ResponseQueue.Response.AckLocked: takes only acknowledgements of offered bytes, which is what nghttp3 reports; `AckOvertakes` and `AckTotal` say what happens otherwise.
- RequestWorker.StreamWorker: a worker still waiting for room shows as `StillWaiting`; httpd's own request processing is present only as the brigades it passes on.
- RequestWorker.ServeRequest: if the handlers go on after a brigade that failed, the queue is not claimed to be a prefix of the body, because what failed is missing in the middle; only the length and the exact condition for all of it are.
- Connections.Io.Pass: takes it as an answer whose session is over; that servicing the sessions gives such answers is `EventLoop.Loop.ServiceSessions`, which does not include accepting and handshakes.
- EventThread.Session.AcceptStream: an id that is already tracked is not handled, because the transport does not repeat ids; `track_stream` would put the new handle in the old slot.
- EventThread.Session.Snapshot: gives the tracked streams in some order; the guard against a corrupted hash is not modelled.
- The streams of a session are values in one sequence rather than heap objects; the linked list behind each queue is proved separately, in `ResponseQueue`.
- Handles still in stream slots when a session is destroyed are not freed there, so handles are freed at most once, not exactly once.
- Request headers and bodies inside the session machine are reduced to what dispatching depends on; limits on them are in `RequestHeaders` and `RequestBody`.
- RequestBody.BodyBuffer.RecvData: sizes are unbounded numbers; the size arithmetic of the program does not wrap as long as H3MaxRequestBodySize is at most 2^63.
- DatagramQueue.Engine.RecvMmsg: what the socket writes into messages other than the first, and into the first when nothing is delivered, is not modelled.
- An error bucket ends a brigade in both response modes; the error response httpd then generates is not modelled.
- Connections.Io.Spawn: pool, session, control-stream and connection set-up failures are one answer, since each ends with the connection freed.
- The MPM hooks of the connection table are taken to be both present or both absent; with only one of them the balance is meaningless.
