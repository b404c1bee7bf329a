# Two multiplexed RPC protocols, and what they stand on

This project models the two RPC protocols of the repository that put many calls on one
connection, `pkg/iorpc` and `pkg/net/jnet`, together with the iorpc codec and the ring buffer
under it, and proves properties of them.

* **iorpc** (`MessageIds`, `IorpcClient`, `IorpcServer`, `IorpcSystem`, `IorpcTheorems`). Callers share a
  bounded queue and a pool of result objects; for each connection a writer loop gives out
  message IDs and files the calls, a reader loop matches the answers; calls can be evicted,
  canceled, timed out, answered, or failed when the connection ends. The server's reader takes
  a token for each request, one goroutine runs the handler, answers travel back in any order,
  and wait in the encoder's buffer until one of them flushes it (`IorpcServerTheorems`).
  Every channel operation, locked section, counter update, look at a shared object and stream
  operation is one step, and every statement holds for every interleaving.
  The client's own invariant (`IorpcClientInv`, `IorpcClientTheorems`) holds whatever IDs and
  replies the reader is given, as long as no request is answered before it was sent; in the
  joined protocol that is proved, and `IorpcWitness` has the run in which it goes wrong.
  The joined protocol hands over requests and answers as they arrive, given the encoder's buffer at
  that moment; a frame that cannot be decoded to what was encoded loses the stream, and then the
  other side may read anything. `IorpcBytes` shows that, until then, decoding the bytes on the wire
  gives exactly what is handed over.
  `IorpcMessages` is the server with its pool of messages, and refines `IorpcServer`.
  `IorpcExample` shows that the steps lead somewhere: which answers can be returned, and which
  cannot. `Runs` has what these runs have in common.
* **The iorpc codec** (`BigEndian`, `WireFormat`, `Streams`, `Framing`, `Encoders`, `Decoders`,
  `Connections`) and **the ring buffer** (`RingBuffers`): the byte formats as functions with
  their round trips, how the encoder's buffer fills, grows and flushes from frame to frame, and
  the encoder, decoder, ring and registry as classes over arrays that are updated in place,
  proved against those functions.
* **jnet** (`JnetWire`, `JnetBodies`, `JnetBatching`, `JnetCalls`, `JnetCallsInv`,
  `JnetRouting`, `JnetTheorems`, `JnetWitness`): the headers and batches on the wire, the loops
  that take batches apart and carve bodies out of 4 MiB chunks, the two loops that gather batches,
  and the whole connection as a step system: batches under a cookie, workers, pooled response
  objects, responses grouped anew, routing by batch and index. `JnetRouting` shows that the
  grouping is invisible: each step is a step of the simpler system `JnetCalls`, or none.
* **The worker pool** (`WorkerPools`): submitters, workers, the list of ready workers and the
  unbuffered channels between them, as a step system.

A step system is a `State`, an `Enabled` predicate and an `Apply` function; a run is a sequence
of states from the initial one. Fields called `loc`, `place`, `stage`, `via`, `stale`, `ends`,
`runs`, `emitted`, `sent`, `encoded`, `wire`, `batch`, `taker` or `tickets` are history: they are written by the steps so
that a statement can be made, and no step reads them.

## What the statements rest on

Each of these is a hypothesis or a branch in the model, because the code is only right under it
or does something else without it.

* A write to the ring that fits without growing panics when the content goes around the end
  (`pkg/iorpc/buffer.go:164` slices from `start+size`). `RingBuffer.Write` panics exactly then,
  `StagingPanicsExactlyWhen` says when staging a header meets it, and
  `AlignedHeadersNeverWrap` why it does not when all headers have one size that divides 4096.
  A ring without storage makes `TrySlice` divide by zero.
* The client's writer looks at `m.done` a second time after it has filed and counted the call, and
  releases the object if it is nil (`pkg/iorpc/client.go:831-834`). When a server answers before
  the request was sent, the caller may have released the object already; it is then in the pool
  twice, and two later calls share it (`EarlyAnswerSharesAnObject`). `RetestKeepsInvExactlyWhen`
  says that the invariant survives the second look if and only if the object is still tracked, or
  was never filed. In the joined protocol it always is (`IorpcSystem.RetestIsSafe`).
* `releaseAsyncResult` resets the body of the response but not its headers
  (`pkg/iorpc/client.go:252-262`), and a call that overflows, is disconnected or stopped does not
  write the response. CallTimeout then returns the headers of an earlier call that had the object;
  for a stopped call without any error. `ReturnedResultIsTheCallsExactlyWhen` has the exact
  condition, `StoppedCallReturnsForeignHeaders` a run of client and server.
* The server's writer never flushes (`pkg/iorpc/server.go:446-489`); an answer without a body stays in
  the encoder until a later one has a body or 4096 bytes wait. `AnswersAcross` is about
  answers whose bodies are supplied and that keep their start lines, up to the last flush; `AllArriveExactlyWhen` and `ReachableFlushedExactlyWhen` say when
  that is all of them.
* The start line is written through a slice of the header buffer taken before the headers are
  appended (`pkg/iorpc/encoding.go:132`, `pkg/iorpc/encoding.go:178`). When appending them moves
  the buffer, the start line on the wire stays zero. For a 32-byte header in a fresh 4096-byte
  buffer this happens exactly when 4037 to 4068 bytes are waiting, for instance after 145
  requests without header and body (`LineLostExactlyWhen`, `LineCanBeLost`). It cannot happen
  when every frame has a 32-byte header (`ReadHeadersAreKept`) or headers come only with bodies
  (`HeadersWithBodiesAreKept`). `EncodeRequest` and `EncodeResponse` state both cases for one frame;
  for a stream `SentWholeExactlyWhen` says that it is what it should be if and only if no frame,
  as capacity and length of the buffer evolve, loses its line.
* A frame arrives if and only if its body is supplied, by a reader with at least the announced
  bytes and of a size below 2^63, its headers and error text are shorter than 2^32 bytes, its start
  line is kept, and headers and error text do not get into each other's place
  (`RequestGoesExactlyWhen`, `ResponseGoesExactlyWhen`). What arrives is the same but for headers of
  an unregistered type, which are dropped, and bytes the reader has beyond the announced ones
  (`RequestArrivesUnchangedExactlyWhen`, `ReplyArrivesUnchangedExactlyWhen`).
* The end-to-end statements about iorpc (`IorpcSystem`, `IorpcTheorems`, `IorpcBytes`) are about runs
  in which no other frame was encoded, `lost == {}`. Encoding that fails ends the connection; a
  frame that is encoded and does not arrive loses the stream. What follows it is then taken for the
  missing bytes (`RequestWithoutReaderTakesTheNextBytes`,
  `ResponseWithoutReaderTakesTheNextBytes`), so that a handler may run on a request nobody made and
  an answer may go to any call; the statements about the server's tokens hold even then.
* A body that announces a size but has no reader is announced and not sent
  (`pkg/iorpc/encoding.go:98`), and so is one whose size is negative as an int64:
  `RequestDecodesExactlyWhen`, `AnswerWithoutReaderIsNotReturned`.
* The encoder puts headers before the error text, the decoder reads the error text first. A
  response survives exactly when the two byte strings commute
  (`ResponseRoundTripExactlyWhen`, with the counterexample `HeaderAndErrorSwap`); the server
  never sends both (`AnswerRoundTrip`).
* The client's reader makes an error only of a text that is not empty, so a handler's error
  with an empty text looks like success (`EmptyErrorTextIsLost`), and a call that `Stop` cuts
  off ends with a nil error. `NoErrorExactlyWhen` names all cases without an error.
* After a 64-bit wrap the search for a message ID can hand out zero, which the server reads as
  "no answer wanted": `NextIdIsZeroExactlyWhen`, `ZeroCanBeHandedOut`.
* jnet sends four bits of a command and twelve of a key length, and decodes flags into a pooled
  object that keeps old ones, and an old body when there is none to read:
  `ReqRoundTripExactlyWhen`, `OwnCommandExactlyWhen`, `ReqArrivesUnchangedExactlyWhen`.
* The jnet server's response objects come from a pool, and nothing clears their error code
  (`pkg/net/jnet/server.go:118-136`). After an invalid command, a valid one can be answered in the same
  object and fails: `ValidCommandCanFail`; `ValidCommandsKeepClean` and `CompletedOnce` say when not.
* jnet reuses a cookie after 2^64 batches. The invariant survives a flush exactly when its
  cookie is not in flight (`FlushKeepsInvExactlyWhen`); for up to 2^64 batches that is proved
  (`CookiesAreFresh`).
* The jnet client panics on a response without content, hence on data of length zero, and on a body
  that does not fit what is left of two chunks, hence on data of more than 4 MiB at some places of
  a batch (`Carve`, `ResponsesFindTheirRequests`).
* A jnet content length is a uint32, and so is the client's total of a batch. The data of a command is
  taken to be at most 2 GiB less 1 MiB long, with which no length and no total is cut
  (`SizedBatchFits`).
* A jnet body that runs over the end of a chunk is assembled and then not stored in the response
  (`pkg/net/jnet/client.go:347-351`); the caller's goroutine panics, or gets the body of an earlier
  call that had the response object (`DroppedBodyIsNotSeen`). Bodies of 4 KiB and 4 MiB in one batch
  do that (`SpanningBodyIsLost`, `SpanningBodyIsNotDelivered`). For data of at most 4 MiB a body is
  stored if and only if its place in the batch modulo 4 MiB plus its length is at most 4 MiB
  (`MadeBatch`, `CompletedWithItsOwnExactlyWhen`).
* A jnet error text travels as the body of its response, and the client reports the response's
  `ErrorMsg`, which the reader never sets (`pkg/net/jnet/client.go:421-424`). The model's result
  of a call is the error code with the body, if that was stored.
* Peers are honest, except where the client's own invariant is concerned, and have registered the
  same header types; connections are reliable and ordered.

## Model

| member | source | states |
|---|---|---|
| MessageIds.SearchEnds | pkg/iorpc/client.go:810-815 | probing upward with 64-bit wrap-around ends on a free ID after at most as many steps as there are pending calls, and everything stepped over was taken |
| MessageIds.NextIdIsFree | pkg/iorpc/client.go:804-816 | the ID handed out belongs to no pending call |
| MessageIds.NextIdGrows | pkg/iorpc/client.go:804-815 | before the counter wraps, IDs strictly increase and are not zero |
| MessageIds.NextIdIsZeroExactlyWhen | pkg/iorpc/client.go:804-815 | zero is handed out if and only if everything from the starting point to the top is pending and zero is not |
| MessageIds.ZeroCanBeHandedOut | pkg/iorpc/client.go:810-815 | a concrete counter and pending set for which the ID is zero |
| MessageIds.Allocate | pkg/iorpc/client.go:804-817 | the loop ends, leaves the counter on the ID handed out, and that ID is not pending |
| IorpcClientCount.CountAfter | pkg/iorpc/client.go:818 | a step that moves the counter and what it stands for together keeps the balance of the two modulo 2^32 |
| IorpcClientInv.StepKeepsInv | pkg/iorpc/client.go:359-413 | every step of callers, writers, readers and clean-up keeps the client's invariant, whatever the server sends, unless the second look at done meets a filed object that was released in the meantime |
| IorpcClientInv.RetestKeepsInvExactlyWhen | pkg/iorpc/client.go:831-834 | the second look at done keeps the invariant if and only if the object, when it was filed, is still tracked |
| IorpcClientInv.CallerStepKeepsInv | pkg/iorpc/client.go:221-262 | queueing, eviction, rejection, collecting, timing out and canceling keep the invariant |
| IorpcClientInv.LoopStepKeepsInv | pkg/iorpc/client.go:753-900 | taking, checking, filing, counting, reading the request, looking again, sending, receiving, delivering and cleaning up keep the invariant, under the same condition |
| IorpcClientInv.DisposeKeepsObjects | pkg/iorpc/client.go:392-401 | completing or releasing an evicted object leaves every object in one place |
| IorpcClientInv.DisposeKeepsCalls | pkg/iorpc/client.go:392-401 | and leaves every call with its own object and at most one completion |
| IorpcClientInv.FileKeepsConns | pkg/iorpc/client.go:803-825 | filing a call under a new ID overwrites no pending call and keeps the bound on the map |
| IorpcClientInv.CleanUpKeepsOwners | pkg/iorpc/client.go:744-750 | completing what is left in a pending map completes no call twice |
| IorpcClientTheorems.ReachableInv | pkg/iorpc/client.go:359-900 | the invariant holds in every state of every run in which nothing is released between the two looks of a writer |
| IorpcClientTheorems.NeverInTwoPlaces | pkg/iorpc/client.go:242-264 | where the invariant holds, a result object is in at most one of pool, caller's hand, queue, evictor's hand, writer's hand, pending map, reader's hand, and at most once in the pool |
| IorpcClientTheorems.AcceptedCallIsInOnePlace | pkg/iorpc/client.go:376-412 | an accepted call that wants an answer is completed at most once; until then some container holds its object, afterwards none does |
| IorpcClientTheorems.ReturnedResultIsTheCallsExactlyWhen | pkg/iorpc/client.go:229-232 | the error CallTimeout returns is what this very call was completed with, although the object is reused; the response is the call's own if and only if it was answered or its object came without headers, and else has an earlier call's headers |
| IorpcClientTheorems.PoolIsClean | pkg/iorpc/client.go:252-264 | a pooled object is referenced by nothing else, is once in the pool, and has no done channel, result or response body; it is not canceled, although release does not clear that flag |
| IorpcClientTheorems.OneWayIsNeverCanceled | pkg/iorpc/client.go:791-799 | the branch that releases a canceled one-way request never runs |
| IorpcClientTheorems.OverflowReplacesTheOldest | pkg/iorpc/client.go:380-412 | a call that finds the queue full gets the place of the oldest one, which fails with an overflow or goes back to the pool |
| IorpcClientTheorems.ChargesAreEntries | pkg/iorpc/client.go:865-877 | the calls the counter stands for are the entries of all pending maps and the calls readers have just taken out |
| IorpcClientTheorems.CounterIsTotal | pkg/iorpc/client.go:816-818 | pendingRequestsCount is, modulo 2^32, the total size of the pending maps up to the windows between map and counter, against any server |
| IorpcClientTheorems.CounterIsExact | pkg/iorpc/client.go:744-746 | against an honest server it is exact, never underflows and returns to zero |
| IorpcClientTheorems.PendingIsBounded | pkg/iorpc/client.go:808-823 | a pending map never has more than 10*PendingRequests+2 entries |
| IorpcClientTheorems.PromptIsStillTracked | pkg/iorpc/client.go:831-834 | a writer that still finds its call in the pending map finds it tracked on the second look |
| IorpcWitness.EarlyAnswerSharesAnObject | pkg/iorpc/client.go:817-834 | for every request and every answer given before it was sent, a run of the client after which two calls have one object |
| IorpcWitness.StoppedCallReturnsForeignHeaders | pkg/iorpc/client.go:229-262 | for all headers a handler answers with that can be sent, a run of client and server, with no stream lost, in which a call that was never answered returns them, as they arrive, without an error |
| IorpcServerInv.StepKeepsInv | pkg/iorpc/server.go:344-489 | every step of readers, goroutines and writers keeps the server's invariant |
| IorpcServerInv.TokensAfter | pkg/iorpc/server.go:380-389 | a step that starts or ends one goroutine or one spawning reader keeps the balance of tokens |
| IorpcServerInv.HandleKeepsInv | pkg/iorpc/server.go:393-415 | the handler runs at most once for a request, on that request, and its end becomes the reply |
| IorpcServerInv.ReleaseKeepsInv | pkg/iorpc/server.go:427 | a goroutine that ends gives back exactly one token |
| IorpcServerTheorems.StepKeepsBuffer | pkg/iorpc/server.go:446-489 | as long as a connection's writer runs, what is on the wire ends with the last answer that flushed, and the heads of those behind it are what waits |
| IorpcServerTheorems.AllFlushedExactlyWhen | pkg/iorpc/server.go:480 | nothing waits if and only if nothing was encoded or the last answer has a body or filled the buffer |
| IorpcServerTheorems.GoroutineEnds | pkg/iorpc/server.go:393-428 | a goroutine on a closed connection runs to its end from wherever it stands and gives its token back, and no other one moves |
| IorpcServerTheorems.TokensDrain | pkg/iorpc/server.go:380-428 | with all connections closed some steps of the server lead to a state with no goroutine and no token in use |
| IorpcMessages.StepRefines | pkg/iorpc/server.go:366-478 | every step of the server with pooled messages is, in the values it reads out of them, a step of the server without, and the early return of a message is none |
| IorpcMessages.StepKeepsInv | pkg/iorpc/server.go:366-478 | every step keeps each message in one place, with the request or answer that its holder works on |
| IorpcMessages.OneOwner | pkg/iorpc/server.go:400-404 | in every reachable state a message is in at most one of pool, reader's hand, goroutine's hand and one place of one channel, although a goroutine may give it back while its handler runs |
| IorpcMessages.ReachableRefines | pkg/iorpc/server.go:344-489 | what the server with messages reaches, the one without reaches in values |
| IorpcSystem.StepKeepsInv | pkg/iorpc/client.go:844-900 | every step of the joined protocol that loses no stream keeps the invariant that ties packets, tickets, replies and pending calls together |
| IorpcSystem.AnswerFindsItsCall | pkg/iorpc/client.go:865-875 | a reply that reaches the client is filed under its ID, for the call it answers, and is what arrives of what the one run of the handler on that call's request ended in |
| IorpcSystem.RetestIsSafe | pkg/iorpc/client.go:831-834 | in the joined protocol a filed object is always still tracked on the second look |
| IorpcTheorems.ReachableInv | pkg/iorpc/client.go:753-900 | the joint invariant holds in every state of every run, as long as no stream is lost |
| IorpcTheorems.StepRefines | pkg/iorpc/server.go:393-428 | for each call, every step of the protocol that loses no stream is a step of "run the handler once on the request as it arrives, complete once with what arrives of its end", or none |
| IorpcTheorems.AnswersAreTheHandlers | pkg/iorpc/client.go:865-898 | in every reachable state with no stream lost the handler ran at most once for a call, on its own request as it arrives, the call is completed at most once, and an answer is what arrives of what that run ended in |
| IorpcTheorems.NoErrorExactlyWhen | pkg/iorpc/client.go:879-893 | with no stream lost: CallTimeout returns no error if and only if the client was stopped under the call or the handler ran on this request and ended without an error text; the response is what arrives of the handler's, or, when the call was not answered, empty but for the headers its object came with |
| IorpcTheorems.EmptyErrorTextIsLost | pkg/iorpc/client.go:887-893 | an error with an empty text looks like a success |
| IorpcTheorems.ReachableCounterIsExact | pkg/iorpc/client.go:865-877 | in every reachable state of the whole protocol with no stream lost the counter is exact and does not underflow, in the reader or in the clean-up |
| IorpcTheorems.ReachableAnswersFindTheirCalls | pkg/iorpc/client.go:872-875 | the "unexpected msgID" error is unreachable |
| IorpcTheorems.ReachableTokens | pkg/iorpc/server.go:179-182 | over all connections the tokens are the running goroutines and the readers about to start one, never more than Concurrency |
| IorpcTheorems.ReachableTokensDrain | pkg/iorpc/server.go:380-428 | from every reachable state with all connections closed some finite run of server steps ends with no token in use |
| IorpcTheorems.ReachableFlushedExactlyWhen | pkg/iorpc/server.go:446-489 | in every reachable state everything a running writer encoded is on the wire if and only if that is nothing or the last answer has a body or filled the buffer |
| IorpcTheorems.BufferedAnswersHaveNotArrived | pkg/iorpc/encoding.go:209-228 | a call whose answer still waits in the server's buffer has not been completed with an answer |
| IorpcExample.EveryAnswerCanBeReturnedExactlyWhen | pkg/iorpc/client.go:221-240 | for every configuration with room for one call, every request and every end of the handler: some run without a lost stream returns to the first call of a connection what arrives of that end if and only if both bodies are supplied and both headers fit a fresh buffer behind the start line; an answer without a body is taken along by a second call's |
| IorpcExample.AnswerWithoutReaderIsNotReturned | pkg/iorpc/encoding.go:98 | an answer that announces five bytes and has no reader is never returned |
| IorpcExample.RequestWithShortReaderIsNotAnswered | pkg/iorpc/encoding.go:114-118 | a request whose reader has less than announced is never answered |
| IorpcExample.UnregisteredHeadersAreDropped | pkg/iorpc/encoding.go:134-135 | an answer with headers of an unregistered type can be returned, and comes without them |
| IorpcTheorems.AnsweredCallsAreSendable | pkg/iorpc/encoding.go:97-119 | in every reachable state with no stream lost, a call that was answered had a request and an answer whose bodies were supplied and whose headers and error text fit a start line |
| IorpcTheorems.ReachableServer | pkg/iorpc/server.go:344-489 | whether streams are lost or not, the server's own invariant and that of its buffers hold in every state of the joined protocol |
| IorpcBytes.ReachableWireIsPackets | pkg/iorpc/encoding.go:290-322 | in every reachable state with no stream lost, decoding the bytes on a connection gives the requests sent, as they arrive, with nothing left over, and the last ones are just the packets that the server's reader takes |
| IorpcBytes.ReachableWireIsReplies | pkg/iorpc/encoding.go:324-365 | and the other way: decoding what was flushed gives the answers encoded, as they arrive, and the last ones are just the replies that the client's reader is handed |
| IorpcBytes.StepKeepsSound | pkg/iorpc/encoding.go:126-228 | every step keeps the bytes encoded, those on the wire and the packets and replies in step with each other |
| BigEndian.GetOfPut | pkg/net/iorpc/headers.go:14-17 | big-endian integers come back as they were written |
| BigEndian.PutOfGet | pkg/net/iorpc/headers.go:25-28 | and bytes that were read are written back the same |
| WireFormat.ReadHeadersRoundTrip | pkg/net/iorpc/headers.go:13-30 | the 32-byte header decodes to what was encoded |
| WireFormat.BytesOfDecodedHeaders | pkg/net/iorpc/headers.go:21-30 | a decoded header encodes to the bytes it came from |
| WireFormat.HeadersRoundTrip | pkg/net/iorpc/headers.go:13-30 | any registered header survives encoding and decoding by its own constructor |
| WireFormat.HeaderRegistry.constructor | pkg/iorpc/encoding.go:20-22 | the registry starts with the place for no headers only |
| WireFormat.HeaderRegistry.RegisterHeaders | pkg/iorpc/encoding.go:25-29 | afterwards headers of that type arrive, and every other type as before, also when it was registered already |
| WireFormat.LineRoundTrip | pkg/iorpc/encoding.go:46-56 | a start line is read as it was written and the rest of the stream is untouched |
| WireFormat.RequestRoundTrip | pkg/iorpc/encoding.go:290-322 | a request frame, whatever follows it, decodes to its request and is counted byte for byte |
| WireFormat.RequestDecodesExactlyWhen | pkg/iorpc/encoding.go:97-108 | a frame alone on a stream decodes if and only if its body could be supplied and its size is not negative as an int64 |
| WireFormat.ResponseRoundTripExactlyWhen | pkg/iorpc/encoding.go:324-365 | a response frame decodes to its response if and only if header bytes and error text commute |
| Streams.RequestStreamRoundTrip | pkg/iorpc/encoding.go:290-322 | any sequence of requests is decoded as it was encoded, with nothing left over and all head and body bytes counted |
| Streams.AnswerRoundTrip | pkg/iorpc/server.go:430-444 | what the server answers never has both headers and an error text, and decodes |
| Streams.ResponseStreamRoundTrip | pkg/iorpc/client.go:858-893 | any sequence of answers is decoded as it was encoded and no error text leaks into the next response |
| Streams.HeaderAndErrorSwap | pkg/iorpc/encoding.go:172-207 | a response with one byte of headers and another one of error text does not survive |
| Streams.RequestArrivesUnchangedExactlyWhen | pkg/iorpc/encoding.go:134-135 | a request arrives unchanged if and only if its headers are of a registered type, or nil, and its reader has just the announced bytes |
| Streams.ReplyArrivesUnchangedExactlyWhen | pkg/iorpc/encoding.go:180-181 | and so does a response |
| Framing.RequestGoesExactlyWhen | pkg/iorpc/encoding.go:126-170 | what the encoder makes of a request, with its buffer as it is, decodes to just this request, whatever follows, if and only if body, header length and start line are right |
| Framing.ResponseGoesExactlyWhen | pkg/iorpc/encoding.go:172-228 | the same for a response, whose headers and error text must commute as well |
| Framing.RequestWithoutReaderTakesTheNextBytes | pkg/iorpc/encoding.go:98 | a request announced with a body and without a reader is decoded with the next bytes of the stream as its body |
| Framing.ResponseWithoutReaderTakesTheNextBytes | pkg/iorpc/encoding.go:98 | and so is a response |
| Framing.LineKeptOnceGrown | pkg/iorpc/encoding.go:126-149 | a buffer that has grown once never loses a start line to a header of up to 4068 bytes |
| Framing.LineLostExactlyWhen | pkg/iorpc/encoding.go:127-142 | in a fresh buffer the start line of a frame with a 32-byte header is lost if and only if 4037 to 4068 bytes wait |
| Framing.LineCanBeLost | pkg/iorpc/encoding.go:127-142 | 145 frames without headers and bodies get there; frames with 32-byte headers never do, in a fresh or a grown buffer |
| Framing.SentWholeExactlyWhen | pkg/iorpc/encoding.go:126-228 | a stream of frames is what it should be if and only if no frame loses its start line, with capacity and length of the buffer followed from frame to frame |
| Framing.ReadHeadersAreKept | pkg/iorpc/encoding.go:127-142 | frames that all have 32-byte headers lose no line, however many and whatever their bodies |
| Framing.HeadersWithBodiesAreKept | pkg/iorpc/encoding.go:98-101 | nor do frames whose headers come only with bodies |
| Framing.AllOnWireExactlyWhen | pkg/iorpc/encoding.go:97-119 | all frames are on the wire if and only if the last one flushes, that is, has a body or fills the buffer |
| Framing.RestWaits | pkg/iorpc/encoding.go:82-95 | the frames not on the wire have no body, and the bytes that wait are their heads |
| Framing.WireEndsAtFlush | pkg/iorpc/encoding.go:82-119 | the wire holds just the frames up to the last that flushed |
| Encoders.MessageEncoder.constructor | pkg/iorpc/encoding.go:230-236 | an encoder starts with nothing written and an empty buffer |
| Encoders.MessageEncoder.Flush | pkg/iorpc/encoding.go:82-95 | afterwards the wire holds all frames so far, and the buffer's bytes are counted as head |
| Encoders.MessageEncoder.AppendHead | pkg/iorpc/encoding.go:172-207 | placeholder, headers, start line, error text: what ends up in the buffer, with the start line or with zeros |
| Encoders.MessageEncoder.EncodeBody | pkg/iorpc/encoding.go:97-119 | the body follows everything buffered, and is counted; a reader that runs short is an error |
| Encoders.MessageEncoder.EncodeRequest | pkg/iorpc/encoding.go:151-170 | one frame more behind the others, whole or with a zero start line in exactly the case that the buffer moved; the wire grows exactly when the frame flushes; how much waits, the capacity and every byte count are stated |
| Encoders.MessageEncoder.EncodeResponse | pkg/iorpc/encoding.go:209-228 | the same for a response, what stays buffered included |
| Encoders.WriteRequests | pkg/iorpc/client.go:828-840 | the writer's loop over any requests, with or without headers: frames in order as the evolving buffer leaves them, the wire up to the last that flushed, all bytes counted |
| Encoders.WriteAnswers | pkg/iorpc/server.go:446-489 | the server writer's loop with its one reused message and without a flush: the same for its answers |
| Decoders.MessageDecoder.constructor | pkg/iorpc/encoding.go:367-373 | a decoder starts with an empty ring of the given capacity |
| Decoders.MessageDecoder.CopyToRing | pkg/iorpc/encoding.go:302-306 | for every chunking of the reads the ring holds exactly the header bytes, with no write out of range |
| Decoders.MessageDecoder.StageHeader | pkg/iorpc/encoding.go:302-308 | staging and slicing give exactly the header bytes, as an uncopied slice, and leave the ring at a multiple of the header size |
| Decoders.MessageDecoder.DecodeBody | pkg/iorpc/encoding.go:262-288 | exactly the announced bytes become the body and are counted, or the stream was too short |
| Decoders.MessageDecoder.DecodeRequest | pkg/iorpc/encoding.go:290-322 | agrees with the parsing function on message, rest of the stream and both byte counts |
| Decoders.MessageDecoder.DecodeResponse | pkg/iorpc/encoding.go:324-365 | the same for a response, an error text left in the reused message included |
| Decoders.ReadRequests | pkg/iorpc/server.go:357-378 | the reader's loop takes exactly the encoded requests off a stream and counts their bytes |
| Decoders.ReadAnswers | pkg/iorpc/client.go:858-893 | the client reader's loop with its one reused message takes exactly the encoded answers off a stream |
| Connections.RequestsAcross | pkg/iorpc/encoding.go:87-119 | encoded, flushed and decoded, requests that lose no start line arrive in order, and HeadWritten equals HeadRead and BodyWritten equals BodyRead |
| Connections.RequestsAreSentExactlyWhen | pkg/iorpc/encoding.go:126-170 | what is on the wire after the flush is the stream of the requests' frames if and only if none loses its start line |
| Connections.AnswersAcross | pkg/iorpc/server.go:446-489 | without a flush, the answers up to the last one that flushed arrive in order and both sides count the same bytes; the heads of the others wait in the buffer |
| Connections.AllArriveExactlyWhen | pkg/iorpc/server.go:480 | all answers arrive if and only if there are none, or the last one has a body, or its head fills the buffer |
| Connections.LoneAnswerArrivesExactlyWhen | pkg/iorpc/server.go:430-444 | an answer alone arrives if and only if it flushes; an error if and only if its frame has 4096 bytes |
| RingBuffers.HeldAfterTaking | pkg/iorpc/buffer.go:93-101 | moving the start modulo the capacity drops the oldest bytes |
| RingBuffers.HeldAfterWriting | pkg/iorpc/buffer.go:156-169 | writing behind the content, around the end if need be, appends |
| RingBuffers.PerformIsFifo | pkg/iorpc/buffer.go:103-169 | under any sequence of writes, reads and slices that does not panic, what was taken followed by what is left is what was there followed by what was written |
| RingBuffers.StagingPanicsExactlyWhen | pkg/iorpc/buffer.go:164-167 | copying a header in chunks panics if and only if some chunk but the last ends past the end of the storage |
| RingBuffers.AlignedHeadersNeverWrap | pkg/iorpc/buffer.go:125-169 | with headers of one size that divides the capacity nothing panics, every header comes back uncopied, and before each and after the last the start is a multiple of the size |
| RingBuffers.WrappedWritePanics | pkg/iorpc/buffer.go:164 | a ring of four bytes for which a write of one byte panics |
| RingBuffers.RingBuffer.constructor | pkg/iorpc/buffer.go:62-66 | a new ring is empty |
| RingBuffers.RingBuffer.Read | pkg/iorpc/buffer.go:103-123 | takes out the oldest bytes in order, as many as fit, and says end of file exactly when there are none |
| RingBuffers.RingBuffer.TrySlice | pkg/iorpc/buffer.go:125-148 | takes out up to so many bytes, uncopied exactly when they lie in one piece, and panics exactly without storage |
| RingBuffers.RingBuffer.Write | pkg/iorpc/buffer.go:150-169 | appends, in new storage exactly when there is too little room, and panics exactly when the content goes around and there is room |
| JnetWire.DescRoundTrip | pkg/net/jnet/client.go:27-42 | a batch descriptor is read as it was written |
| JnetWire.KeyLengthOnWire | pkg/net/jnet/client.go:61-83 | the peer sees the key length modulo 4096 and the command modulo 16 |
| JnetWire.ReqRoundTripExactlyWhen | pkg/net/jnet/client.go:61-93 | a request header survives if and only if the command is below 16, the key below 4096 bytes and the object decoded into has no flag of its own |
| JnetWire.ReqHeadsFit | pkg/net/jnet/server.go:48 | the headers of 64 requests fit one mebibyte |
| JnetWire.UnpackRequests | pkg/net/jnet/server.go:72-91 | the header loop ends with nothing left and has the requests in order, each with its own body, whatever objects they are decoded into |
| JnetWire.ReqArrivesUnchangedExactlyWhen | pkg/net/jnet/client.go:79-93 | a request arrives unchanged if and only if its object has no flag that it has not and, unless there is a body to read, has its body already |
| JnetWire.ArrivesInSomeObject | pkg/net/jnet/server.go:75-89 | what can arrive of a request is just what some pooled object makes of it |
| JnetWire.ReceiveRequests | pkg/net/jnet/server.go:55-91 | a whole batch: the cookie, the requests in order in pooled objects, and the stream behind them |
| JnetWire.RespRoundTrip | pkg/net/jnet/client.go:108-128 | a response header is read as it was written |
| JnetWire.UnpackResponses | pkg/net/jnet/client.go:303-316 | the header loop has all headers of the batch in order and ends with nothing left |
| JnetBodies.Fetch | pkg/net/jnet/client.go:318-332 | the chunks hold the bodies of the batch one after the other, and nothing more is read |
| JnetBodies.SliceOfChunk | pkg/net/jnet/client.go:338 | a slice of one chunk is the slice of the data at the same place, and is not out of range |
| JnetBodies.CarveOne | pkg/net/jnet/client.go:336-353 | one turn that does not panic yields the next slice of the data, of any length, stored or dropped, and keeps bodyIdx*4MiB+off equal to what was carved so far |
| JnetBodies.Carve | pkg/net/jnet/client.go:333-356 | bodies of any lengths: every response up to the first that panics gets its slice of the stream of bodies, stored exactly when it fits what is left of its chunk; the loop panics exactly at a length of zero or one past the end of the second chunk |
| JnetBodies.OffIsOffset | pkg/net/jnet/client.go:341-351 | as long as no body is longer than a chunk, off is where the body starts modulo 4 MiB |
| JnetBodies.SmallBodiesDoNotPanic | pkg/net/jnet/client.go:336-356 | then the loop panics only on empty bodies, and a body is stored if and only if place modulo 4 MiB and length come to at most 4 MiB |
| JnetBodies.SplitBodies | pkg/net/jnet/server.go:165-170 | the bodies of a batch are those of its parts one after the other |
| JnetBodies.OffsetIsLength | pkg/net/jnet/client.go:310-314 | announced lengths add up to where each body starts |
| JnetBodies.ShareIsBody | pkg/net/jnet/client.go:333-353 | the slice a response gets is the body sent for it |
| JnetBodies.ReceiveResponses | pkg/net/jnet/client.go:287-353 | a whole batch: headers and bodies in order, error texts included, stored or dropped, up to one that panics; and the stream behind them |
| JnetBatching.SubmitWorker | pkg/net/jnet/client.go:226-270 | the nested accumulating loops, with the limits of either side, do what the folding function says |
| JnetBatching.NothingIsLost | pkg/net/jnet/server.go:205-246 | the flushed batches and the current one spell out the dequeued items in order |
| JnetBatching.FlushedInTime | pkg/net/jnet/client.go:247-262 | no batch has a full part, and the current one is not full |
| JnetBatching.EarlyOnesAreTicked | pkg/net/jnet/client.go:256-257 | there are at most as many batches flushed before they were full as there were ticks |
| JnetBatching.BatchIsBounded | pkg/net/jnet/client.go:247-255 | a batch has at most the counted number of items, and its payload is below the limit plus twice the largest item |
| JnetBatching.RequestBatchesFit | pkg/net/jnet/client.go:249-251 | a flushed batch has 1 to 64 requests, whose headers fit the server's buffer |
| JnetBatching.BodiesArePayload | pkg/net/jnet/client.go:113-118 | what travels is what was counted, plus the error texts |
| JnetBatching.SizedBatchFits | pkg/net/jnet/client.go:310-318 | with data of up to 2 GiB less 1 MiB a batch gathered in time has 1 to 65 responses, whose headers fit the client's buffer and whose lengths add up to a uint32 |
| JnetBatching.ResponseBatchFits | pkg/net/jnet/server.go:219-226 | a batch gathered in time has 1 to 65 responses, 1300 header bytes and 9 MiB of content and short texts at most, so the client's uint32 total is exact |
| JnetBatching.ResponseBatchesFit | pkg/net/jnet/server.go:205-246 | every batch the server flushes is one |
| JnetBatching.MadeBatch | pkg/net/jnet/client.go:333-356 | of a batch the server made nothing panics, and a body is stored if and only if place modulo 4 MiB and length come to at most 4 MiB |
| JnetBatching.SpanningBodyIsLost | pkg/net/jnet/client.go:346-352 | bodies of 4 KiB and 4 MiB make a batch that the server sends and of which the client drops the second |
| JnetBatching.ReceiveAll | pkg/net/jnet/client.go:280-353 | however the responses were grouped, the client gets exactly them, in order, each with its own header and body, stored or dropped as its batch has it, and reads the stream to its end; or it gets those before the first that panics, exactly when there is one |
| JnetBatching.FromServerToClient | pkg/net/jnet/server.go:196-248 | from the server's channel to the client's reader: all responses flushed, in order, stored or dropped as their batches have it; the others are still being gathered |
| JnetBatching.UnbundleAll | pkg/net/jnet/server.go:102-107 | the server hands out exactly the requests sent, in pooled objects, under their cookie and numbered within their batch |
| JnetBatching.FromClientToServer | pkg/net/jnet/client.go:183-270 | from the client's channel to the server's workers: all requests flushed, in order, in batches of 1 to 64 under consecutive cookies |
| JnetCallsInv.Shipped | pkg/net/jnet/client.go:197-202 | a flush moves exactly the requests of its batch, each to its own index |
| JnetCallsInv.FlushKeepsInv | pkg/net/jnet/client.go:183-203 | filing a batch under a cookie not in flight keeps the invariant |
| JnetCallsInv.FlushKeepsInvExactlyWhen | pkg/net/jnet/client.go:197-202 | and if the cookie is in flight, it does not |
| JnetCallsInv.TakeKeepsInv | pkg/net/jnet/server.go:102-107 | handing a request to a worker keeps the invariant |
| JnetCallsInv.AnswerKeepsInv | pkg/net/jnet/server.go:117-146 | answering a request, in a clean object or in one that has an error code, keeps the invariant |
| JnetCallsInv.RoutePanicsExactlyWhen | pkg/net/jnet/client.go:346-374 | routing panics if and only if the command's data is what was sent and is empty or does not fit what is left of two chunks |
| JnetCallsInv.EntryGoesLast | pkg/net/jnet/client.go:366-371 | routing removes exactly one index from those outstanding, and deletes the entry only with the last |
| JnetCallsInv.CompleteKeepsInv | pkg/net/jnet/client.go:357-373 | routing keeps the invariant |
| JnetRouting.UnbundleUndoesFlush | pkg/net/jnet/server.go:102-105 | the server numbers the requests of a batch as the client filed them |
| JnetRouting.MovesKeepView | pkg/net/jnet/server.go:211-246 | gathering, writing, receiving and flushing change neither the calls nor the order of requests and responses on their way |
| JnetRouting.StepRefines | pkg/net/jnet/client.go:226-376 | every step with batches is a step without them, or none |
| JnetRouting.StepKeepsGroups | pkg/net/jnet/server.go:219-226 | every step keeps the batches gathered in time and the reader's place in its batch where the carving loop is |
| JnetRouting.ProcessedIsMade | pkg/net/jnet/server.go:117-146 | what a worker makes is a response the batching can carry if and only if the command is invalid or its data is at most 4 MiB and, in a clean object, not empty |
| JnetRouting.ReachableIsGood | pkg/net/jnet/client.go:183-376 | the invariant holds in every state of every run without a reused cookie |
| JnetRouting.CookiesGrow | pkg/net/jnet/client.go:193-197 | before it wraps, the next cookie is the number of batches sent and larger than all in flight |
| JnetRouting.CookiesAreFresh | pkg/net/jnet/client.go:193-197 | no cookie is reused while in flight in a run of at most 2^64 batches |
| JnetTheorems.LeftIsWhatIsOnItsWay | pkg/net/jnet/client.go:365-371 | in every reachable state `left` of a batch is the number of its calls not completed and the number of its requests and responses in streams, worker pool and channels, and is not zero; of a batch not in the table there is nothing anywhere |
| JnetTheorems.EntryLeavesWithTheLast | pkg/net/jnet/client.go:366-371 | a batch leaves the table if and only if the step completes its last call |
| JnetTheorems.ResponsesFindTheirRequests | pkg/net/jnet/client.go:333-373 | every response finds its batch and its index, the request there is the one it answers and is not closed; the "not found" branch is unreachable; the reader panics if and only if the data sent is empty or does not fit what is left of two chunks |
| JnetTheorems.NeverPanicsWithData | pkg/net/jnet/client.go:346-356 | with data of 1 byte to 4 MiB for every command the reader never panics |
| JnetTheorems.CompletedOnce | pkg/net/jnet/client.go:372-373 | a request's channel is closed at most once; it has the result for its own command if and only if its body was stored and no valid command was answered in an object with an error code |
| JnetTheorems.CompletedWithItsOwnExactlyWhen | pkg/net/jnet/client.go:337-373 | with data of at most 4 MiB: the call completed next gets its own result if and only if its response object was clean or its command invalid, and place in the batch modulo 4 MiB and length come to at most 4 MiB |
| JnetTheorems.DroppedBodyIsNotSeen | pkg/net/jnet/client.go:414-435 | a caller whose body was dropped panics or gets what the response object had before |
| JnetTheorems.ValidCommandsKeepClean | pkg/net/jnet/server.go:118-146 | as long as no connection is sent an invalid command no response is made in an object with an error code |
| JnetTheorems.RepliesAreReceivable | pkg/net/jnet/server.go:205-246 | in every reachable state each batch on the way to the client was gathered in time and fits the client's buffers, whatever the data; with data for every command none makes it panic |
| JnetTheorems.ReceiveReachable | pkg/net/jnet/client.go:280-353 | of the bytes of the stream of any reachable state the client's reader makes exactly the responses in it, up to the first that makes it panic; with data for every command, all of them |
| JnetTheorems.RoutedAsCarved | pkg/net/jnet/client.go:333-353 | the reader of the step system gives a call just what the carving loop gives its response |
| JnetWitness.SpanningBodyIsNotDelivered | pkg/net/jnet/client.go:346-373 | commands 0 and 4 with data of 4 KiB and 4 MiB: a run that completes the second call without its body |
| JnetWitness.ValidCommandCanFail | pkg/net/jnet/server.go:118-136 | a run in which command 0 fails with the error of an invalid command before it |
| JnetTheorems.OwnCommandExactlyWhen | pkg/net/jnet/server.go:122-136 | cutting the command to four bits does no harm if and only if it makes no valid command of an invalid one |
| JnetTheorems.NoRequestIsLost | pkg/net/jnet/client.go:164-178 | a request not completed waits or is outstanding in its batch |
| WorkerPools.WorkerPool.Pop | pkg/net/jnet/pool.go:48-56 | takes the last entry off the list, if there is one |
| WorkerPools.WorkerPool.Push | pkg/net/jnet/pool.go:33-35 | puts an entry where Pop finds it |
| WorkerPools.StepKeepsInv | pkg/net/jnet/pool.go:30-62 | every step of submitters and workers keeps the pool's invariant |
| WorkerPools.HandOverKeepsInv | pkg/net/jnet/pool.go:52-60 | a request goes to a new worker or to the one its submitter took, and to no other |
| WorkerPools.HeldByOneUntilProcessed | pkg/net/jnet/pool.go:30-62 | a request is processed at most once, and until then exactly one submitter or worker has it |
| WorkerPools.ReadyWorkersAreIdle | pkg/net/jnet/pool.go:33-36 | the list has no entry twice, and every listed worker is idle and taken by nobody |
| WorkerPools.IdleWorkersAreFound | pkg/net/jnet/pool.go:36-44 | an idle worker is on the list or taken by a submitter, never both and never neither |
| WorkerPools.TakenWorkersAreOnesOwn | pkg/net/jnet/pool.go:50-54 | no two submitters have taken the same worker, and the hand-over is at most one step of that worker away |

## Left out

- Concurrency is modelled by step systems on values: the loops of `pkg/iorpc/client.go`, `pkg/iorpc/server.go` and the jnet workers are not methods on shared objects there; their sequential parts (ID search, codec, ring, batching, unpacking, carving, the ready list) are methods.
- Batch of `pkg/iorpc/client.go`: its timeout path cancels objects that are pooled already and its early error return leaves channels open, so ownership and completion do not extend to it.
- Timers, dialing, OnConnect, the handshake byte and compression: a timeout is a step that can happen at any time, and the client's flush timer runs off between frames only; the others are left out.
- Splice, pipes and file descriptors (`pkg/iorpc/body.go`, `utils/splice_utils.go`): foreign calls. A body is a byte sequence of known size, and its Offset is not used.
- I/O errors in the middle of a frame: a connection can end between steps, but not within a write. After an encoder's error nothing is said about its state.
- IorpcMessages.StepRefines: messages and result objects are references into a map, with the fields the protocol uses; the client address and statistics are not among them.
- Registries and header types with index or length errors: the panics there are failures of decoding, which the loops recover from.
- Encoders.MessageEncoder.Append: a bytes.Buffer that is full doubles its capacity or takes what is needed; the rounding of the allocator is not modelled, and a new backing store is new.
- Headers are encoded by one write of all their bytes, as ReadHeaders does.
- RingBuffers.RingBuffer.Write: growing always takes new storage of just the size needed, where Go's append may reuse or over-allocate; slices handed out by TrySlice are values, so aliasing with later writes is not modelled.
- Decoders.MessageDecoder.StageHeader: headers all have one size that divides the ring's capacity; without that `RingBuffers.StagingPanicsExactlyWhen` says when staging fails.
- Connections.AnswersAcross: requires that no start line is lost, which `Framing.SentWholeExactlyWhen` shows to be what the stream needs; what a decoder makes of a zero start line is not followed, nor what happens to the calls of a connection whose stream is lost.
- IorpcExample.EveryAnswerCanBeReturnedExactlyWhen: is about the first call of a connection; for a later one the buffer may have grown, and longer headers fit.
- Encoders.WriteRequests: the flush timer is in `IorpcSystem.FlushRequests`, not in this loop.
- JnetCalls.Process: the data of a command is at most 2 GiB less 1 MiB long; beyond that lengths are cut to 32 bits, which is not modelled. The objects of the client's and the server's pools are not followed one by one; a response object has an error code or not, and a request object any flags and body.
- JnetBodies.Carve: the total of a batch is below 2^32, as `JnetBatching.ResponseBatchFits` proves for the server's; the reference counts of body buffers are not modelled, since they are raised while earlier bodies are handed out already.
- JnetRouting.StepRefines: batches are values on the streams; that their bytes carry them is `JnetBatching.FromClientToServer` for requests and `JnetTheorems.ReceiveReachable` for responses.
- jnet reconnects, I/O errors and closing: they panic or end the process's workers.
- Checksums, compression and statistics other than byte counts: not part of the properties.
- tcppool, quic, gonet, tcpsendfile, perf, gorpc, grpc, RDMA, FUSE, the command line and generated code: one request at a time, wrappers over libraries, foreign calls or constants.
