# A verified model of the Ethereum consensus node crawler

The crawler discovers nodes of the consensus layer, asks each of them for its status again and again,
keeps what it learns in a document store, writes a record of every successful visit to a file, and
answers statistical queries about the documents. This project models its four cores and proves what
they are meant to guarantee.

**The peer-job protocol** (`Crawler*.dfy`, with `Peers`, `UserAgents`, `PeerStore`). One discovery loop, one
selector, a pool of workers and one output writer share a document store, a bounded job channel and an output
channel that is closed at the end. `Crawler` is a state machine of which each step is one atomic operation on
the store, on a channel, or on a job's own copy of a peer. The clock may advance between any two steps, the
store may fail with or without having applied a write, attempts to reach a node end in any way, and the
context may be cancelled at any time. Every update replaces a whole document by the job's copy, so documents
carry the number of the write that made them. Of the files, `CrawlerDocuments`, `CrawlerOutput`,
`CrawlerRecords`, `CrawlerJobs`, `CrawlerHands` and `CrawlerTimes` have one invariant each, `CrawlerRuns` carries
the first four over whole runs, `CrawlerFairness` and `CrawlerUuids` draw conclusions about whole runs,
`CrawlerOverlap` and `CrawlerShutdown` show what goes wrong outside the assumptions and at the end,
`CrawlerFinish` when the end can be reached, `CrawlerCode` has the selector's round, the worker's job and the
drain loop in the imperative form of the program, and `CrawlerRound` shows that the round is a run of the machine.

**Request and response framing** (`Varint`, `BufLimitReader`, `Encoding`, `ResponseHandler`,
`ResponseTheorems`, `RequestHandler`, `RequestRuns`). The stream below the reader cuts its bytes into pieces
of any sizes, and may report its end together with its last bytes. The buffered reader is a class over an
array with the ghost sequence of bytes still to be delivered; the response handler is proved to do what a
decoder on plain bytes does, and the theorems are about that decoder. The wire format is that of the section
"Req/Resp interaction" of the consensus specifications' phase 0 networking document; lengths are Base 128
varints.

**Clock and fork choice** (`Clock`, `Fork`). Slot arithmetic, the two chained tickers and the consumer
that keeps the current fork digest, composed from clock readings to digest.

**Aggregation** (`Grouping`, `Aggregates`, `Numerals`, `Hardfork`). The queries' group stages, which the
database may return in any order, and the resolvers' loops over them.

## Where the program differs from its intent

- A job that outlasts the configured time between two jobs lets its peer be selected again; two jobs then
  hold copies of one document and one overwrites the other's update. `CrawlerJobs.DuplicateIffOverdue` has
  the conditions, `CrawlerOverlap.OverdueJobLosesUpdate` a run.
- Shutdown can hang: the selector looks at the context before it sends a job, but not while it waits for room in
  the channel (`crawler/crawl/crawl.go:244-251`). `CrawlerShutdown.ShutdownCanHang` has a run, and
  `CrawlerFinish.CanFinishIff` the exact condition under which an end can still be reached.
- `maxRequestContentSize` is captured by the stream handler and changed by compressed and by invalid requests
  (`crawler/rpc/request/handle_request.go:68` and `:73`). `RequestRuns.JudgedAsConfigured` says which streams are
  judged by the configured limit, `RequestRuns.ValidAfterTooLong` has a stream that is not.
- The comment at `crawler/rpc/request/handle_request.go:20` says that the reader of an invalid request will
  not read anything more. `RequestHandlers.ReadRefused` proves that it reads exactly one more byte if there is
  one, and `RequestHandlers.ReadTooLong` has a request for which it does.
- A maximum of 2^63 or more wraps to a negative reader limit (`crawler/rpc/request/handle_response.go:65`),
  and then sizes pass the check that cannot be read; `ResponseTheorems.ReadableIff` has the condition.
- A response that is cut off is reported only if the cut falls into a header
  (`crawler/rpc/request/rpc_method.go:163-167`); `ResponseTheorems.CutReportedIff` has the exact conditions.
- A read can count bytes it has not copied (`crawler/rpc/request/buf_limit_read.go:75-82`, against the comment at
  line 35). `BufLimitReaders.BufLimitReader.Miscounts` is the exact condition before the call,
  `BufLimitReaders.MiscountingRead` an input. In consequence a request whose header ends the stream may be
  refused (`RequestHandlers.HeaderOnly`).
- `getForkForEpoch` ignores its argument and uses the current epoch. As its callers set that first, the digest
  is right nevertheless.

## Model

| member | source | states |
|---|---|---|
| CrawlerRuns.EveryStateIsSafe | crawler/crawl/crawl.go:203-323 | In every state of every run, with overlapping jobs, stale writes, failing store calls and cancellation: a connectable peer has an agent and a sync status; stored and queued scores are 1 to 3; nobody is about to send on the closed channel; every record sent is of a complete connectable peer. |
| CrawlerRuns.SafeStep | crawler/crawl/crawl.go:225-323 | Each step of the discovery loop, the selector, a worker or the writer keeps all of these invariants. |
| CrawlerDocuments.DocumentsStep | crawler/crawl/crawl.go:276-323 | Each step keeps documents and the jobs' copies of them well-formed, although every write replaces a whole document by a copy that may be stale. |
| CrawlerRuns.UpdateNeverRevives | store/peerstore/mongo/mongo.go:32-64 | A document that is not stored appears in a step exactly if discovery created it: replacing without upsert cannot bring back a peer that was deleted. |
| CrawlerRuns.OneJobPerPeer | crawler/crawl/crawl.go:225-323 | If no job is overdue whenever a batch is listed, then in every interleaving no peer has two live jobs, every job's copy derives from the version stored, and every stored score is 3 minus the failed jobs in a row. |
| CrawlerRuns.DeletionsAreEarned | crawler/crawl/crawl.go:303-322 | Under the same condition, in every run: a job that ends replaces or deletes exactly the version it was derived from, and deletes the peer exactly if it failed and was refused a security negotiation or is the third failure in a row. |
| CrawlerJobs.JobsStep | crawler/crawl/crawl.go:233-323 | The invariant behind that: each step keeps exclusive jobs, current copies and counted scores. |
| CrawlerJobs.DuplicateIffOverdue | store/peerstore/mongo/mongo.go:145-168 | A listing picks up the peer of a live job only if that job is overdue and fewer peers than the limit are due and older; and it does so if the job is overdue and no more peers than the limit are due and no younger. Only ties of equal age are the database's choice. |
| CrawlerJobs.ListedIff | store/peerstore/mongo/mongo.go:145-168 | The same for any document and any part of an answer: how many older ones may precede it, and how many no younger ones let it in for sure. |
| CrawlerOverlap.OverdueJobLosesUpdate | crawler/crawl/crawl.go:233-323 | A concrete run in which a job of two minutes, with one minute between jobs, leads to a second job for the peer and then overwrites what the second selection wrote: the stored selection time goes back, and the second job's copy is stale. |
| CrawlerRuns.EveryRecordIsWritten | output/file.go:64-97 | When the writer has ended, the file holds every record sent in the run exactly once and in the order of sending, followed by null lines only. |
| CrawlerOutput.PipelineStep | output/file.go:64-113 | Each step keeps the account of records: those sent are those in the file followed by those in the channel, and a worker has at most one job. |
| CrawlerOutput.NoSendAfterClose | crawler/crawl/crawl.go:203-217 | The output channel is open as long as a worker is about to send. |
| CrawlerOutput.FileIsComplete | crawler/crawl/crawl.go:212-214 | The conservation as a fact about one state, and that closing is enabled only while the channel is open, so that it happens once. |
| CrawlerUuids.UuidsNeverRepeat | crawler/crawl/crawl.go:292-302 | In every run within the range of the clock, the bytes hashed for the records' UUIDs are pairwise distinct, overlapping jobs, stale documents and re-created peers included. |
| CrawlerUuids.PreimageDetermines | crawler/crawl/crawl.go:292-298 | The ID followed by the eight little-endian bytes of the time determines both, for IDs of any lengths and negative times too. |
| CrawlerUuids.PreimageBytes | crawler/crawl/crawl.go:292-298 | The bytes hashed are those of the ID and then the eight bytes of the time in two's complement, the least significant first. |
| CrawlerRecords.RecordsStep | crawler/crawl/crawl.go:225-253 | Each step keeps selection times unique: batches have distinct peers and are separated by the sleep, so no job that may still send shares ID and selection time with another or with a record sent. |
| CrawlerFairness.BoundedWaiting | store/peerstore/mongo/mongo.go:145-168 | After any run from the start, in an undisturbed continuation, a peer that is due and has no job is listed before the peers stored that were updated no later than it have been gone through at one full batch per round. |
| CrawlerFairness.SkippingRun | crawler/crawl/crawl.go:225-253 | As long as such a peer is skipped, more peers are waiting ahead of it than the rounds so far had room for. |
| CrawlerFairness.ListingTakesFromAhead | store/peerstore/mongo/mongo.go:145-168 | A listing that skips an eligible peer takes a full batch from the peers ahead of it. |
| CrawlerFairness.WaitingShrinks | crawler/crawl/crawl.go:237-323 | No other step of an undisturbed run puts a peer ahead of the one that waits, or makes that one ineligible. |
| CrawlerCode.UpdatePeerInfo | crawler/crawl/crawl.go:276-323 | One call leaves store, output channel and peer record as the machine's steps Gather, Send (if connectable) and Store do, or is blocked with nothing written, exactly if the machine's Send is not enabled because the output channel is full. |
| CrawlerCode.SelectPendingAndExecute | crawler/crawl/crawl.go:225-253 | One round lists the batch, or the part of it that a failing cursor yields, stamps the peers one by one and turns the confirmed ones into jobs in listing order; an error skips one peer, and the round ends early exactly at a cancelled context or at a send for which the channel has no room. |
| CrawlerCode.OnlySelectionTimes | crawler/crawl/crawl.go:233-243 | After any part of a round, each peer whose update was applied has its selection time and is otherwise as listed; no other document has changed, come or gone. |
| CrawlerRound.SelectorRound | crawler/crawl/crawl.go:225-253 | The round as the code runs it refines the machine, whatever is queued at the outset and however the round ends: there is a run that leaves the same documents and has exactly the round's jobs in its channel, in order, and in which the selector rests, or holds a job that the full channel does not take. |
| CrawlerRound.RoundIsARun | crawler/crawl/crawl.go:233-252 | Finding the context alive, listing, and stamping, looking and enqueueing peer by peer are enabled step by step, whatever the store answers and whether the round completes, gives up or blocks. |
| CrawlerShutdown.StuckForever | crawler/crawl/crawl.go:244-251 | When the selector waits to send to a full channel and all workers have exited, then in no continuation is the output channel closed or does the writer end. |
| CrawlerFinish.CanFinishIff | crawler/crawl/crawl.go:203-274 | From every state that a run can reach, the writer can still come to its end if and only if the selector is not in that situation, whatever has been cancelled, queued or closed by then. |
| CrawlerFinish.SomethingHelps | crawler/crawl/crawl.go:203-303 | From every cancelled state that is not stuck there is a step of the selector, a worker or the writer that leads nearer to the end. |
| CrawlerHands.HandsStep | crawler/crawl/crawl.go:233-274 | Each step keeps that the selector has a job in hand for each peer of the batch still to come, and that each slot of the jobs channel is filled and there are no more of them than workers. |
| CrawlerShutdown.ShutdownCanHang | crawler/crawl/crawl.go:203-253 | Such a state is reached: a concrete run with one worker and two peers in which the context is cancelled just after the selector has found it alive. |
| CrawlerCode.Output.Drain | output/file.go:70-82 | The drain loop writes what is in the channel and what still arrives, each once and in order, however sends and receives interleave. |
| CrawlerCode.Output.Receive | output/file.go:96-102 | Receiving appends one line, which is null on the closed and emptied channel. |
| PeerStores.MongoStore.Create | store/peerstore/mongo/mongo.go:32-42 | Inserts a peer unless its ID is stored. |
| PeerStores.MongoStore.Update | store/peerstore/mongo/mongo.go:44-53 | Replaces the document if there is one, and does nothing otherwise. |
| PeerStores.MongoStore.Delete | store/peerstore/mongo/mongo.go:55-64 | Removes the document and no other. |
| PeerStores.MongoStore.ListForJob | store/peerstore/mongo/mongo.go:145-168 | Distinct IDs of documents older than the bound, in order of age, and none passed over for a younger one; as many as there are up to the limit, unless the cursor fails on the way, which shortens the list without an error. |
| Peers.CollectNodeInfo | crawler/crawl/crawl.go:325-406 | The retry loop in place changes the record as the fold over its attempts says, and answers true exactly if some attempt succeeds before any is cancelled; then the record has that attempt's agent, protocol version and digest and a sync status from its head, and otherwise digest, protocol version and sync status are as before. |
| Peers.CollectSucceedsIff | crawler/crawl/crawl.go:331-394 | The same of the fold, over the attempts alone: success, what is entered, and what stays. |
| Peers.LastHeardIsKept | crawler/crawl/crawl.go:366-379 | After a failure, the agent is that of the last attempt that heard one, although it did not complete; if none did, it is as before. |
| Peers.RefusedIff | crawler/crawl/crawl.go:346-361 | A job counts as refused exactly if a security negotiation failed in an attempt made before any was cancelled or succeeded. |
| CrawlerTimes.GatherDecides | crawler/crawl/crawl.go:276-307 | A job leads to a record exactly if some attempt succeeds before any is cancelled, and the record has what that one collected; otherwise it has failed, is refused exactly if a negotiation failed, loses a point, and keeps connectability and connection time. |
| CrawlerTimes.DelaysAreNotNegative | crawler/crawl/crawl.go:279-286 | In every run, every record sent has a full score and was connected no earlier than it was selected and not in the future, so that the delay measured is not negative. |
| CrawlerTimes.TimesStep | crawler/crawl/crawl.go:233-307 | Each step keeps that: selection times do not exceed the clock, and what is about to be sent was connected in between. |
| Peers.CollectKeeps | crawler/crawl/crawl.go:331-405 | No sequence of attempts loses an agent or sync status or touches identity and selection time; success means both are known; the score becomes bad exactly by a refused negotiation. |
| Peers.PeerRecord.SetUserAgent | models/peer.go:223-285 | For every iteration order of the client map, the agent set is the one the agent string determines. |
| Peers.PeerRecord.SetConnectionStatus | models/peer.go:287-293 | Sets status, and the time only for a connected peer; nothing else. |
| Peers.PeerRecord.SetSyncStatus | models/peer.go:295-309 | Synced exactly if at most 8192 blocks behind the current one, with distance 0; otherwise unsynced with the distance in percent, rounded down; nothing else changes. |
| Peers.StatusReports | models/peer.go:296-308 | The same of the status as a function of current block and head. |
| UserAgents.FindClient | models/peer.go:231-243 | Visiting the client map in any order finds the same client. |
| UserAgents.OneClaims | models/peer.go:41-55 | No identity is claimed by two clients, for all spellings of upper and lower case. |
| UserAgents.VersionIsClean | models/peer.go:266-272 | The version parsed is never empty and has no '/', '-' or '+'. |
| UserAgents.PrintThenParse | models/peer.go:224-285 | Parsing what a client prints in its own layout recovers client, release and operating system, Teku's extra part and Prysm's missing system included. |
| UserAgents.LayoutsAreRead | models/peer.go:246-263 | The layouts written out: Teku's version is in the third place, the others' in the second; Prysm's system is unknown, the others' is in the place after the version. |
| UserAgents.SystemIsNamed | models/peer.go:274-282 | The operating system read is windows exactly if the text names it somewhere, otherwise mac exactly if it names that, otherwise linux exactly if it names that, and unknown exactly if it names none. |
| UserAgents.PrintedSystemIsRead | models/peer.go:224-285 | A client that prints a text naming one of the systems has that system read back. |
| Varint.ParseEncode | crawler/rpc/request/encode.go:23-29 | Decoding an encoded uint64 followed by anything yields the number and the rest, from at most ten bytes. |
| Varint.ParseCut | crawler/rpc/request/handle_response.go:48-55 | Every proper prefix of an encoded number is recognised as cut short. |
| Varint.ParseCanonical | crawler/rpc/request/handle_response.go:48-55 | The bytes accepted for a number are its encoding exactly if they do not end in a padding zero group. |
| Varint.ParsedDigits | crawler/rpc/request/handle_response.go:48-55 | The base 128 digits of the number read are the low seven bits of the bytes, the least significant first, and exactly the last byte has its top bit clear. |
| Varint.ParseEnds | crawler/rpc/request/handle_response.go:48-55 | A number is accepted exactly if a byte without top bit comes among the first ten and leaves it below 2^64, and cut short exactly if there are fewer than ten bytes and all have the top bit. |
| Varint.EncodedDigits | crawler/rpc/request/encode.go:23-29 | The bytes of an encoding are the number's base 128 digits with the top bit set on all but the last, and no more than the number has. |
| Varint.PutUvarint | crawler/rpc/request/encode.go:25-27 | Fills the array in place with the encoding and leaves the rest of it alone. |
| BufLimitReaders.BufLimitReader.Read | crawler/rpc/request/buf_limit_read.go:39-89 | One read delivers exactly the next pending bytes, at most as many as slice and limit allow, unless a condition holds beforehand under which it miscounts: then it reports all that the stream still had, and has copied nothing. |
| BufLimitReaders.MiscountingRead | crawler/rpc/request/buf_limit_read.go:75-82 | A concrete stream on which a read of one byte reports three and copies none. |
| BufLimitReaders.BufLimitReader.ReadByte | crawler/rpc/request/buf_limit_read.go:91-98 | Delivers the next pending byte, or an error exactly at the limit, at the end, or at a last byte that comes together with the end. |
| BufLimitReaders.BufLimitReader.constructor | crawler/rpc/request/buf_limit_read.go:21-30 | A new reader has everything still to deliver. |
| BufLimitReaders.RunOps | crawler/rpc/request/buf_limit_read.go:12-98 | For every stream and every sequence of reads, limit resets and PerRead toggles, what is copied is a prefix of buffer and stream, nothing is lost, the limit never becomes negative, and what is reported is what was copied, unless one read has miscounted the last fill of an eager stream. |
| BufLimitReaders.RunPhase | crawler/rpc/request/buf_limit_read.go:39-89 | For every stream, reads under a total limit copy and report at most the limit, and take from the stream at most what it exceeds the bytes buffered beforehand. |
| BufLimitReaders.ReadUpTo | crawler/rpc/request/rpc_method.go:163-167 | Reading through the limits delivers exactly what both allow, and reports a failure exactly if it met one. |
| Encoding.EncodeHeaderAndPayload | crawler/rpc/request/encode.go:49-69 | Writes header and payload, as far as the stream takes them; a payload that fails to be read writes nothing. |
| Encoding.StreamHeaderAndPayload | crawler/rpc/request/encode.go:73-98 | Writes the announced size and then whatever the reader has. |
| Encoding.EncodeChunk | crawler/rpc/request/encode.go:108-113 | Writes the wire form of the chunk; if the payload fails, only its result byte. |
| Encoding.StreamChunk | crawler/rpc/request/encode.go:117-122 | Writes result, announced size and payload. |
| Encoding.WriteErrorChunk | crawler/rpc/request/rpc_method.go:301-308 | Writes the wire form of the message, or of its first 253 bytes and three dots. |
| Encoding.WriteRawResponseChunk | crawler/rpc/request/rpc_method.go:293-295 | Writes the wire form of the chunk. |
| ResponseHandlers.HandleResponse | crawler/rpc/request/handle_response.go:26-85 | However the stream fragments and the reader buffers ahead, calls, outcome and the bytes left are those of decoding the plain bytes, and at most count times the cost of a chunk is taken from the stream. |
| ResponseHandlers.CorruptedChunk | crawler/rpc/request/buf_limit_read.go:75-82 | A concrete chunk on a stream that joins its end to the last bytes: the read of its payload reports a byte that was never copied. |
| ResponseHandlers.ReadUvarint | crawler/rpc/request/handle_response.go:47-55 | Reading a number byte by byte consumes and yields what parsing the pending bytes does; on a stream that joins its end to its last byte, a number that needs this byte is cut short. |
| ResponseTheorems.RoundTrip | crawler/rpc/request/handle_response.go:24-85 | The handler is called once for each chunk with its index, size, code and payload, and the response is consumed to its end, if and only if every chunk is within its limit. |
| ResponseTheorems.TooLargeIff | crawler/rpc/request/handle_response.go:56-66 | Announcing more than 256 bytes, for the codes 1 and 2, or more than the maximum, for all others, ends the response without a call; no other chunk does. |
| ResponseTheorems.DecodeAll | crawler/rpc/request/handle_response.go:38-82 | A list of chunks followed by any bytes decodes to its calls, and the decoder stands exactly where those bytes begin. |
| ResponseTheorems.CountLimit | crawler/rpc/request/handle_response.go:38 | Chunks beyond the maximum count are left untouched. |
| ResponseTheorems.Truncated | crawler/rpc/request/rpc_method.go:163-173 | On a response cut off anywhere, the calls are a prefix of the full ones with only the last payload shortened, and nothing that arrived is left over. |
| ResponseTheorems.CutReportedIff | crawler/rpc/request/handle_response.go:38-66 | A response cut off anywhere is reported if and only if the cut falls into a header, and a call gets fewer bytes than announced if and only if it falls into a payload. |
| ResponseTheorems.CutExactly | crawler/rpc/request/rpc_method.go:163-173 | The calls, the outcome and the rest of a response cut after any number of chunks and bytes. |
| ResponseTheorems.DecodeBounded | crawler/rpc/request/handle_response.go:34-83 | For every input and every chunk handler: consecutive calls, at most as many as allowed, each announced and delivered within bounds, and no more bytes delivered in all than that many chunks can cost. |
| ResponseTheorems.DeliveredBounded | crawler/rpc/request/handle_response.go:34-83 | In bytes: what is delivered is a prefix of the input, and at most eleven bytes and the larger of the maximum and 256 for each chunk allowed. |
| ResponseTheorems.ReadableIff | crawler/rpc/request/handle_response.go:56-66 | Every size that passes the check can be read in full exactly if the code is 1 or 2 or the maximum is below 2^63. |
| ResponseTheorems.ErrorChunkArrives | crawler/rpc/request/rpc_method.go:301-308 | Wherever in a response it comes, a chunk with code 1 or 2 passes whatever the size limit, and what is read is the message or its first 253 bytes and three dots. |
| ResponseTheorems.WriteChunks | crawler/rpc/request/encode.go:115-122 | Writing chunk after chunk sends the wire form of the list as far as the stream takes it. |
| ResponseTheorems.Exchange | crawler/rpc/request/handle_response.go:26-85 | Writer, broken stream, buffered reader and handler together, for every way of cutting the stream into pieces: the response is complete, or cut exactly where the stream broke off. |
| RequestHandlers.MaxEncodedLen | crawler/rpc/request/compression.go:34-43 | The adjusted size grows by at least 32 and never exceeds 2^32-1. |
| RequestHandlers.StreamHandler.Handle | crawler/rpc/request/handle_request.go:27-86 | For every stream, serving it hands over the request, and leaves behind the maximum, that the bytes, the way the stream ends and the maximum so far determine; the reader passed on has the limit and the bytes stated. |
| RequestHandlers.LimitCoversRequest | crawler/rpc/request/handle_request.go:62-82 | With compression, the limit of every accepted request covers what the announced length may grow to; without, it covers the length exactly if the maximum is below 2^63. |
| RequestHandlers.RefusedBecause | crawler/rpc/request/handle_request.go:50-75 | Which error a refused request gets: an unreadable header, otherwise below the minimum, otherwise above the maximum, otherwise a maximum that cannot be adjusted. |
| RequestHandlers.HeaderOnly | crawler/rpc/request/handle_request.go:49-55 | A request without a body on a stream that ends with its header is taken for a cut-off one exactly if the stream joins its end to the last byte. |
| RequestHandlers.ReadRefused | crawler/rpc/request/handle_request.go:18-21 | For every stream and every way of reading, a refused request yields at most one byte, and when it is read to the end exactly one, unless the header was the end of the stream. |
| RequestHandlers.ReadTooLong | crawler/rpc/request/handle_request.go:71-75 | A concrete refused request from which one more byte is read. |
| RequestHandlers.SendRequest | crawler/rpc/request/handle_request.go:45-85 | For all payloads and bounds, a request sent and read back is refused exactly if its length is out of bounds; otherwise it arrives in full, unless no request is expected or the maximum wraps to a negative limit. |
| RequestHandlers.RawRequest | crawler/rpc/request/rpc_method.go:269-282 | A refused request yields nothing and reads nothing; an accepted one the announced length as far as it can be read, or an error exactly if the stream fails before that. |
| RequestRuns.MaxAfterAccepted | crawler/rpc/request/handle_request.go:62-69 | After k accepted compressed requests the maximum is MaxEncodedLen applied k times; without compression it is unchanged. |
| RequestRuns.LimitInRun | crawler/rpc/request/handle_request.go:62-82 | The limit of accepted stream i is the configured maximum adjusted i + 2 times, or i + 1 times where that fails; without compression it is the maximum itself. |
| RequestRuns.RefusedForGood | crawler/rpc/request/handle_request.go:39-43 | After the first refused request the maximum is 0 for good, and every later stream is passed on without reader and without error. |
| RequestRuns.JudgedAsConfigured | crawler/rpc/request/handle_request.go:26-86 | A stream is judged by the configured maximum exactly if it is the first, or nothing is compressed and the header of each stream before it announced a length within the configured bounds. |
| RequestRuns.AllAcceptedIff | crawler/rpc/request/handle_request.go:49-70 | All streams are accepted exactly if each header announces a length in bounds, which with compression are the configured ones adjusted once for each stream before. |
| RequestRuns.ValidAfterTooLong | crawler/rpc/request/handle_request.go:39-43 | A concrete run in which a request that is too long makes a valid one after it be passed on without a body. |
| RequestRuns.FinitelyManyAccepted | crawler/rpc/request/handle_request.go:62-69 | With compression at most 109 requests are ever accepted, whatever the limit and the streams, and they come first. |
| RequestRuns.ManyAccepted | crawler/rpc/request/handle_request.go:62-69 | With a limit of one byte 109 requests are accepted, so the bound is exact. |
| RequestRuns.IteratedFails | crawler/rpc/request/compression.go:34-43 | MaxEncodedLen fails at the 110th application at the latest, from every positive start. |
| Clocks.CurrentSlotIsUnique | utils/clock/clock.go:27-37 | From genesis on, a slot is the current one if and only if its time span includes the time; before, exactly slot 0 is. |
| Clocks.EpochIsUnique | utils/clock/clock.go:40-42 | An epoch is that of a slot if and only if its slots include it. |
| Clocks.SleepEndsWithSlot | utils/clock/clock.go:51-54 | The ticker's sleep is positive and ends in the second in which the next slot begins. |
| Clocks.NextSlotBegun | utils/clock/clock.go:48-56 | After a sleep that was not too short a later slot has begun, and it is the next one exactly if the sleep was less than a slot too long. |
| Clocks.TickSlots | utils/clock/clock.go:44-63 | Slots increase strictly, before genesis and behind a slow consumer too, and one is left out only by a sleep that was a slot too long. |
| Clocks.TickEpochs | utils/clock/clock.go:65-82 | Emits exactly the distinct epochs of the slots consumed, in order. |
| Forks.ForkChoice.GetForkForEpoch | utils/fork/fork.go:71-94 | Whatever epoch is asked for: the digest is that of the newest of Electra, Deneb, Capella, Bellatrix and Altair that is supported and activated by the current epoch, or zero; and if they are scheduled in order, that of one with the greatest activation epoch. |
| Forks.ForkChoice.MonitorForkChange | utils/fork/fork.go:51-69 | After every tick the digest stored is the one scheduled for the epoch ticked. |
| Forks.ForkChoice.constructor | utils/fork/fork.go:43-48 | At the start it is that of the epoch of the start. |
| Forks.FollowClock | utils/fork/fork.go:43-69 | From clock readings through both tickers: the digest ends as that of the newest supported upgrade whose first slot has begun by the last reading, or which is scheduled for the first epoch or earlier, having changed at most five times. |
| Forks.ActiveIff | utils/clock/clock.go:27-42 | An upgrade is in force in the current epoch exactly if it is supported and its first slot has begun, or it is scheduled for the first epoch or earlier. |
| Forks.NewestIsGreatest | utils/fork/fork.go:75-90 | If the upgrades are scheduled in order, the newest active one has the greatest activation epoch of all active ones. |
| Forks.ReachedNeverFalls | utils/fork/fork.go:75-90 | The upgrade chosen never goes back as epochs rise. |
| Forks.SwitchesLimited | utils/fork/fork.go:56-67 | Over rising epochs the digest changes at most once for each upgrade still to come. |
| Forks.ChosenIsLatestIff | utils/fork/fork.go:75-90 | The upgrade chosen is the latest activated at every epoch if and only if no supported upgrade is overtaken by a later one in the schedule. |
| Forks.InOrderIsFine | utils/fork/fork.go:75-90 | On a schedule in order the one chosen is always the latest activated. |
| Aggregates.ViewAll | store/peerstore/mongo/mongo.go:112-143 | Every connectable document whose digest passes the filter exactly once, and no other. |
| Aggregates.ShownPeersAreKnown | graph/schema.resolvers.go:133-144 | Whatever run left the documents behind, every peer shown has an agent and a sync status, so that dereferencing the agent is safe. |
| Aggregates.NodeStatsAddUp | graph/schema.resolvers.go:156-166 | Over the documents any run leaves behind, synced and unsynced add up to the total. |
| Aggregates.SyncAddsUpIff | store/peerstore/mongo/mongo.go:437-443 | On arbitrary documents they do so exactly if every peer has a sync status. |
| Aggregates.AggregateBySyncStatus | store/peerstore/mongo/mongo.go:422-468 | The counts are the numbers of all peers, of those whose status is synced and of those whose status is not, an empty facet counting as zero. |
| Aggregates.GetHeatmapData | graph/schema.resolvers.go:126-153 | One point for each located peer, in order and with that peer's client, place and status; panics exactly if a located peer has no agent. |
| Aggregates.CountAltair | graph/schema.resolvers.go:222-232 | The nested loops add up the version counts row by row. |
| Aggregates.AltairCountsPeers | graph/schema.resolvers.go:217-235 | For every order in which groups and rows come, the total is the number of peers shown, and the count the number of those whose own client and version support the upgrade. |
| Aggregates.GroupsArePeers | store/peerstore/mongo/mongo.go:237-246 | Each group of the first stage counts the peers that have the client and the version of its name, or those without agent. |
| Aggregates.GroupForEach | store/peerstore/mongo/mongo.go:237-246 | There is a group for the client and version of each peer, and for the peers without agent if there are any. |
| Aggregates.RowsArePeers | store/peerstore/mongo/mongo.go:248-260 | Each client's row counts the peers with that client, and each of its versions those with client and version. |
| Aggregates.ClientAggregationsAgree | store/peerstore/mongo/mongo.go:175-283 | The aggregation by client and version gives each client the count that the aggregation by client gives it, which is the sum over its versions, and has no other clients. |
| Grouping.TwoStagesAreOne | store/peerstore/mongo/mongo.go:237-260 | Grouping by client and version, then by client, is a grouping by client, for any order of groups and rows. |
| Grouping.VersionsAreGrouped | store/peerstore/mongo/mongo.go:247-260 | The versions pushed into a client's row are the grouping of that client's items by version, so each count is the number of items with that client and version. |
| Grouping.GroupsAddUp | store/peerstore/mongo/mongo.go:190-195 | Adding up the groups over any property counts the items that have it. |
| Grouping.RowsAddUp | store/peerstore/mongo/mongo.go:247-260 | Adding up versions row by row is adding up the groups of the first stage. |
| Grouping.GroupingsAgree | store/peerstore/mongo/mongo.go:190-195 | Two groupings of the same items differ only in order. |
| Grouping.RowIsSum | store/peerstore/mongo/mongo.go:247-260 | The count of each client is the sum of the counts of its versions. |
| Hardforks.AggregateByHardforkSchedule | graph/schema.resolvers.go:82-98 | For every map iteration order, the result is the grouping of all peers by the schedule they announce, in descending order of count. |
| Hardforks.GroupByHardforkSchedule | graph/model/helpers.go:25-40 | The map has an entry for each schedule announced, under its joined key, with the number of peers that announce it. |
| Hardforks.CountsAreExact | graph/model/helpers.go:25-40 | All counts sum to the number of peers, and each is the number of peers with the version and epoch of its entry. |
| Hardforks.KeyDetermines | graph/model/helpers.go:28 | The joined key determines version and epoch, although nothing is escaped. |
| Hardforks.AnnouncedReadsBack | graph/model/helpers.go:28 | What is printed reads back: 0x and the four bytes of the version in hexadecimal, and the epoch in decimal without leading zeros. |
| Hardforks.AnnouncedDetermines | graph/model/helpers.go:28 | Version and epoch as printed determine the version and epoch. |
| Hardforks.SortByCount | graph/model/helpers.go:14-23 | Sorts the array in place into descending order, keeping its elements. |
| Numerals.EpochRoundTrip | models/marshallable_epoch.go:18-47 | Every epoch survives being stored as hexadecimal text, the far future epoch included; the text begins with 0x and has no leading zeros. |

## Left out

- Library behaviour: libp2p, discv5, gossipsub, dialing, keys and node records. Reaching a node is an attempt with
  any outcome, and discovery finds any new peer; its filter by TCP port and fork digest is not modelled.
- Snappy and SSZ: framing is modelled without compression, except for the limits derived from `MaxEncodedLen`.
- `MaxEncodedLen` takes the size that snappy may need, 32 + n + n/6 up to 2^32-1, from the library's description.
- The Go memory model: each store, channel or field operation is one atomic step; streams are served one at a time.
- Streams that return no data and no error, or a negative count; on the first a reader would loop, on the second panic.
- BufLimitReaders.ReadUpTo: is for streams that do not report their end together with data; on one that does, a read may miscount, and the buffer that collects the data would take over bytes that were never copied.
- ResponseHandlers.HandleResponse: requires such a stream for the same reason, and so do RequestHandlers.RawRequest and RequestHandlers.SendRequest; ResponseHandlers.CorruptedChunk shows what happens otherwise.
- CrawlerCode.SelectPendingAndExecute: models the round on its own; workers that take jobs or write meanwhile are part of the state machine only, except that the number of jobs the channel takes is arbitrary.
- CrawlerRound.SelectorRound: is for rounds in which no worker takes a job meanwhile.
- CrawlerRound.RoundIsARun: is for such rounds too; the steps of the state machine interleave in any order.
- The state machine reads the clock for a selection time and writes it in one step, and makes all attempts of a job in one step; the clock does not advance in between.
- CrawlerCode.UpdatePeerInfo: models a job that runs undisturbed; other steps in between are part of the state machine only.
- Forks.FollowClock: the three goroutines are composed one after the other; that readers of the digest see it in between is not modelled.
- CrawlerFairness.BoundedWaiting: assumes that no job is overdue when a batch is listed, and that nothing fails, as the promise is not made otherwise.
- A limit of 0, which the database takes to mean no limit: with no workers there is nothing to run.
- Overflow of 64-bit seconds, slots and sync distances, and of the ticker's duration a few centuries before genesis.
- Agent strings beyond ASCII, and the parts of documents that no modelled code reads (addresses, attestation subnets).
- Errors when writing the file, and Kafka. Closing writers and streams.
- Parsing the digest filter and the configured digests from text; floating-point percentages; which versions support Altair.
- History of node counts, geolocation lookups, HTTP, GraphQL marshalling, metrics, logging and configuration files.
