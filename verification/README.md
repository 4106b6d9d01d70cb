# Verified model of cpptcpduplex

This project models three layers of cpptcpduplex and proves what each of them promises, for every input,
every interleaving and every point at which a connection can fail.

1. **Resumable transfer** (`src/transfer/transfer.cpp`). A sender offers a file, the receiver accepts at a
   resume offset, chunks flow under a window, cumulative acknowledgements come back every `ack_every` chunks,
   and a done/done exchange compares hashes. Both ends retry over fresh connections.
2. **`Conn`, the duplex session** (`src/conn.cpp`). Reader, writer and deliver threads share bounded queues;
   two connections talk over byte streams that may be cut at any byte.
3. **Codecs and key agreement** (`src/protocol/protocol.cpp`, `src/crypto/session.cpp`,
   `src/crypto/handshake.cpp`, and the frame codec of `src/transfer/transfer.cpp`).

## How the modules fit together

| modules | what they hold |
|---|---|
| `Bytes`, `Errors`, `Frames` | big-endian fields, error codes, the TFX1 frame codec |
| `Storage` | random-access files, `hash_reader`, `HashingWriter` |
| `Endpoints` | `send_once` and `receive_once` as deterministic processes: send one frame, wait for one, or return |
| `Transfer`, `Retry` | the same operations as loops over a connection object, proved equal to those processes |
| `PeerSafety`, `PeerStories`, `RetrySafety` | one endpoint alone against an arbitrary peer, and its retry loop against arbitrary peers |
| `Grid`, `Attempt`, `Link`, `Shapes` | sender and receiver composed over two FIFO channels; the invariant that four counters determine the whole state |
| `Traces`, `LinkTheorems`, `LinkRuns`, `Wire` | what moves along a run, channel contents, exact cost, exact deadlock condition, the verdict, the byte level |
| `Blocked` | attempts whose destination cannot be opened at the resume offset |
| `Resume` | whole transfers: attempts that may each be lost, and redials |
| `Rounds` | what redialling makes of an attempt that cannot go on |
| `Loops` | each side of a whole transfer is its retry loop |
| `Protocol`, `Session`, `Handshake` | records, sealed blobs, key derivation, the key exchange |
| `ConnState`, `Conn` | every critical section of `Conn` as a step, and as a method of a class |
| `Duplex`, `DuplexProofs`, `DuplexTheorems`, `Shutdown` | two connections over two cut byte streams |
| `Lone` | one connection against an arbitrary peer and network: order of callbacks, pongs, reasons |
| `Stack`, `StackRuns` | the transfer over two connections over two byte streams, and whole transfers over such stacks |

The transfer is described twice on purpose. `Transfer` and `Retry` follow the loops of the source and are
proved equal to the processes in `Endpoints`; the composed system in `Link` runs those processes, and
`Wire.CutRunsAreLoops` shows that every reachable state of an attempt, whatever was lost on the way and
whether or not the destination opens, is what the two loops compute when each is fed the bytes the other has
sent and that have arrived. `Loops` does the same for the retry loops around whole transfers. `Stack` puts the processes on top of
two `Conn`s: every run of the whole stack is a run of `Link`, so the theorems about transfers hold of it.

Facts about the code that the proofs bring out:

- An attempt deadlocks if and only if `ack_every` and the number of chunks both exceed `window`
  (`LinkRuns.DeadlockIff`); nothing in the options rules this out. Each deadlocked attempt still stores `window`
  chunks, so redialling completes such a transfer on attempt ceil(N / window) and not before
  (`Rounds.StarvingTransferFinishes`).
- `too_many_retries` is never returned: when attempts run out there is an earlier error (`RetrySafety`).
- The branch for a done frame inside the receive loop (`src/transfer/transfer.cpp:685-691`) can only return
  `size_mismatch`, because the loop runs while bytes are missing.
- The inner drain loop of `write_loop` never finds a message (`DuplexTheorems.CloseIsLast`).
- A reader that holds a text while sending has stopped and the receive queue is full, in whichever order that
  came about, calls `abort_recv` under the mutex `abort_recv` takes and never returns. Some run gets a side
  there if and only if that side has no callback and both sides allow messages (`Shutdown.HangIff`), whatever
  the queue depth, and nothing leads out of it (`Shutdown.FullQueueShutdownHangs`).
- A destination that cannot be read back and is already complete is compared by an all-zero digest
  (`src/transfer/transfer.cpp:615-622`), so a non-zero offered hash always fails there. The smallest such
  transfer is an empty one into a write-only destination (`LinkRuns.NothingIntoWriteOnly`).
- A write-only destination cannot be resumed: once an attempt starts in the middle of it, the receiver returns
  `other` and the sender `aborted`, both are retried, and no later attempt stores or achieves anything
  (`Blocked.BlockedEnds`, `Resume.WriteOnlyNeverResumes`). `Resume.CleanAttemptIff` is the exact condition.
- With `max_message_bytes` below 30 no chunk frame passes `send_for` (`Session.ChunkFrameFits`).

Parameters and laws. SHA-256 is a function of the bytes fed to its context. AES-256-GCM (section 5.2 of
RFC 5116) is a sealing function and an opening function with the law that opening undoes sealing and lengths
are kept (`Session.SealsRight`). X25519 (section 6.1 of RFC 7748) is a function with commutativity as its
only law (`Session.Commutes`). Random bytes, nonces, the accept hook, redialled connections and time-outs are
arguments or nondeterministic steps.

## Model

| member | source | states |
|---|---|---|
| Bytes.GetPut | src/protocol/protocol.cpp:12-31 | reading a big-endian field returns every value that fits it |
| Bytes.PutGet | src/protocol/protocol.cpp:12-31 | writing the value of any field gives back the same bytes |
| Bytes.BigEndian | src/protocol/protocol.cpp:12-22 | two and four byte fields, byte for byte, most significant first |
| Bytes.PutBe64 | src/transfer/transfer.cpp:47-52 | the in-place loop lays exactly eight big-endian bytes over the buffer and leaves the rest alone |
| Bytes.GetBe64 | src/transfer/transfer.cpp:56-62 | the loop computes the big-endian value of the eight bytes |
| Bytes.I64Field | src/transfer/transfer.cpp:95-95 | a signed 64-bit number survives its unsigned field, negative ones included |
| Bytes.FieldI64 | src/transfer/transfer.cpp:95-95 | every eight-byte field is the image of exactly the signed number read from it |
| Frames.DecodeEncode | src/transfer/transfer.cpp:79-244 | decoding inverts encoding for all seven frame types, with reasons cut to 65535 bytes |
| Frames.EncodeDecode | src/transfer/transfer.cpp:79-244 | an accepted payload re-encodes to itself if and only if it is not an offer with the sign bit set or a done flag above one; what happens to those two |
| Frames.Layout | src/transfer/transfer.cpp:158-244 | every frame byte for byte: magic, type code, id, and each field at its place |
| Storage.HashReader | src/transfer/transfer.cpp:300-321 | hashing in 256 KiB blocks equals hashing the whole prefix, or returns the read error when the prefix is not there |
| Storage.HashingWriter.constructor | src/transfer/transfer.cpp:382-408 | opening at an offset hashes exactly the stored prefix, or fails as an unreadable or short destination does |
| Storage.HashingWriter.Write | src/transfer/transfer.cpp:411-421 | only a write at the current offset succeeds; it extends the destination and the digest by the same bytes; a failure changes nothing |
| Storage.HashingWriter.Sum | src/transfer/transfer.cpp:423-428 | the running digest is the hash of the destination's bytes below the offset |
| Endpoints.EffectiveChunkSize | src/transfer/transfer.cpp:267-276 | a wish whose full chunk fits a message is granted; otherwise the chunk fills the message, or is one byte when no chunk fits |
| Grid.FramesBetween | src/transfer/transfer.cpp:323-330 | between two chunk boundaries the ceiling division is the number of chunks, a short last chunk included |
| Grid.DueStep | src/transfer/transfer.cpp:673-684 | the receiver's test fires exactly when one more acknowledgement of the schedule falls due, and that one names the current chunk |
| Attempt.SenderActs | src/transfer/transfer.cpp:498-518 | the sender's next action after p frames sent and q taken, in closed form: which frame, whether it waits, what it returns |
| Attempt.SenderOnRev | src/transfer/transfer.cpp:518-538 | taking the receiver's q-th frame leads to the closed form for q + 1 |
| Attempt.ReceiverActs | src/transfer/transfer.cpp:604-684 | the receiver's next action after u frames taken and v sent, in closed form |
| Attempt.ReceiverOnFwd | src/transfer/transfer.cpp:651-715 | taking the sender's u-th frame leads to the closed form for u + 1: stored bytes, digest, reports, reply |
| Attempt.SpliceSplice | src/transfer/transfer.cpp:667-672 | two adjacent writes equal one write of both pieces |
| Traces.AlongIsSequence | src/transfer/transfer.cpp:459-716 | the frames sent and taken along any run, losses included, are consecutive frames of the two sequences: nothing skipped, repeated or reordered |
| Traces.NothingVanishes | src/transfer/transfer.cpp:459-716 | what is sent along a run is what is taken and what is still on the channel |
| Link.InvStep | src/transfer/transfer.cpp:459-716 | every step, losses included, keeps the invariant that four counters determine both endpoints and both channels |
| Link.InvRun | src/transfer/transfer.cpp:459-716 | so does every run |
| LinkTheorems.ChannelOrder | src/transfer/transfer.cpp:498-538 | in every reachable sending state resume <= acked <= written <= next_off <= size |
| LinkTheorems.ChunksInFlight | src/transfer/transfer.cpp:503-517 | the chunks in flight tile [written, next_off) with exactly the source's bytes |
| LinkTheorems.AcksInFlight | src/transfer/transfer.cpp:677-684 | the acknowledgements in flight are strictly increasing in (acked, written] |
| LinkTheorems.OnlyTheVerdict | src/transfer/transfer.cpp:526-536 | neither side ever returns bad_frame, size_mismatch or a refusal: only the verdict |
| LinkTheorems.InFlightIsExact | src/transfer/transfer.cpp:323-330 | count_in_flight is the number of unacknowledged chunk frames among those the run has sent, and at most the window |
| LinkTheorems.NoStaleAck | src/transfer/transfer.cpp:436-457 | both channels are empty when finish_send begins; the only frame it can read is the verdict |
| LinkRuns.EveryEventCounts | src/transfer/transfer.cpp:502-539 | every loss-free step adds one to a bounded measure, so every loss-free run terminates |
| LinkRuns.MaximalRun | src/transfer/transfer.cpp:502-539 | every maximal loss-free run either moves exactly N chunks, ceil(N/ack_every) acknowledgements and 4 control frames and ends with the same verdict on both sides, or stops after `window` chunks with nothing acknowledged |
| LinkRuns.RunToTheEnd | src/transfer/transfer.cpp:502-539 | every loss-free reachable state extends to a maximal run |
| LinkRuns.DeadlockIff | src/transfer/transfer.cpp:502-518 | a stuck state before the end is reachable without loss if and only if ack_every and the number of chunks exceed the window |
| LinkRuns.DigestIsContent | src/transfer/transfer.cpp:542-564 | the digest is the hash of what lies in the destination, or all-zero if that is complete and cannot be read back; the verdict is good if and only if no hash was offered, or the content can be read and hashes to the offered value |
| LinkRuns.GoodPrefixSucceeds | src/transfer/transfer.cpp:701-715 | a good prefix and the hash of what is offered verify if and only if the destination is not both complete and unreadable, or that hash is all-zero |
| LinkRuns.UnreadableFails | src/transfer/transfer.cpp:615-622 | a complete destination that cannot be read back is accepted, never starves, and ends in hash_mismatch for every non-zero hash |
| LinkRuns.NothingIntoWriteOnly | src/transfer/transfer.cpp:615-637 | the failing input and a run: an empty source into a write-only destination gives hash_mismatch on both sides |
| LinkRuns.SuccessIsShared | src/transfer/transfer.cpp:436-457 | in every run, lossy or not, a sender that returned success had a receiver that returned success with everything stored and, unless no hash was offered, hashing to the offered value |
| Wire.FwdSurvives | src/transfer/transfer.cpp:158-230 | every frame the sender produces decodes to itself |
| Wire.RevSurvives | src/transfer/transfer.cpp:179-230 | every frame the receiver produces decodes to itself |
| Wire.SenderReplays | src/transfer/transfer.cpp:459-540 | from any point, fed the receiver's payloads, send_once sends the rest of its sequence and returns the verdict |
| Wire.ReceiverReplays | src/transfer/transfer.cpp:566-716 | from any point, fed the sender's payloads, receive_once sends the rest of its sequence and returns the verdict |
| Wire.MethodsMeet | src/transfer/transfer.cpp:459-716 | send_once and receive_once, each fed the bytes the other produced, reproduce those bytes and agree |
| Wire.SenderProjects | src/transfer/transfer.cpp:459-540 | along any run of an acceptable offer, send_once fed the payloads the sender took stands where the sender stands, has sent the same frames and returned the same result |
| Wire.ReceiverProjects | src/transfer/transfer.cpp:566-716 | the same for receive_once: destination, written_out, reports, replies and result |
| Wire.CutRunsAreLoops | src/transfer/transfer.cpp:459-716 | every reachable state of an attempt, whatever was lost and whether or not the destination opens, is what the two loops compute when each is fed what the other sent and has arrived |
| Blocked.BlockedStep | src/transfer/transfer.cpp:604-646 | when the destination does not open, every step keeps destination, `written` and the short exchange of accept and abort |
| Blocked.BlockedEnds | src/transfer/transfer.cpp:615-646 | without loss the receiver then ends with other and the sender with aborted, or waits for a verdict if nothing was missing |
| Resume.AcrossLosses | src/transfer/transfer.cpp:823-909 | for any destination, at every moment of every run over any losses, redials and attempts made alone: the destination is its original content with source bytes laid over it from the first resume offset to `written` and nothing else; reports of each side never go backwards; attempts stay within max_attempts |
| Resume.WrittenNeverShrinks | src/transfer/transfer.cpp:895-897 | `written` never decreases between two moments of a run |
| Resume.SuccessIsExactCopy | src/transfer/transfer.cpp:832-835 | a success anywhere in a run is shared, hashes to the offered value unless none was offered, and is an exact copy if the original prefix was good |
| Resume.CleanAttemptIff | src/transfer/transfer.cpp:827-846 | after any history, an attempt that loses nothing and does not starve ends in success on both sides if and only if the destination can be read back or nothing is stored yet (or nothing is left and no hash was offered); and then it is an exact copy |
| Resume.WriteOnlyNeverResumes | src/transfer/transfer.cpp:385-390 | once an attempt resumes in the middle of a write-only destination, nothing tried later stores a byte or succeeds |
| Rounds.SomeRunStalls | src/transfer/transfer.cpp:385-390 | from an empty write-only destination and any two or more chunks some run gets into that state |
| Rounds.StarvedNext | src/transfer/transfer.cpp:502-518 | a deadlocked attempt leaves the next one exactly `window` chunks fewer |
| Rounds.StarvingTransferFinishes | src/transfer/transfer.cpp:827-846 | retried every time it deadlocks, a transfer with ack_every above its window deadlocks again before attempt ceil(N/window), succeeds on both sides with an exact copy on that attempt, and has no later one |
| Rounds.RedialsFinish | src/transfer/transfer.cpp:827-846 | with that many attempts allowed, such a run exists and completes the transfer |
| Loops.SendLoopOfRun | src/transfer/transfer.cpp:823-846 | the sender's side of any run over losses and redials is the loop of send on as many connections: attempts, reports, result |
| Loops.ReceiveLoopOfRun | src/transfer/transfer.cpp:872-909 | the receiver's side of any run is the loop of receive on as many connections: attempts, reports, destination, stored length, result |
| Transfer.PeerConn.Send | src/transfer/transfer.cpp:278-286 | a send is taken in order or fails with the mapped connection error |
| Transfer.PeerConn.Receive | src/transfer/transfer.cpp:278-286 | a receive yields the next payload or the mapped connection error |
| Transfer.FinishSend | src/transfer/transfer.cpp:436-457 | the closing exchange equals the process: frames out, result, reports |
| Transfer.FillWindow | src/transfer/transfer.cpp:503-517 | the inner loop sends what the process sends and stops with a full window or an exhausted source |
| Transfer.AwaitAck | src/transfer/transfer.cpp:518-537 | one turn of the receive half equals one step of the process and never moves acked out of [acked, next_off] |
| Transfer.SendChunks | src/transfer/transfer.cpp:498-539 | the outer loop equals the process from an accepted offset |
| Transfer.SendOnce | src/transfer/transfer.cpp:459-540 | send_once against any peer equals the sender process: result, payloads sent, reports |
| Transfer.VerifyAndAckDone | src/transfer/transfer.cpp:542-564 | the two tests and the answer equal the process, whose verdict is what PeerSafety.VerdictIs says |
| PeerSafety.VerdictIs | src/transfer/transfer.cpp:544-554 | the verdict is good if and only if the hash of the offer and the hash of the done frame are each absent or equal to the digest |
| Transfer.FinishReceive | src/transfer/transfer.cpp:701-715 | the closing exchange of the receiver equals the process |
| Transfer.Refuse | src/transfer/transfer.cpp:585-601 | a refusal is sent on a best-effort basis and its error is returned whatever becomes of it |
| Transfer.StoreChunk | src/transfer/transfer.cpp:667-684 | storing, hashing, reporting and acknowledging one chunk equals the process, device and digest included |
| Transfer.SendAck | src/transfer/transfer.cpp:677-684 | the acknowledgement equals the process's, or its failure ends the attempt |
| Transfer.TakeFrame | src/transfer/transfer.cpp:652-698 | the checks on one frame of the loop equal the process |
| Transfer.ReceiveChunks | src/transfer/transfer.cpp:648-715 | the receive loop equals the process |
| Transfer.Opened | src/transfer/transfer.cpp:615-646 | the already-complete case and the opening of the writer equal the process |
| Transfer.Accepted | src/transfer/transfer.cpp:604-613 | from the accept frame on, equal to the process |
| Transfer.ReceiveOnce | src/transfer/transfer.cpp:566-716 | receive_once against any peer equals the receiver process: result, written_out, out_meta, reports, destination, payloads sent |
| Retry.SendAttempts | src/transfer/transfer.cpp:823-846 | the retry loop equals its recursive description, each attempt with the chunk size of its own connection |
| Retry.Send | src/transfer/transfer.cpp:809-847 | send with its size check, fresh id and filled-in hash |
| Retry.ReceiveAttempts | src/transfer/transfer.cpp:872-909 | the retry loop equals its recursive description: remembered offer, kept bytes, raised resume offset |
| Retry.Receive | src/transfer/transfer.cpp:864-910 | receive with its check of the resume offset |
| PeerSafety.SenderSafe | src/transfer/transfer.cpp:459-540 | against any peer: the frames sent are the offer and chunks tiling an interval from the accepted offset, each byte once, and done only after the last; acked and next_off stay ordered within the size; at most `window` chunks and window * chunk_size bytes are unacknowledged; success means everything was sent |
| PeerSafety.ReceiverSafe | src/transfer/transfer.cpp:566-716 | against any peer: bytes below resume and from `written` on keep their values, the bytes between are the chunk data in order of arrival, acknowledgements name stored bytes, and success means size bytes stored, a done frame of this transfer taken, and the hash offered and the hash sent each absent or equal to the digest of what is stored |
| PeerStories.ReceiverStory | src/transfer/transfer.cpp:570-715 | against any peer: only an offer that is expected, long enough and not refused by the accept hook is accepted; what is taken after it is chunks of that transfer end to end and then its done frame; the answer tells whether both hashes respect the digest; and every error that is returned has its cause in the last payload, the destination or the connection |
| PeerStories.OfferAnswered | src/transfer/transfer.cpp:584-609 | the exact answer to any offer: unexpected id, below the resume offset (negative sizes included), refused by the hook, each with its reject, its error and nothing changed; or an accept |
| PeerStories.SenderStory | src/transfer/transfer.cpp:461-539 | against any peer: the reports are the offsets of an accept and acknowledgements of this transfer, success needs its good verdict after everything is acknowledged, and every error has its cause |
| RetrySafety.RetriableIs | src/transfer/transfer.cpp:288-298 | exactly seven errors are final |
| RetrySafety.LossIs | src/transfer/transfer.cpp:278-298 | which connection errors are retried, and how they are reported |
| RetrySafety.SendLoopExact | src/transfer/transfer.cpp:823-846 | for any peers: attempts go on exactly while redialling is possible, the error is not final and attempts and connections are left; the result is that of the last attempt, or other when redialling failed |
| RetrySafety.ReceiveLoopExact | src/transfer/transfer.cpp:872-909 | the same for receive, each attempt starting with what the earlier ones left: destination, resume offset, remembered offer, reports |
| RetrySafety.OfferRemembered | src/transfer/transfer.cpp:890-897 | the last offer with an id is remembered and insisted on, and the resume offset is what is stored |
| RetrySafety.OtherTransferRefused | src/transfer/transfer.cpp:585-589 | once an offer with an id was seen, a later connection that offers another transfer is rejected with bad_frame and nothing changes, however many attempts later |
| RetrySafety.OfferIsFilledIn | src/transfer/transfer.cpp:811-821 | what send offers: given id and hash kept, missing ones filled in; and exactly what it refuses |
| RetrySafety.SendBounded | src/transfer/transfer.cpp:823-846 | between one and max_attempts attempts, exactly one without redial, never too_many_retries |
| RetrySafety.ReceiveBounded | src/transfer/transfer.cpp:872-909 | the same bounds for receive, for any peers and any history; storage below the first resume offset and beyond the final length is untouched, the reports never go back, and success means the whole offered size is stored, hashes to the offered value unless none was offered, and the last peer sent a done frame whose hash is absent or the digest |
| RetrySafety.EarlierBytesKept | src/transfer/transfer.cpp:895-897 | whatever further connections bring, the destination as it is after k attempts keeps every byte below the length stored by then |
| Protocol.WriteRecord | src/protocol/protocol.cpp:106-122 | a record that fits goes out whole, or as a prefix and an error when the stream breaks; one that does not fit leaves the stream alone |
| Protocol.ReadRecord | src/protocol/protocol.cpp:87-104 | one record and the rest of the stream, or the error for a short or refused length |
| Protocol.RecordLayout | src/protocol/protocol.cpp:106-122 | a record byte for byte: length, type, sealed bytes |
| Protocol.LengthRefused | src/protocol/protocol.cpp:93-96 | exactly a length of zero or above 2^20 is refused |
| Protocol.ParseWritten | src/protocol/protocol.cpp:87-122 | a written record is read back whatever follows it |
| Protocol.ParseCut | src/protocol/protocol.cpp:87-122 | a record cut at any byte is never read as anything |
| Protocol.ParseIsExact | src/protocol/protocol.cpp:87-122 | whatever is accepted is exactly what a writer would have written |
| Protocol.PrefixOfStream | src/protocol/protocol.cpp:87-122 | any byte prefix of a written stream parses to exactly the records it contains in full, and the whole stream to the whole list |
| Protocol.WriteHandshake | src/protocol/protocol.cpp:49-64 | version and key length are checked before a byte goes out; a broken stream takes a prefix |
| Protocol.ReadHandshake | src/protocol/protocol.cpp:66-85 | magic, version and key in order, with the error of the first one that fails |
| Protocol.HelloBack | src/protocol/protocol.cpp:49-85 | a hello is read back, and only a complete one |
| Protocol.HelloOutcome | src/protocol/protocol.cpp:66-85 | exactly which hello is accepted and which error any other gets |
| Session.DeriveSessionKey | src/crypto/session.cpp:51-71 | the piecewise hashing equals hashing the preimage |
| Session.PreimageInjective | src/crypto/session.cpp:51-71 | the preimage determines the 32-byte secret and the pre-shared key; the empty key is like no other |
| Session.PreimageLayout | src/crypto/session.cpp:51-71 | the hashed bytes: secret, zero byte, length, pre-shared key |
| Session.KeyNeedsBoth | src/crypto/session.cpp:51-71 | two session keys agree for every choice of the primitives if and only if secret and pre-shared key agree |
| Session.OpenIff | src/crypto/session.cpp:113-139 | a blob opens if and only if it is long enough and its tag is good for its nonce and ciphertext; anything else is refused |
| Session.SealLayout | src/crypto/session.cpp:92-105 | nonce, ciphertext and tag in this order |
| Session.OpenSeal | src/crypto/session.cpp:81-139 | nonce, ciphertext and tag are sliced where they were put; 28 bytes of overhead |
| Session.SizeChain | src/crypto/session.cpp:83-119 | a payload passes seal, write_record, read_record and open unchanged if and only if it has at most 2^20 - 29 bytes |
| Session.PongFits | src/conn.cpp:334-354 | the pong for any readable ping can be sealed |
| Session.ChunkFrameFits | src/transfer/transfer.cpp:267-276 | with the effective chunk size every chunk frame passes the size check of send_for if and only if max_message_bytes is at least 30 |
| Handshake.ClientHandshake | src/crypto/handshake.cpp:55-94 | the client's bytes and its key or error as a function of what it reads and how much the stream takes |
| Handshake.ServerHandshake | src/crypto/handshake.cpp:96-134 | the same for the server, which answers only after its checks |
| Handshake.Exchange | src/crypto/handshake.cpp:55-134 | exactly when each side of an unaltered, possibly cut exchange succeeds: version 1, whole messages, and the peer's key hashing to the pin if there is one; and that both keys then come from the same secret and each side's own pre-shared key |
| Handshake.DifferentPskDifferentKeys | src/crypto/handshake.cpp:89-93 | with different pre-shared keys some lawful primitives let both sides finish with different keys |
| Handshake.Agreement | src/crypto/handshake.cpp:55-134 | equal pre-shared keys give equal session keys, and each side opens what the other seals |
| Conn.Conn.constructor | src/conn.cpp:24-31 | a fresh connection satisfies the invariant |
| Conn.Conn.SendFor | src/conn.cpp:59-91 | which of closed, too large, timed out or accepted; an accepted payload goes to the end of the queue |
| Conn.Conn.ReceiveFor | src/conn.cpp:106-127 | which of disabled, timed out, the oldest buffered payload, or the terminal error |
| Conn.Conn.BeginShutdown | src/conn.cpp:147-160 | only the first call gets past the flag and stops sending |
| Conn.Conn.WriterWakes | src/conn.cpp:219-228 | the writer takes the oldest message or starts flushing |
| Conn.Conn.WriterDrains | src/conn.cpp:231-250 | the drain loop finds the queue empty |
| Conn.Conn.WriteOut | src/conn.cpp:205-212 | exactly when the message goes out whole, and which bytes reach the stream otherwise |
| Conn.Conn.WriterWrites | src/conn.cpp:251-262 | the message in hand is written and the writer moves on, or the writer exits with it |
| Conn.Conn.EndReader | src/conn.cpp:192-203 | the first error wins and the reader is done |
| Conn.Conn.TextArrives | src/conn.cpp:287-308 | refused, queued for the callback, dropped, slow consumer, or in hand |
| Conn.Conn.Dispatch | src/conn.cpp:286-370 | the switch on the message type keeps the invariant |
| Conn.Conn.ReadMessage | src/conn.cpp:268-285 | one turn of the read loop: a record, its plaintext, or the error that ends the reader |
| Conn.Conn.PushToQueue | src/conn.cpp:309-330 | the text in hand is queued, discarded, or the reader locks itself out |
| Conn.Conn.ReplyPong | src/conn.cpp:334-356 | the pong is queued, or the reader ends because sending has stopped |
| Conn.Conn.DeliverTakes | src/conn.cpp:379-396 | the deliver thread takes the oldest job or exits |
| Conn.Conn.DeliverCalls | src/conn.cpp:398-400 | the callback is made unless the payload is empty |
| DuplexProofs.NextRecord | src/conn.cpp:266-285 | over a stream cut anywhere the reader's next parse is the next record written or nothing |
| DuplexProofs.DuoStep | src/conn.cpp:59-402 | every step of either connection or either stream keeps the invariant of both |
| DuplexTheorems.Fifo | src/conn.cpp:75-331 | in every interleaving and for every truncation, what receive returned is a prefix of what send accepted on the other side |
| DuplexTheorems.CloseIsComplete | src/conn.cpp:345-364 | a reader that consumed a Close has consumed everything written, and returned plus buffered is everything accepted |
| DuplexTheorems.CloseIsLast | src/conn.cpp:219-257 | Close is written at most once and last; the drain loop never holds a message |
| DuplexTheorems.QueuesBounded | src/conn.cpp:76-89 | every queue stays within its depth |
| DuplexTheorems.CallbacksAccounted | src/conn.cpp:287-401 | texts within the limit = callbacks made + empty ones skipped + one in hand + queued + dropped + at most one slow_consumer |
| Lone.CallbacksInOrder | src/conn.cpp:294-307 | one connection, whatever arrives: callbacks made and still to be made are the non-empty texts within the limit, in order, with only dropped ones left out |
| Lone.CallbackFifo | src/conn.cpp:374-401 | between two connections the callbacks are a subsequence of what the other side accepted, and a prefix of the non-empty payloads while nothing was dropped |
| Lone.PongsAnswerPings | src/conn.cpp:334-356 | whatever arrives, pongs carry the payloads of the pings read, one for one and in order, except for a last one left unanswered by shutdown |
| Lone.EndHasReason | src/conn.cpp:271-370 | whatever arrives, the terminal error says why: too large, slow consumer, Close, unknown type, or the end of the stream; and nothing is read after such a message |
| Lone.ReadDecides | src/conn.cpp:271-286 | a record is consumed exactly when it opens, with its own type and plaintext; otherwise the reader ends with the right error |
| Lone.NeverBadRecord | src/conn.cpp:271-285 | between two connections no record is ever found bad |
| Lone.DeliverLeavesNothing | src/conn.cpp:380-396 | the deliver thread leaves only when told to and with nothing queued |
| DuplexTheorems.EndIsFinal | src/conn.cpp:85-126 | nothing is accepted after stop, nothing buffered is lost or reordered, and the terminal error never changes |
| Shutdown.FullQueueShutdownHangs | src/conn.cpp:309-321 | a reader that pushes into a full queue after stop never returns and no receive completes from then on |
| Shutdown.FullQueueShutdownIsReachable | src/conn.cpp:309-321 | for every queue depth some run gets there |
| Shutdown.HangIff | src/conn.cpp:309-321 | some run locks the reader of a side out for good if and only if that side has no callback and both sides allow messages |
| Stack.Simulate | src/conn.cpp:59-127 | every step of endpoints, connections and streams together is a step of the attempt over plain channels, or none |
| StackRuns.StackIsTransfer | src/transfer/transfer.cpp:809-910 | every run of the whole stack, over redials, is a run of the plain transfer with the same ends, destination, reports and attempts |
| StackRuns.StackAcrossLosses | src/transfer/transfer.cpp:823-909 | over the whole stack the destination, the reports and the attempts keep what they keep over plain channels |
| StackRuns.StackSuccessIsExactCopy | src/transfer/transfer.cpp:832-835 | a sender that returned success over two connections with their threads, queues, records and keys left an exact copy and a receiver that succeeded |
| StackRuns.StackOnlyTheVerdict | src/transfer/transfer.cpp:526-536 | over the whole stack an opened attempt returns a connection error or the verdict, never a frame error |

## Left out

- Sockets, address resolution, `Server`, `dial`, `serve_conn`, the fingerprint wrapper and error texts: thin plumbing.
- `send_file`, `receive_file`, `id_to_string`, `parse_id`, `freeze_config`, `normalize`: file opening, hex text and defaults; only positive depths, window, ack_every and max_attempts are used.
- The cryptographic primitives and random generators: parameters with the laws stated above; failures inside them are not modelled.
- Real time, condition-variable wake-ups and reader progress: a wait is the guard of a step and a time-out an argument; in particular `receive_for` pops without waking a reader that waits for room, so no progress of the reader is claimed.
- The waits and joins of `shutdown` and the destructor: only its two critical sections are modelled; `shutdown_started_` and `closed_` are one flag.
- Machine integers: offsets are unbounded, so the signed overflow at `src/transfer/transfer.cpp:505` and `:663` for sizes near 2^63, and the `int` casts at `src/conn.cpp:66` and `:288` for payloads of 2^31 bytes, are outside the model; 64-bit frame fields are exact.
- LinkRuns.MaximalRun: cost, termination and deadlock are proved over the plain channels of `Link`, not over `Conn`, whose reader may wait forever on a full queue; safety is proved over both (`StackRuns`).
- Transfer.PeerConn.Send: a script may refuse any send with any error, so a refusal for size is one of the scripts, but there it is not tied to the payload's length; in `Stack` it is.
- LinkRuns.EveryEventCounts: termination is claimed for this sender with this receiver only; a peer that repeats an acknowledgement or sends empty chunks can keep an endpoint busy forever.
- Resume.AcrossLosses: the offer is acceptable and fits the destination's capacity, and an attempt made alone reaches nobody; other peers and failing devices are covered by `PeerSafety` and `RetrySafety`.
- Storage.HashingWriter.Write: a failed write leaves the destination's bytes unchanged; partial writes of a failing device are not modelled.
- The error message that travels in an abort frame is the fixed text of a generic transfer error.
