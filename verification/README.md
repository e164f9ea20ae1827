# sing-snell in Dafny

sing-snell implements versions 4, 5 and 6 of the Snell record protocol in Go: encrypted
streams whose records carry padding mixed into the ciphertext, record sizes that adapt to
the traffic, connections that are reused for one logical connection after another, and a
layer that makes the whole look like TLS or HTTP. This project models those parts and
proves what they are for.

| file | what it models |
|---|---|
| `Arithmetic.dfy`, `Bytes.dfy`, `Nonce.dfy`, `Aead.dfy` | products and remainders, octets and buffers, the 12-octet nonce counter, the cipher by its laws |
| `Profile.dfy`, `ProfileLaws.dfy` | the v6 profile, its ranges, and what its draws can come to |
| `SaltBlock.dfy`, `Mixing.dfy` | the hidden salt, the mixing of padding and ciphertext |
| `ShapedCodec.dfy`, `ShapedStream.dfy`, `ShapedPacing.dfy` | the v6 record, the v6 stream, and how long its records are, as values |
| `ShapedCuts.dfy` | a v6 connection that ends inside a record |
| `ShapedWriter.dfy`, `ShapedReader.dfy` | the v6 writer and reader, as programs over buffers, proved against those values |
| `ShapedRuns.dfy` | runs of calls of those programs, and the two of them end to end |
| `ReuseClosing.dfy`, `ReuseProgress.dfy` | Close, reads and the drainer of one logical connection, as interleaved atomic steps, and that they get on |
| `ReusePool.dfy`, `PoolRuns.dfy`, `PoolMoves.dfy` | the pool of reusable sessions: its methods, every interleaved run of them, each method as a stretch of a run, and what the steps of a run amount to |
| `Request.dfy`, `RecordFeed.dfy` | the request, and a record reader as its users see it |
| `ServerSession.dfy` | the server's loop over the logical connections of one stream |
| `RequestRecords.dfy`, `LegacyRequests.dfy` | the streams that v6 and v4 clients make for that loop, and when a request lies whole in one record |
| `ReplyRecords.dfy`, `LegacySessions.dfy` | the way back to the clients, and a v4 client on a v5 server, over the octets |
| `TlsObfs.dfy`, `TlsHello.dfy`, `TlsHandshake.dfy`, `HttpObfs.dfy` | the obfuscation layers as plain pipes, and what their messages parse to |
| `LegacyCodec.dfy`, `LegacyStream.dfy`, `LegacyReader.dfy`, `LegacyWriter.dfy` | the record format that v4 and v5 share |
| `PacingV5.dfy`, `WriterV5.dfy`, `StreamPacing.dfy`, `WriterV4.dfy` | the payload windows and the writers of v5 and v4, and how long their records are |
| `PaddingBits.dfy`, `SaltReplay.dfy` | padding with an exact number of set bits, and the salt replay filter |

Where the source updates buffers or fields in place, the model is a class or a method over
arrays whose contract equates the new state with a specification function of the old one;
what the source promises is then proved about those functions. Everything that is random,
timed or decided by other goroutines is a parameter, and every theorem holds for all its
values: the pseudo-random function of a profile, the octets of padding, clocks, the order
of atomic steps, what a handler or a caller does next.

## Where the code does not do what one would expect

- A v6 client's request goes out through the same splitting as any other data, but the server
  parses one record. A request is read if and only if `RequestLen(r)` is at most the payload
  limit in force (`RequestRecords.FirstRecordParsesIff`); a longer one is split, is refused as
  a malformed request, and ends the session. Up to 256 octets always fit
  (`RequestRecords.ShortRequestFits`), and every request fits if and only if the limit is at
  least 516 (`RequestRecords.EveryRequestFitsIff`). A host name of 255 octets does not fit under
  any profile whose first record cap is below 261 (`RequestRecords.LongRequestIsSplit`); the
  profile whose every draw is zero has the cap 256 (`RequestRecords.ZeroCap`).
  `RequestRecords.ServeV6Client` says how far a whole session gets. A v4 client does not have
  the problem (`LegacyRequests.V4ClientStream`, `LegacySessions.ServeV4Client`), nor would
  anybody who asked through a v5 writer (`LegacyRequests.V5WriterStream`).
- The end of a connection between two records reads as end of stream. So an answer cut short
  there, as by a server whose context ends, is heard as a whole one:
  `ReplyRecords.EndSoundsLikeZeroChunk` shows that no client can tell it from a zero chunk.
  An end between two fields of a record reads the same: `ShapedCuts.CutRecord` says exactly
  where a cut is heard as an end and where as an error.
- A read that has seen its connection closed may take the end of stream between Close's
  first look at `readClosed` and its look at the read count. Its compare-and-swap then fails,
  Close starts a drainer, and the drainer waits for a zero chunk that is gone: the session
  stays Waiting. `ReuseClosing.LateEofLost` is such a run, `ReuseClosing.LostForGood` shows
  that only closing the session ends it, and `ReuseClosing.LateEofKeptIff` says exactly when
  the end of stream is kept: if and only if Close has not chosen to drain.
- The end of stream may also come too early for that: a read takes it before Close, and says
  so in `readClosed` only after Close has looked there twice. Then Close pools the session
  Waiting and starts no drainer. `ReuseClosing.EarlyEofLeavesNoDrainer` is such a run, and
  `ReuseClosing.LeftWaitingIff` says exactly when a finished session is Waiting with no
  drainer: if and only if Close chose not to drain, saw `readClosed` at neither look, and no
  read has taken the end of stream since it saw closed.
- Nor need anybody have taken the end of stream: a read that is still counted when Close
  looks, but already on its way out with data, also leaves the session Waiting with no drainer
  (`ReuseClosing.DataLeavesNoDrainer`).
- `ReuseClosing.CanBecomeReadyIff` says what all three come to: a session Waiting after Close
  can still become Ready if and only if somebody who has the end of stream is about to swap the
  state, or it has not been taken and a drainer or a read is there to take it.
- A v5 packet of no octets is written with the tag of nothing behind it, which no reader
  expects. `LegacyCodec.AroundInStepIff` shows that such a record leaves a reader in step if
  and only if its payload is not empty.
- An HTTP obfuscation address or host that holds an empty line ends the fake request early.
  `HttpObfs.ClientPipeIff` gives the exact condition under which the pipe is faithful.
- A ClientHello's length fields are right if and only if they fit in 16 bits
  (`TlsHello.HelloLengthIff`), and the record is within the TLS limit if and only if host and
  payload together have at most 16172 octets.
- The fake ServerHello gives its extensions the length 0 and puts 15 octets of well-formed
  extensions behind it, so no parser that goes by the lengths accepts it
  (`TlsHandshake.ServerHelloIllFormed`, `TlsHandshake.ServerHelloParsesIff`).

## Model

| member | source | states |
|---|---|---|
| Nonce.IncreaseIsSuccessor | crypto.go:24-31 | read as a little-endian number, the nonce goes up by one, and wraps to zero after the last |
| Nonce.NoncesDistinct | crypto.go:24-31 | two nonces reached in different numbers of steps below the modulus are different |
| Nonce.IncreaseNonce | crypto.go:24-31 | the carry loop in place computes that successor |
| Profile.NewProfile | snellv6/profile.go:269-341 | no range handed to pick is inverted, and every field lies in its range: salt block 32..144, padding headroom at most 0x5b4 |
| Profile.RecordPrefixLen | snellv6/profile.go:343-345 | a record prefix is 8 octets at least and never longer than the profile's maximum |
| Profile.ChunkPayloadLimit | snellv6/profile.go:347-359 | a chunk limit stays within the profile's bounds for every policy and every pseudo-random function |
| Profile.ComputeWriteTarget | snellv6/profile.go:388-430 | the growth loop ends for every pseudo-random function; the result covers the frame and is at most 2256, so saturation never happens |
| Profile.PaddingLen | snellv6/profile.go:368-386 | padding never exceeds the headroom reserved for it |
| Profile.FirstRecordCover | snellv6/profile.go:432-451 | a first record within the cap hides its handshake behind at least a third of its size, and at least 0xc0 octets |
| ProfileLaws.FieldsAreIndependent | snellv6/profile.go:269-341 | every combination of the fields that are drawn on their own is the one of some profile, so no two share a draw and each reaches its whole range |
| ProfileLaws.SizesAreIndependent | snellv6/profile.go:292-341 | every feasible combination of the padding, chunk and write sizes is the one of some profile too |
| ProfileLaws.PrefixReaches | snellv6/profile.go:343-345 | every prefix length of the profile's range is drawn |
| ProfileLaws.ChunkLimitByPolicy | snellv6/profile.go:347-359 | a chunk limit is the size itself, one of the eight buckets, or within the jitter of the size, by policy |
| ProfileLaws.ChunkLimitReaches | snellv6/profile.go:347-359 | and reaches every bucket, and every distance of the jitter |
| ProfileLaws.TargetBy | snellv6/profile.go:388-430 | the first records aim at the write sequence, later ones at a bucket, with jitter under one policy only |
| ProfileLaws.TargetReaches | snellv6/profile.go:388-430 | and reach every bucket and every distance of the jitter |
| ProfileLaws.NextTargetIs | snellv6/profile.go:388-430 | a target too small grows to any drawn bucket above it, or past a bucket that is not by padMax |
| ProfileLaws.InitialTargetIs | snellv6/profile.go:388-411 | the spread goes on top of the drawn target, or half of it comes off where it can |
| ProfileLaws.InitialTargetReaches | snellv6/profile.go:388-411 | and either happens, by the parity of a draw, whatever bucket is drawn |
| ProfileLaws.LaterPadding | snellv6/profile.go:368-386 | a later record's padding is what it draws, if it is one of those that draw, and its growth to the write target |
| ProfileLaws.LongRecordPadding | snellv6/profile.go:368-386 | over 0x5b3 octets there is no growth: the padding is any amount from padMin to padMax, or none for records that do not draw |
| ProfileLaws.SomeRecordIsPadded | snellv6/profile.go:368-386 | among any padInterval records in a row one has at least padMin octets of padding, whatever their payloads |
| ProfileLaws.FirstPadding | snellv6/profile.go:368-386 | the first record's padding is drawn and grows alike, its salt block counted in the frame, and then rises to the threshold within the headroom |
| ProfileLaws.FirstPaddingIs | snellv6/profile.go:432-451 | a first record's padding rises just to the threshold, within the headroom |
| ProfileLaws.ThresholdIs | snellv6/profile.go:432-451 | the threshold is a third of payload and overhead, rounded up, and at least 0xc0 |
| SaltBlock.ShufflePermIsPermutation | snellv6/salt.go:14-35 | the shuffle is a permutation of the positions for every round count and every length up to 256 |
| SaltBlock.ComputeShufflePerm | snellv6/salt.go:14-35 | the loops compute that shuffle |
| SaltBlock.EveryPermutationDrawn | snellv6/salt.go:14-35 | each single round of the shuffle, by the draws of its own domain, reaches every permutation of up to 256 positions, so the salt may stand anywhere in its block |
| SaltBlock.MaskRises | snellv6/salt.go:37-40 | the part of the masks that is not keyed starts at 0 and rises by the stride, wrapped to an octet |
| SaltBlock.SaltStands | snellv6/salt.go:51-56 | octet i of the salt stands under its mask where the shuffle puts i, and all else in the block is filler |
| SaltBlock.SaltRoundTrip | snellv6/salt.go:42-56 | the salt comes back out of the block it was hidden in, whatever else fills the block |
| SaltBlock.WriteSaltBlock | snellv6/salt.go:51-56 | the block is written in place as the specification says, and nothing outside it |
| SaltBlock.ComputeExtractSalt | snellv6/salt.go:42-49 | the reader's loop computes the extraction the round trip is about |
| Mixing.MixIsInvolution | snellv6/mixing.go:3-54 | mixing twice gives padding and ciphertext back, for every mode, stride, block, round count and sequence number |
| Mixing.MixExchanges | snellv6/mixing.go:3-54 | mixing exchanges exactly the positions that an odd number of rounds exchange, which are those in one residue class of the stride, or in every other whole block, by mode |
| Mixing.MixPaddingPayload | snellv6/mixing.go:3-54 | the nested swap loops compute that mixing in place, and touch nothing else |
| ShapedCodec.SaltedBlockRoundTrip | snellv6/shaped.go:49-56 | the first record's salt block yields the salt |
| ShapedCodec.RecordRoundTrip | snellv6/shaped.go:34-76 | a reader in step reads back the record's payload, or the end of stream, and is in step with the octets behind it |
| ShapedCodec.WireRoundTrip | snellv6/shaped.go:373-462 | a run of records is read back record by record, and both ends hold the same sequence number and nonce afterwards |
| ShapedCuts.LayoutIs | snellv6/shaped.go:34-76 | a first record's layout has the salt block and covers the handshake, a later one has neither salt block nor cover |
| ShapedCuts.CutRecord | snellv6/shaped.go:373-462 | a record cut anywhere is heard as the end of the stream if it is cut between two of its fields, and as a broken one if not |
| ShapedCuts.CutWire | snellv6/shaped.go:373-462 | so a connection that is cut off delivers every whole record, and then that |
| ShapedCuts.CutFeeds | snellv6/record.go:49-134 | to who uses the reader that is one more end of stream, or a broken connection |
| ShapedCodec.RecordsAreCounted | snellv6/shaped.go:74 | the sequence number counts the records, modulo 2^32 |
| ShapedCodec.SealsAreCounted | snellv6/shaped.go:34-76 | the nonce counts the seals, one for each header and one for each payload |
| ShapedCodec.NoNonceSealedTwice | snellv6/shaped.go:34-76 | no two seals of a stream use the same nonce, up to 2^96 of them |
| ShapedStream.PerformAllSays | snellv6/shaped.go:152-238 | after any run of writes at any times the records say exactly the data, one end for each zero chunk |
| ShapedStream.EntryDelivers | snellv6/record.go:49-134 | one call of any entry point hands out what is next in line and leaves the reader in step |
| ShapedStream.StreamRoundTrip | snellv6/record.go:49-134 | on any run of writes, any mix of entry points never fails, hears a prefix of what was said, all of it once nothing is left, and all of it after as many calls with room as there are octets and ends |
| ShapedStream.CountersAgree | snellv6/shaped.go:373-462 | after any run of writes has been read, both ends have counted the same records and the same seals |
| ShapedPacing.StartsAgain | snellv6/shaped.go:134-150 | more than idleResetSec after the last record the initial chunk size is in force again, and growth starts from there |
| ShapedPacing.SplitIsCut | snellv6/shaped.go:152-176 | a write to a stream that has been lively for n records is cut into records as long as the limits of the sizes min(initial + n * step, maximum) and on, but for the last |
| ShapedPacing.LivelyRunIsWithin | snellv6/shaped.go:134-176 | however a lively stream is cut into writes and zero chunks, each record is within the limit of its place in the stream |
| ShapedWriter.ShapedWriter.PayloadLimitFor | snellv6/shaped.go:134-150 | the limit and the chunk state follow the idle-reset and growth rules |
| ShapedWriter.ShapedWriter.MakeSliceRecord | snellv6/shaped.go:34-76 | a record built from a slice is the record of the specification, octet by octet |
| ShapedWriter.ShapedWriter.MakeBufferRecord | snellv6/shaped.go:78-118 | a record built in place around its payload is the same record, with the same next state |
| ShapedWriter.ShapedWriter.FrontHeadroom | snellv6/shaped.go:337-343 | the reserved headroom holds the front of every record |
| ShapedWriter.ShapedWriter.Write | snellv6/shaped.go:152-176 | what is sent is the wire of the split, and the state is the split's |
| ShapedWriter.ShapedWriter.WriteBuffer | snellv6/shaped.go:178-206 | the same octets and state as Write of the buffer's contents, in place or split |
| ShapedWriter.ShapedWriter.WritePacketBuffer | snellv6/shaped.go:208-228 | one whole datagram in one record, nothing for an empty one, an error and no change for one too long |
| ShapedWriter.ShapedWriter.WriteZeroChunk | snellv6/shaped.go:230-238 | the zero chunk's record, advancing the chunk state |
| ShapedReader.ShapedReader.ReadRecord | snellv6/shaped.go:373-462 | the reader's program is the reading function of the round trip, on every input |
| ShapedReader.ShapedReader.Read | snellv6/record.go:73-90 | Read through the cache is that entry point |
| ShapedReader.ShapedReader.ReadBuffer | snellv6/record.go:92-110 | ReadBuffer likewise |
| ShapedReader.ShapedReader.NextRecord | snellv6/record.go:49-60 | NextRecord likewise |
| ShapedReader.ShapedReader.WaitReadBuffer | snellv6/record.go:117-134 | WaitReadBuffer likewise |
| ShapedRuns.RunOps | snellv6/shaped.go:152-238 | what a run of calls of the writer has sent is the wire of its records, the octets of the stream theorem |
| ShapedRuns.RunCalls | snellv6/record.go:49-134 | what a run of calls of the reader hears, and where it leaves the reader, is what that theorem is about |
| ShapedRuns.Transmit | snellv6/record.go:49-134 | a new reader on what a new writer has sent never fails, hears a prefix of what was said, and all of it once nothing is left or after enough calls with room; at the end it has counted the records |
| ReuseClosing.NextKeepsInv | snellv6/reuse.go:242-280 | every atomic step of a read, of Close, of the drainer, or of others that close the session at any time keeps the invariant of the protocol |
| ReuseClosing.ReachableInv | snellv6/reuse.go:468-512 | so it holds in every reachable state |
| ReuseClosing.DrainerReadsAlone | snellv6/reuse.go:160-217 | once a drainer runs, no read is inside the session's reader |
| ReuseClosing.PooledOnlyWithReply | snellv6/reuse.go:468-481 | no session goes to the pool with its reply unread |
| ReuseClosing.PooledOrClosed | snellv6/reuse.go:468-512 | when Close is over, the session is in the pool or closed |
| ReuseClosing.StoredEofHeeded | snellv6/reuse.go:482-503 | an end of stream stored before Close's first look keeps the session from waiting at all, before its last look from waiting without a drainer |
| ReuseClosing.NoReadBegins | snellv6/reuse.go:242-250 | once Close has begun and no read is in a call, none gets in any more |
| ReuseClosing.ErrorAfterCloseKills | snellv6/reuse.go:262-270 | a read stopped by an error after Close has begun closes the session before it returns |
| ReuseClosing.ReadyAfterEof | snellv6/reuse.go:177-217 | a session is Ready only after this connection's end-of-stream record has been taken |
| ReuseClosing.ClosedExactlyOnce | snellv6/reuse.go:153-158 | Closed is for good, and the connection is closed exactly once |
| ReuseClosing.LateEofKeptIff | snellv6/reuse.go:242-280 | an end of stream taken by a read that saw closed is kept if and only if Close has not chosen to drain |
| ReuseClosing.LateEofLost | snellv6/reuse.go:468-512 | a run in which it is lost, with the session left Waiting |
| ReuseClosing.LostForGood | snellv6/reuse.go:177-217 | a session left like that never becomes Ready |
| ReuseClosing.LeftWaitingIff | snellv6/reuse.go:468-512 | after Close, a session not closed is Waiting with no drainer if and only if Close did not choose to drain, saw readClosed at neither look, and no read has taken the end of stream since it saw closed |
| ReuseClosing.EarlyEofLeavesNoDrainer | snellv6/reuse.go:468-512 | a run that ends like that with the end of stream already taken: nobody is left to make the session Ready |
| ReuseClosing.CanBecomeReadyIff | snellv6/reuse.go:160-280 | a session Waiting after Close can still become Ready, in some interleaving, if and only if the drainer or a read has the end of stream and is about to swap the state, or it has not been taken and a drainer or a read is there to take it |
| ReuseClosing.DataLeavesNoDrainer | snellv6/reuse.go:257-278 | a run that leaves the session Waiting, the end of stream not taken, and nobody there to take it |
| ReuseProgress.CloseIsShort | snellv6/reuse.go:468-512 | in every interleaving Close takes no more than twelve steps |
| ReuseProgress.CloseEndsAlone | snellv6/reuse.go:468-512 | from every state Close, left to itself, comes to its end, whatever reads are doing |
| ReuseProgress.ReaderStepsOn | snellv6/reuse.go:242-280 | a read in a call is never without a step to take |
| ReuseProgress.DrainerSettles | snellv6/reuse.go:177-199 | a drainer that has ended has made the session Ready, or it is closed |
| ReusePool.Pool.Visit | internal/reuse/reuse.go:77-100 | what one entry comes to, with other goroutines at work between the load and the swap |
| ReusePool.Pool.Sweep | internal/reuse/reuse.go:114-132 | the traversal removes exactly the closed, the expired and the one taken, and takes the first that is Ready |
| ReusePool.Pool.Take | internal/reuse/reuse.go:71-107 | the session handed out and held, the entries left, and every expired session closed |
| ReusePool.Pool.MoveToPool | internal/reuse/reuse.go:109-153 | a session is kept exactly if the pool is open and has room after the traversal, and closed otherwise |
| ReusePool.Pool.Tick | internal/reuse/reuse.go:155-202 | the expire loop goes on exactly while an open pool has entries |
| ReusePool.Pool.Reset | internal/reuse/reuse.go:208-223 | the list is emptied and every session on it closed |
| ReusePool.Pool.Close | internal/reuse/reuse.go:225-247 | the same, for good |
| ReusePool.Pool.CloseAll | internal/reuse/reuse.go:103-105 | every named session is closed, whatever others do meanwhile |
| ReusePool.RunInv | internal/reuse/reuse.go:71-247 | the pool's invariant holds in every world of every interleaved run |
| ReusePool.PoolSafety | internal/reuse/reuse.go:71-247 | ten entries at most, each session once and never Active, one expire loop, one closing of each connection, no negative drain count |
| ReusePool.NothingLost | internal/reuse/reuse.go:94-106 | a session that is not closed is listed, held, being handed over, or about to be closed by some method |
| ReusePool.TakenThenReturned | internal/reuse/reuse.go:92-98 | a session taken is put back before it is taken again |
| PoolMoves.ReturnedThenTaken | internal/reuse/reuse.go:109-153 | a session given back is taken before it is given back again |
| PoolMoves.OthersMakeIff | snellv6/reuse.go:153-217 | swapping, draining and closing, in any order and number, make of a session exactly what the runs let other goroutines make of it |
| PoolMoves.AnyNumberDialled | snellv6/reuse.go:60-98 | they may dial any number of sessions, without touching the others |
| PoolMoves.CloseCanFinish | internal/reuse/reuse.go:225-247 | from every closed pool that was ever used a run goes on to where no loop and no drainer is left, so Close can return |
| ReusePool.ClosedForGood | snellv6/reuse.go:153-158 | a closed session stays closed, its connection closed once |
| ReusePool.PoolClosedForGood | internal/reuse/reuse.go:225-247 | a closed pool stays closed and empty, starts no loop, and its drain count only falls |
| PoolRuns.TakeRuns | internal/reuse/reuse.go:71-107 | what Take does, with any moves of others, is a stretch of a run of the pool, keeps its invariant, and a closed pool hands out nothing |
| PoolRuns.MoveToPoolRuns | internal/reuse/reuse.go:109-153 | so is MoveToPool; a session that is not kept ends up closed, and one kept for draining owes one drainer |
| PoolRuns.TickRuns | internal/reuse/reuse.go:155-202 | so is a tick of a live expire loop, which ends one loop or goes on |
| PoolRuns.ResetRuns | internal/reuse/reuse.go:208-223 | so is Reset |
| PoolRuns.CloseRuns | internal/reuse/reuse.go:225-247 | so is Close, behind which the pool is closed and empty |
| PoolRuns.DrainDoneRuns | snellv6/reuse.go:177-199 | so is the end of a drainer that runs: the wait group has it counted |
| PoolRuns.InitRuns | internal/reuse/reuse.go:55-69 | so is the making of a pool's stop channel |
| PoolRuns.StretchKeepsInv | internal/reuse/reuse.go:71-247 | a stretch of any length keeps the invariant |
| Request.RequestRoundTrip | request.go:17-38 | reading what was written gives the request back and leaves what follows untouched, in RequestLen octets, at most 516 |
| Request.AcceptedIsEncoded | request.go:51-80 | whatever is accepted is exactly an encoding and its rest |
| Request.RefusedIff | request.go:17-38 | Write refuses exactly overlong fields and unknown commands |
| Request.ErrorIff | request.go:51-80 | a refused input's error is the version's, the end of input between two fields or inside one, or the command's, by conditions on length and octets alone |
| Request.PingByTwoOctets | snellv6/server.go:115-149 | the v6 server takes an input for a ping by its first two octets alone |
| Request.V6RoundTrip | snellv6/server.go:115-149 | the v6 server reads the same requests, but leaves a ping's client id unread |
| Request.FrontParsesIff | snellv6/server.go:115-149 | a front of a connect request and early data parses as that request if and only if all of the request is in it, and is malformed otherwise |
| RecordFeed.RecordIsItem | snellv6/shaped.go:373-462 | on any octets, reading a record takes the next item of what the reader will be given |
| RecordFeed.EntryIsCall | snellv6/record.go:49-134 | on any octets, each entry point does to cache and items what it should |
| RecordFeed.WireFeeds | snellv6/record.go:49-134 | on a writer's octets, to their end, those items are what was written |
| ServerSession.ReadInside | snellv6/reuse.go:841-855 | a handler's read takes octets of its own input, or its own zero chunk and nothing behind it |
| ServerSession.DrainInside | snellv6/reuse.go:714-740 | draining ends just behind the zero chunk, exactly if less than 0x80001 octets are left |
| ServerSession.ServeResynchronises | snellv5/reuse.go:35-156 | on records each logical connection of which begins with its whole request in one record (RequestRecords and LegacyRequests say when writers make them), each handler hears a prefix of exactly its own early data and data, also one in which the context ends, the next request parsed is the next one asked, and the session ends only for the named reasons, one of them what follows the last connection |
| ServerSession.OnlyLastAborts | snellv6/reuse.go:928-947 | on any stream every side answers but one in which the context ends, and only the last may answer with the error, which ends the session |
| ServerSession.ServesOnlyAccepted | snellv6/reuse.go:645-691 | on any stream, handlers run for connect requests of accepted clients only |
| ServerSession.DeclinedIff | snellv6/reuse.go:645-691 | a request starts no logical connection if and only if its client is not accepted or it is no connect request, and each kind of it ends the session in its own way |
| ServerSession.StrangerOutcome | snellv6/reuse.go:645-653 | a connect request of a client not accepted, behind any served connections, ends the session unserved |
| ServerSession.Decline | snellv6/reuse.go:647-691 | the program's switch declines exactly those, answers a ping, and closes the connection but for a packet tunnel |
| ServerSession.RepliesRoundTrip | snellv6/reuse.go:775-839 | the reply stream read back gives what each handler said, and at the end at most one error or one answer cut short |
| ServerSession.ErrorReplyIff | internal/reuse/reuse.go:271-291 | a client reads an error reply exactly from code, length and message with nothing behind |
| ServerSession.Conn.Write | snellv6/reuse.go:857-871 | the tunnel octet goes in front of the first data, split if it must be, and the stream keeps its grammar |
| ServerSession.Conn.WriteBuffer | snellv6/reuse.go:873-884 | the same for buffers |
| ServerSession.Conn.CloseWrite | snellv6/reuse.go:928-947 | a zero chunk after a reply, the error reply and a closed connection without one; once |
| ServerSession.DrainRest | snellv6/reuse.go:721-735 | the discarding loop is the specification's drain |
| ServerSession.ServeCut | snellv6/reuse.go:700-706 | when the context ends, what the handler has done by then has been sent, no more is, and the connection is closed |
| ServerSession.Serve | snellv6/reuse.go:636-756 | the loop serves exactly the connections of the specification, the last of them perhaps cut short by the context, sends their replies, and closes the connection exactly when it should |
| RequestRecords.FirstRecordParsesIff | snellv6/handshake.go:81-103 | a v6 request parses from the first record of its write if and only if it is within the payload limit in force, and is malformed there otherwise |
| RequestRecords.ShortRequestFits | snellv6/shaped.go:134-150 | after any run of writes the limit leaves room for a request of 256 octets |
| RequestRecords.LongRequestIsSplit | snellv6/reuse.go:324-359 | a request of 261 octets that the server cannot read, at any time, under every profile whose first record cap is lower |
| RequestRecords.EveryRequestFitsIff | snellv6/shaped.go:134-150 | every connect request fits a limit if and only if the limit is at least 516 |
| RequestRecords.ClientStream | snellv6/reuse.go:324-359 | a v6 client's records are the logical connections it asked for, exactly up to the first request that is split, and then begin with a malformed request |
| RequestRecords.ServeV6Client | snellv6/reuse.go:636-756 | over the octets of a v6 connection the server serves request after request, each handler hearing a prefix of what its client sent, exactly as far as the requests went out whole; behind them it sees the end, or refuses the split request |
| RequestRecords.FirstRequestLost | snellv6/server.go:151-160 | if already the first request is split, none is served |
| LegacyRequests.FirstV5RecordParsesIff | snellv5/record.go:271-324 | a v5 request parses from the first record if and only if batch and limit hold it, and at the start of a batch they do |
| LegacyRequests.RequestBehindZeroChunk | snellv5/record.go:512-524 | a request written behind a zero chunk, at any times, parses from its first record, with a prefix of its early data |
| LegacyRequests.V5WriterStream | snellv5/record.go:296-324 | the records of whoever asks through a v5 writer are the logical connections asked for, all of them |
| LegacyRequests.V4ClientStream | snellv4/record.go:299-323 | likewise a v4 client's |
| LegacySessions.ServeV4Client | snellv5/reuse.go:35-156 | over the octets of a v4 client's connection a v5 server parses request after request as asked, each handler hearing a prefix of what its client sent |
| ReplyRecords.RepliesHeard | snellv6/reuse.go:219-280 | however the reply stream is cut into records, each client is told what its own handler said: a prefix, all of it if it reads to the end, the error if there was no answer; and the next one is reached exactly as long as little enough is left unread |
| ReplyRecords.RepliesOverV6 | snellv6/reuse.go:775-839 | so it is over the octets of a v6 connection, for every server's handlers and every run of writes that says their replies |
| ReplyRecords.EndSoundsLikeZeroChunk | snellv6/record.go:49-134 | clients are told the same on a connection that ends and on one with one more zero chunk at its end |
| LegacySessions.RepliesToV4 | snellv4/reuse.go:215-280 | so it is over the octets of a v5 server's connection to a v4 client that finds no octets behind a zero chunk |
| TlsObfs.Conn.AppendRecords | obfs.go:259-268 | the loop frames all of its input in sized records |
| TlsObfs.Conn.Write | obfs.go:317-389 | the first write sends the hello with its payload, the rest goes out as records |
| TlsObfs.Conn.ReadRecord | obfs.go:270-295 | the record reader with its remainder is the specification's |
| TlsObfs.Conn.Read | obfs.go:398-428 | reading skips the server name once, behind the ticket |
| TlsObfs.NameSkipped | obfs.go:408-426 | the skip ends exactly behind the hello's trailer |
| TlsObfs.ReadStep | obfs.go:304-315 | one read hands out the octets next in line, and waits only when nothing written is left |
| TlsObfs.PipeRefines | obfs.go:398-479 | in both directions, reads of any positive sizes hear a prefix of what was written in any pieces, and all of it before one has to wait |
| TlsHello.HelloWellFormed | obfs.go:343-382 | record, handshake and extension lengths count the octets behind them, and the extensions parse to the ticket, the host name and the fixed ones |
| TlsHandshake.ClientHelloParses | obfs.go:343-382 | walked by its own lengths alone, the ClientHello is version, random, session id, cipher suites, one compression and the extensions, whose inner lists fill them exactly |
| TlsHandshake.ServerHelloIllFormed | obfs.go:452-471 | the ServerHello's handshake length and session id are right, but it does not parse: it states no extensions and has three |
| TlsHandshake.ServerHelloParsesIff | obfs.go:452-471 | it would parse exactly if the length of its extensions were 15, and then to those three |
| TlsHello.HelloLengthIff | obfs.go:346-350 | the record length is right, and within 2^14, exactly under the stated conditions |
| TlsHello.ClientStreamParses | obfs.go:343-389 | the client's stream is one handshake record and application data records of at most 2^14 octets |
| TlsHello.ServerStreamParses | obfs.go:452-479 | the server's stream parses to a 91-octet handshake record, a change of cipher spec, a record with the first payload, and application data, all within 2^14 |
| TlsHello.ClientStreamFitsIff | obfs.go:317-389 | all a client can write goes out in records of at most 2^14 octets if and only if its host has at most 15148 (of the hosts whose lengths fit their fields) |
| TlsHello.ServerStreamFits | obfs.go:438-479 | all a server can write goes out so |
| HttpObfs.MatchedIsLongest | obfs.go:166-173 | one octet more and matched is again the longest suffix that begins the terminator |
| HttpObfs.ScanIsLongest | obfs.go:158-175 | so it is after any input without a terminator |
| HttpObfs.HeadEndIsFirst | obfs.go:158-175 | the reader stops exactly behind the first terminator, and fails exactly if there is none |
| HttpObfs.Head.Read | obfs.go:154-180 | the matching loop delivers every octet behind the head unchanged |
| HttpObfs.ClientPipeIff | obfs.go:194-220 | the server hears exactly what was written if and only if address and host line hold no empty line |
| HttpObfs.ServerPipe | obfs.go:233-248 | the client hears exactly what was written |
| HttpObfs.Client.Write | obfs.go:194-220 | the head goes out with the first write only |
| LegacyCodec.EvenSwapTwice | snellv4/record.go:369-372 | exchanging the even octets twice gives both sides back |
| LegacyCodec.SwapEven | snellv4/record.go:369-372 | the loop exchanges them in place and touches nothing else |
| LegacyCodec.PieceRoundTrip | snellv5/record.go:54-117 | a reader of either version reads back a record of either version, with any padding octets |
| LegacyCodec.PiecesRoundTrip | snellv4/record.go:66-139 | a run of records is read back, the nonces stay aligned, and only v4 objects to octets behind a zero chunk |
| LegacyCodec.ConnectionRoundTrip | snellv4/record.go:45-139 | a reader of either version that derives its cipher from the salt it finds reads back a whole connection |
| LegacyCodec.AroundInStepIff | snellv5/record.go:411-439 | a record built in place leaves the reader in step if and only if its payload is not empty |
| LegacyStream.ConnectionHeardIff | snellv4/record.go:45-139 | from the salt on, either reader hears exactly what the records say if and only if no v4 reader finds octets behind a zero chunk; either way it ends on the writer's nonce |
| LegacyReader.Reader.ReadRecord | snellv4/record.go:45-139 | the reader's program, reading the salt and deriving the cipher first if need be, is that reading function on every input |
| LegacyWriter.CutSize | snellv5/record.go:304-305 | the buffer size computed in advance is the size of the records |
| LegacyWriter.CutCarries | snellv4/record.go:312-321 | data cut at the limit fits the format and reassembles |
| LegacyWriter.SealRecord | snellv5/record.go:375-399 | a record sealed into a buffer is the record of the specification |
| LegacyWriter.SealAround | snellv5/record.go:411-439 | a record sealed around its payload is the same, with the same nonces |
| LegacyWriter.SealBatch | snellv5/record.go:304-314 | the batch's buffer ends up exactly full |
| PacingV5.PaceStaysSane | snellv5/record.go:245-269 | every limit stays in 894..16383 |
| PacingV5.LimitIgnoresPartition | snellv5/record.go:271-285 | however a lively stream is offered, the octet at offset j goes out under the limit min(first + (j / 196608) * 1421, 16383) |
| PacingV5.CeilingAt | snellv5/record.go:271-285 | that is 16383 exactly from offset 11 * 196608 on, for every initial padding |
| PacingV5.RestartsAfterIdle | snellv5/record.go:245-285 | 31 seconds after the last frame a new batch begins with the limit 1421, whatever was left of the old one |
| PacingV5.GrowsAfterIdle | snellv5/record.go:245-285 | and k octets later the limit is min(1421 + (k / 196608) * 1421, 16383) |
| WriterV5.Writer.NextStreamPayloadBatch | snellv5/record.go:271-285 | the program computes the batch of the pacing rules |
| WriterV5.Writer.WriteBatch | snellv5/record.go:304-317 | one exactly sized buffer holds the batch's records |
| WriterV5.Writer.Write | snellv5/record.go:296-324 | what is sent is the plan's records |
| WriterV5.Writer.WriteFirst | snellv5/record.go:326-373 | the salt and the padding precede the first payload |
| WriterV5.Writer.WriteBuffer | snellv5/record.go:441-478 | the same octets and state as Write of the contents |
| WriterV5.Writer.WritePacketBuffer | snellv5/record.go:480-510 | one record, or an error and no change, exactly by the limit |
| WriterV5.Writer.WriteZeroChunk | snellv5/record.go:512-524 | the zero chunk uses up one step of the window |
| WriterV5.PlanSays | snellv5/record.go:296-324 | records split at the limits say exactly the data |
| StreamPacing.WritePaced | snellv5/record.go:271-324 | each record a lively write plans is exactly as long as the limit at its offset, the end of the write and the end of its batch allow |
| StreamPacing.PlannedWithinLimits | snellv5/record.go:271-324 | however a lively stream is cut into writes, each record is within the limit at its own offset |
| WriterV5.RunOps | snellv5/record.go:296-524 | what a run of writes has sent is the salt and the plan's records, the octets of the stream theorem |
| WriterV5.StreamV5RoundTrip | snellv4/record.go:45-139 | from the salt on, any run of v5 writes is heard exactly by a reader of either version, unless (and then not) a v4 reader finds octets behind a zero chunk; both ends agree on the nonce |
| WriterV4.RunStaysSane | snellv4/record.go:269-290 | over every run the limit stays in 894..16383, so its panics cannot be reached |
| WriterV4.LimitGrows | snellv4/record.go:269-290 | never idle, the n-th operation has the limit min(first + n * 1421, 16383) |
| WriterV4.RestartsAfterIdle | snellv4/record.go:269-290 | 31 seconds after the last write the limit is 1421, whatever it was |
| WriterV4.GrowsAfterIdle | snellv4/record.go:269-290 | and n lively operations later min((n + 1) * 1421, 16383) |
| WriterV4.FirstRecordFits | snellv4/record.go:325-376 | the first record with salt and padding is at most 1460 octets, and 1460 exactly if it is full |
| WriterV4.RequestInFirstRecord | request.go:41-49 | a request lies wholly in the first record of its write |
| WriterV4.RunOps | snellv4/record.go:299-376 | what a run of writes has sent is the salt and the plan's records, the octets of the stream theorem |
| WriterV4.StreamV4RoundTrip | snellv5/record.go:54-117 | from the salt on, any run of v4 writes is heard exactly by a reader of either version, unless (and then not) a v4 reader finds octets behind a zero chunk; both ends agree on the nonce |
| WriterV4.Writer.Write | snellv4/record.go:538-557 | what is sent is the salt if due and the plan's records |
| WriterV4.Writer.WriteBytes | snellv4/record.go:299-323 | one limit for the whole call, padding for the first record only |
| WriterV4.Writer.WriteBuffer | snellv4/record.go:577-601 | the same octets and state as Write of the contents, at the time its limit was read |
| WriterV4.Writer.WritePacketBuffer | snellv4/record.go:743-770 | one record whichever way it is built, or an error and no change |
| WriterV4.Writer.WriteZeroChunk | snellv4/record.go:559-575 | the zero chunk advances the window too |
| PaddingBits.SwapIndexInRange | snellv4/record.go:515-527 | the shuffle index stays inside what remains, for every 31-bit random number |
| PaddingBits.Shuffle | snellv4/record.go:515-528 | the loop computes the shuffle of its random numbers in place |
| PaddingBits.ShuffleKeepsOnes | snellv4/record.go:515-528 | the shuffle keeps the number of ones |
| PaddingBits.EveryArrangement | snellv4/record.go:515-528 | for up to 46340 bits every arrangement of the ones comes out for some random numbers |
| PaddingBits.PackedCount | snellv5/record.go:595-600 | packing bits into octets keeps their number |
| PaddingBits.FillPaddingWithBitCount | snellv4/record.go:502-536 | exactly oneBits bits of the padding are set |
| SaltReplay.StillKept | snellv5/server.go:114-132 | bits are cleared only when all they stand for is a full generation old |
| SaltReplay.NeverForgotten | snellv5/server.go:114-132 | a salt accepted within the last 500000 acceptances is reported as a duplicate, in every run |
| SaltReplay.RefusedIff | snellv5/server.go:114-132 | after any run a salt is refused if and only if its probes all fall on those of the salts accepted in the generation in use, or all on those of the full one before it |
| SaltReplay.FreshAcceptsIff | snellv5/server.go:114-132 | a fresh cache accepts every salt, unless it never looks at a bit |
| SaltReplay.HashAtIs | snellv5/server.go:57-80 | the k-th probe is at first + k * step, wrapped to 32 bits |
| SaltReplay.Bloom.Contains | snellv5/server.go:57-69 | true exactly if every probed bit is set |
| SaltReplay.Bloom.Add | snellv5/server.go:71-80 | sets exactly the bits that Contains probes |
| SaltReplay.Cache.CheckAndAdd | snellv5/server.go:114-132 | the two generations, counts and switch are the specification's |

## Left out

- Key derivation and AES-GCM: a cipher is known by opening what it sealed and by its 16-octet tag; nothing is claimed about secrecy.
- The constants of the v6 pseudo-random function and the generators of fillPadding in snellv6/profile.go: any functions.
- The floating-point ratio tests in fillPadding of v4 and v5, and the sizing of the replay filter: any number that passes the guards, any size.
- The hash function of the replay filter: any function of data and seed.
- Errors of the underlying connection while writing: a write is taken to succeed.
- The vectorised writers: they make the same records as the writers that are modelled.
- The unshaped and raw modes of v6: plain framing without padding.
- Pooling and release of buffers: a buffer is an array with a start and an end.
- UDP tunnels: the session loop hands them over and ends; packet framing is not modelled.
- A v5 or v4 server's session as a program: ServerSession.Session runs over the v6 reader; its specification and theorems are about any feed of records.
- Authentication: the server loop takes any predicate on client ids, asked for every command but a ping (v5 does not ask for an unknown command, which the request parser has refused by then).
- How a destination is read from and written to text: a host is a string of octets, a port a number.
- Claims across logical connections about a compare-and-swap that fires late: ReuseClosing looks at one logical connection; ReusePool allows such a swap at any time.
- Reads after end of stream: callers that go on reading would take the next connection's records.
- How many records a session has buffered when a v4 zero chunk arrives: a parameter of the reader.
- The goroutine of the expire loop and its ticker: each tick is a method call at any time; stopping it is a step of a run.
- Waiting in Pool.Close for the drainers: PoolClosedForGood shows what it waits for can only fall, PoolMoves.CloseCanFinish that it can come to an end.
- TLS obfuscation of a host of 65536 octets or more: its length does not fit the field that the reader skips by.
- What an HTTP obfuscation head says beyond address and host: any nonempty lines without line breaks.
