# Verification of the HTTP/2, HPACK and WebTransport engine

A Dafny model of the engine's four state machines, which have no clock, threads or sockets, with
proofs about all their inputs and all their runs.

- **HPACK** (`Hpack*.dfy`, `Huffman*.dfy`, `DynamicTable.dfy`, `StaticTable.dfy`, `Bits.dfy`): prefix
  integers, Huffman coding on a 64-bit accumulator, the dynamic table, encoder and decoder objects,
  and the agreement of both ends over whole runs. Bit strings are an inductive type; the code table
  and the static table are literal.
- **WebTransport session** (`Wt*.dfy`, `Bounded.dfy`, `Utf8.dfy`): a session as a value with the
  histories of what it emitted, took up and told its application; an object that refines it method
  by method; an invariant of one session, kept under any peer but for one exactly stated case; and two
  sessions joined by channels of capsules, and of bytes.
- **HTTP/2 connection** (`H2*.dfy`): stream map, state machine, windows, send queues, resets, header
  blocks and settings, again as a value with histories, an object that refines it, and an invariant
  over every run. Header lists appear by what the connection asks of them, so the proofs cover any
  header validation.
- **Codecs** (`Frame*.dfy`, `Capsule*.dfy`, `VarInt.dfy`, `BigEndian.dfy`, `Streaming.dfy`): the wire
  formats and the streaming decoders, over one theory of reading items off a chunked stream.

Each object's methods are proved equal to functions on values, and the theorems are about those
functions. What the functions do is stated a second time with no reference to them: for every call and
frame, when it succeeds and what is then written, queued and reported (`H2Effects.dfy`,
`H2Answers.dfy`, `WtLocal.dfy`, `WtAnswers.dfy`); over runs, in terms of the inputs alone
(`H2Accounts.dfy`, `H2Goaway.dfy`, `WtCleanup.dfy`); and for the wire formats as grammars over octets
(`HpackOctets.dfy`, `FrameOctets.dfy`, `CapsuleOctets.dfy`). The fields that record history influence
nothing.

## Where the code does less than one might expect

Each of these is stated exactly by a lemma named here.

- An HPACK integer above the prefix maximum plus 2^63 - 1 is written by the encoder and refused by
  the decoder (`HpackInteger.DecodingEncoding`).
- Sending an empty capsule without FIN on a WebTransport stream that has carried data, or resetting
  a stream of one's own before the peer has heard of it, is allowed locally and ends the session at
  the peer; nothing else does (`WtProtocol.CareIsNeeded`, `WtProtocol.RunIsSafe`).
- The padding of a delivered DATA frame is charged to the connection window and reported by no event,
  although the documentation of the events asks the application to give back what they report
  (`H2Credit.PaddingIsNotReported`, `H2Credit.RefillRestores`).
- The limit on the size of a header block is applied to a block in several frames only
  (`H2Fragments.BlockArrives`).
- A client accepts a header block on an identifier it has not opened, and its own counter later runs into
  the stream that this makes (`H2Client.UnsolicitedResponse`, `H2Client.StartReplaces`); exactly when a
  header block does harm is `H2Client.SolicitationIsNeeded`.
- A WebTransport peer that asks a session to stop a stream it has not been told of yet is answered by a
  reset that a session which was never told of the stream refuses; it is the one accepted capsule that breaks the invariant of a
  session (`WtReceive.HandleKeeps`, `WtProtocol.EarlyStop`).
- A reset of a stream whose first header block is under way, called for by the application or by a broken
  frame of the peer, is written and recorded nowhere: when the block is whole the stream is opened, and
  its response follows the reset (`H2Sending.ResetStreamKeeps`, `H2Blocks.ResetIsOvertaken`). A stream that
  is dropped while a later block on it is under way, and forgotten among 10000 others, is opened again
  (`H2Blocks.ForgottenComesBack`). Nothing else between the frames of a block does harm (`H2Runs.RunKeeps`).
- A GOAWAY of either side makes the connection forget one of the other: after the peer's, a server opens
  streams that its own GOAWAY had ruled out, and after its own, a client starts streams that the
  peer's had ruled out; which of the two was the last is all that counts (`H2Goaway.RefusedAfterOwn`,
  `H2Goaway.RefusedAfterPeers`, `H2Goaway.PeerUndoesOwn`, `H2Goaway.OwnUndoesPeer`).
- A WebTransport session that has sent or received the close still emits resets, requests to stop and
  credit for data (`WtCleanup.ClosedStillSpeaks`, `WtCleanup.CloseIsNotLast`).
- A capsule larger than the decoder's buffer can be sent within all credit and never be read
  (`WtBytes.TooLargeIsNeverTaken`); the sizes of capsules are all that matters (`WtBytes.FittingIsEnough`,
  `WtBytes.FittingIsNeeded`).

## Model

| member | source | states |
|---|---|---|
| HpackInteger.Encode | src/hpack/integer.rs:17-47 | The loop that writes the prefix and the continuation octets leaves the specified encoding at the start of the buffer and the rest untouched; it fails exactly when the buffer is too short. |
| HpackInteger.Decode | src/hpack/integer.rs:79-122 | The loop over continuation octets computes the specified value and length or error, and its running sum never leaves 64 bits. |
| HpackInteger.DecodingEncoding | src/hpack/integer.rs:17-122 | For every prefix width and whatever follows, the encoding of a value is read back if and only if the value less the prefix maximum is below 2^63; otherwise it is refused. |
| HpackInteger.EncodedLen | src/hpack/integer.rs:51-67 | The loop that counts octets returns the length of the encoding, whatever the pattern bits, without writing it. |
| HpackInteger.EncodingLength | src/hpack/integer.rs:17-47 | No 64-bit value takes more than eleven octets, so a 16-octet scratch array is enough. |
| Huffman.DecodingEncoding | src/hpack/huffman.rs:1065-1192 | Every byte string survives Huffman encoding and decoding, over any complete prefix code whose EOS is thirty ones. |
| Huffman.EncodingDecoding | src/hpack/huffman.rs:1119-1192 | An accepted byte string is the encoding of what it decodes to: padding is strictly fewer than eight ones and EOS never appears. |
| HuffmanCoder.Encode | src/hpack/huffman.rs:1065-1103 | The loop over a 64-bit accumulator writes the bit-string encoding, leaves the rest of the buffer alone, and fails exactly when the buffer is too short. |
| HuffmanCoder.Decode | src/hpack/huffman.rs:1119-1192 | The loop over a 64-bit accumulator returns exactly what the bit-string decoder returns, errors included. |
| HuffmanCoder.EncodedLenIsLength | src/hpack/huffman.rs:1050-1056 | The precomputed length is the length of the encoding. |
| HuffmanCoder.AccumulatorFits | src/hpack/huffman.rs:1065-1103 | The left-justified accumulator always fits 64 bits. |
| HuffmanTable.TableIsGood | src/hpack/huffman.rs:1-1048 | The 257 literal code words are prefix-free, fill the code space and end in an EOS of thirty ones. |
| DynamicTable.EvictKeepsAllThatFit | src/hpack/dynamic_table.rs:173-181 | Eviction keeps as many of the newest entries as fit. |
| DynamicTable.EvictTwice | src/hpack/dynamic_table.rs:173-181 | Evicting to two limits in turn is evicting to the smaller. |
| DynamicTable.Table.InsertValid | src/hpack/dynamic_table.rs:94-116 | After an insertion the entries still fit the limit. |
| DynamicTable.Table.ResizeCollapses | src/hpack/dynamic_table.rs:59-62 | Of several sizes set in a row only the smallest and the last matter. |
| DynamicTable.FindInOnePass | src/hpack/dynamic_table.rs:148-163 | The single pass returns the first full match, or else the first match by name. |
| DynamicTable.DynamicTable.SetMaxSize | src/hpack/dynamic_table.rs:59-62 | The object follows the table as a value, and its size counter stays the size of its entries. |
| DynamicTable.DynamicTable.EvictTo | src/hpack/dynamic_table.rs:173-181 | The loop removes entries from the back until those left fit. |
| DynamicTable.DynamicTable.Insert | src/hpack/dynamic_table.rs:94-116 | Evicts first, empties the table for an entry that cannot fit, and otherwise adds it in front. |
| StaticTable.StandardTablesValid | src/hpack/table.rs:177-503 | The 61 literal entries and the literal Huffman table satisfy everything the theory of header blocks assumes. |
| HpackFormat.FindIndexSound | src/hpack/encoder.rs:106-127 | An index found names a field with that name, and with that value when it says so. |
| HpackFormat.StringRoundTrip | src/hpack/encoder.rs:205-225 | A string literal, Huffman-coded or plain, is read back whatever follows it. |
| HpackFormat.FieldRoundTrip | src/hpack/encoder.rs:60-101 | Every field is read back with its sensitive flag, and both sides go on with the same table. |
| HpackFormat.SizeUpdateRoundTrip | src/hpack/encoder.rs:228-233 | A size update within the limit is read back as a resize. |
| HpackBlock.FieldsRoundTrip | src/hpack/decoder.rs:61-127 | A whole block decodes to the header list that was encoded and leaves equal tables, unless the list is over the limit, when it is refused. |
| HpackBlock.ReadUpdates | src/connection/headers.rs:917-935 | Reading the (minimum, final) size updates takes the decoder table to where the encoder table went. |
| HpackBlock.SetKeepsSync | src/connection.rs:1351-1371 | A table size setting leaves the encoder ahead of the decoder by exactly the pending updates. |
| HpackBlock.BlockKeepsSync | src/connection/headers.rs:911-935 | After one block the receiver has the list and the two tables are equal again. |
| HpackBlock.Lockstep | src/hpack/decoder.rs:61-127 | Over any sequence of settings and blocks the receiver gets exactly the lists sent, in order, and the tables stay in step; the run fails if and only if some list is over the limit. |
| HpackCodec.Encoder.AppendString | src/hpack/encoder.rs:205-225 | Appends the specified string literal. |
| HpackCodec.Encoder.LookUp | src/hpack/encoder.rs:106-127 | Finds what the two tables as values contain. |
| HpackCodec.Encoder.EncodeHeader | src/hpack/encoder.rs:60-87 | Appends the specified representation and leaves the specified table. |
| HpackCodec.Encoder.EncodeHeaderSensitive | src/hpack/encoder.rs:93-101 | Appends the never-indexed literal as specified and leaves the table alone; what its octets are is `HpackOctets.FieldChoice`. |
| HpackCodec.Encoder.Encode | src/hpack/encoder.rs:46-55 | The loop over a header list appends the specified block and leaves the specified table. |
| HpackCodec.Decoder.DecodeString | src/hpack/decoder.rs:228-251 | Reads what the specified string reader reads, errors included. |
| HpackCodec.Decoder.DecodeLiteral | src/hpack/decoder.rs:142-211 | Reads a literal of any of the three kinds, errors included. |
| HpackCodec.Decoder.DecodeNext | src/hpack/decoder.rs:66-106 | Reads one representation and changes the table as specified, or fails and leaves it; what octets mean is `HpackOctets.ReadIsSpelled`. |
| HpackCodec.Decoder.Decode | src/hpack/decoder.rs:61-127 | The loop over a block returns the specified list or error and leaves the specified table either way. |
| HpackSender.BlockSender.ApplyHeaderTableSize | src/connection.rs:1351-1371 | Follows the setting at once and notes the smallest and last size for the next block. |
| HpackSender.BlockSender.WriteBlock | src/connection/headers.rs:911-935 | Writes the pending updates and then the fields, and forgets the updates. |
| DynamicTable.Table.InsertKeepsAllThatFit | src/hpack/dynamic_table.rs:94-116 | A new entry stands in front, followed by as many of the newest as fit beside it; one that cannot fit leaves the table empty. |
| HpackOctets.ReadIsNumber | src/hpack/integer.rs:79-122 | What is read as an integer is one by the grammar: the prefix alone, or a full prefix and at most nine chained octets of seven bits each, least significant first. |
| HpackOctets.NumberIsRead | src/hpack/integer.rs:79-122 | Octets that are an integer by that grammar are read as it, whatever follows them. |
| HpackOctets.ReadIsText | src/hpack/decoder.rs:228-251 | What is read as a string is its length and then its octets, Huffman-coded exactly if the first bit is set. |
| HpackOctets.TextIsRead | src/hpack/decoder.rs:228-251 | Octets that are a string by that grammar are read as it, whatever follows them. |
| HpackOctets.ReadIsSpelled | src/hpack/decoder.rs:66-106 | What one representation is read as is what its octets spell: by their first bits an entry of the two tables laid end to end, a plain literal that is inserted, a size update, a plain literal or a sensitive one, both of which leave the table alone. |
| HpackOctets.SpelledIsRead | src/hpack/decoder.rs:130-225 | Whatever octets spell so is read, whatever follows them. |
| HpackOctets.StringChoice | src/hpack/encoder.rs:205-225 | The encoder writes a string with the Huffman bit if and only if that is allowed and shorter. |
| HpackOctets.FindIndexComplete | src/hpack/encoder.rs:106-127 | The search finds a field if and only if it stands in one of the two tables, and an entry of the name if and only if there is one. |
| HpackOctets.FieldChoice | src/hpack/encoder.rs:60-101 | What the encoder writes spells the field, and its first octet is 0001xxxx if and only if the field is sensitive, 1xxxxxxx if and only if it is not and stands in a table, and the plain literal asked for otherwise, which names the field by index if and only if some entry has the name. |
| HpackOctets.BlockIsRead | src/hpack/decoder.rs:61-127 | Every sequence of representations with its size updates in front is read as the fields it spells, if and only if the list is within the limit. |
| HpackOctets.ReadIsBlock | src/hpack/decoder.rs:61-127 | Every block that is read is such a sequence. |
| HpackOctets.ListSizeIsSum | src/hpack/decoder.rs:107-121 | The running size of a list is that of its names and values and 32 for each field, as far as 64 bits go. |
| WtTypes.WireArithmetic | src/webtransport/stream.rs:19-61 | The bit tests, the successor, the order and the limit test on numeric identifiers are what the fields of an identifier say; an index below 2^60 fits 62 bits. |
| WtTypes.WireIsInjective | src/webtransport/stream.rs:19-61 | Different identifiers have different numbers. |
| Bounded.BoundedMap.Insert | src/bounded_map.rs:28-34 | Inserts and then drops smallest keys until the bound is met, in whatever order the keys have; this is the record of closed WebTransport streams. |
| Bounded.BoundedSet.Insert | src/bounded_set.rs:29-35 | The same for a set; this is the record of stopped WebTransport streams and of closed HTTP/2 streams. |
| WtObject.WtSession.constructor | src/webtransport.rs:352-381 | A new session object shows the specified initial state. |
| WtObject.WtSession.OpenStream | src/webtransport.rs:526-578 | Issues the next identifier of the type with fresh credit and counts it, within the peer's stream limit; the object follows the session value, and a refused call changes nothing. |
| WtObject.WtSession.SendStreamData | src/webtransport.rs:584-649 | Sends all of the data or none: charges both windows, emits the capsule and, after the end, may forget the stream; the object follows the session value, and every refusal leaves state and output as they were. Exactly when it succeeds is `WtLocal.SendSucceeds`. |
| WtObject.WtSession.ResetStream | src/webtransport.rs:658-713 | Emits a reset whose Reliable Size is the send offset, ends the sending part and may forget the stream, as the session value says. |
| WtObject.WtSession.StopSending | src/webtransport.rs:725-789 | Asks the peer to stop, once per stream and only where this side receives, as the session value says. |
| WtObject.WtSession.Close | src/webtransport.rs:814-847 | Closes once, with the reason cut at a character boundary by a loop, as the session value says. |
| WtObject.WtSession.SendMaxData | src/webtransport.rs:859-866 | Grants session credit only above what was granted, as the session value says. |
| WtObject.WtSession.SendMaxStreamData | src/webtransport.rs:891-945 | Grants stream credit only above what was granted, and only to a receiving part that is still open, as the session value says. |
| WtObject.WtSession.SendMaxStreams | src/webtransport.rs:966-986 | Grants streams of one type only above what was granted and up to 2^60, as the session value says. |
| WtObject.WtSession.GrowRecvWindow | src/webtransport.rs:1011-1021 | Grants the present session limit plus the increment, or fails on a sum beyond 64 bits, as the session value says. |
| WtObject.WtSession.GrowStreamRecvWindow | src/webtransport.rs:1039-1056 | Grants the present stream limit plus the increment, or fails, as the session value says. |
| WtObject.WtSession.GrowMaxStreams | src/webtransport.rs:1069-1081 | Grants the present stream count plus the increment, or fails, as the session value says. |
| WtObject.WtSession.PollEvent | src/webtransport.rs:489-507 | Returns the oldest event; reading the end of a stream may let the stream go. |
| WtObject.WtSession.RemoveIfClosed | src/webtransport.rs:1643-1653 | Forgets a stream both of whose parts have ended, but for its send limit. |
| WtObject.WtSession.CreatePeerStreamsUpTo | src/webtransport.rs:1544-1570 | The loop creates every missing stream of the type up to the given one, lowest first, or none. |
| WtObject.WtSession.HandleStreamData | src/webtransport.rs:1383-1470 | Creates the streams up to the one named if need be, charges both windows and queues the data, or fails with the state the code leaves, as the session value says. |
| WtObject.WtSession.HandleStopSending | src/webtransport.rs:1171-1214 | Creates the stream if need be, notes the request and answers it with a reset, as the session value says. |
| WtObject.WtSession.HandleMaxStreamData | src/webtransport.rs:1220-1312 | Raises the send limit of a live or forgotten stream, creating it if need be, as the session value says. |
| WtObject.WtSession.HandleCapsule | src/webtransport.rs:1108-1380 | Takes up any capsule, and none once the session is closed, as the session value says. |
| WtInvariant.NewSessionOk | src/webtransport.rs:352-381 | A new session satisfies the invariant. |
| WtInvariant.OpenKeeps | src/webtransport.rs:526-578 | Opening a stream keeps the invariant. |
| WtInvariant.SendKeeps | src/webtransport.rs:584-649 | Sending keeps the invariant when the data is not idle. |
| WtInvariant.ResetKeeps | src/webtransport.rs:658-713 | Resetting keeps the invariant when the peer knows the stream. |
| WtInvariant.StopKeeps | src/webtransport.rs:725-789 | Asking the peer to stop keeps the invariant. |
| WtInvariant.MaxStreamDataKeeps | src/webtransport.rs:891-945 | Granting stream credit keeps the invariant. |
| WtInvariant.RemoveKeeps | src/webtransport.rs:1643-1653 | Forgetting an ended stream keeps the invariant while the record has room. |
| WtInvariant.PollKeeps | src/webtransport.rs:489-507 | Reading an event keeps the invariant. |
| WtReceive.CreateFromShape | src/webtransport.rs:1544-1570 | Creation adds exactly the streams of the type that never existed, fresh, and changes nothing else. |
| WtReceive.HandleDataKeeps | src/webtransport.rs:1383-1470 | Accepted data keeps the invariant. |
| WtReceive.HandleResetKeeps | src/webtransport.rs:1127-1170 | An accepted reset keeps the invariant. |
| WtReceive.HandleStopKeeps | src/webtransport.rs:1171-1214 | An accepted request to stop, with its answer, keeps the invariant if and only if the answer is not a reset of a stream of this side that the peer has not been told of. |
| WtReceive.HandleCreditKeeps | src/webtransport.rs:1220-1312 | Accepted stream credit keeps the invariant, for live and forgotten streams. |
| WtReceive.HandleKeeps | src/webtransport.rs:1108-1380 | While the bounded records have room, whatever a session accepts, from any peer, keeps its invariant, if and only if it is not a request to stop a live stream of this side, still sending, that the peer has not been told of, with an admissible code. |
| WtAccept.AcceptsExactly | src/webtransport.rs:1108-1470 | A session that is not closed accepts a capsule if and only if it fits what was exchanged before: sending part open, exact Reliable Size, no idle capsule, within stream and session credit and stream limits, strictly growing credit, no second stop. |
| WtProtocol.ApplyKeeps | src/webtransport.rs:526-1105 | Every call of a careful application keeps the invariant. |
| WtProtocol.CreditCovers | src/webtransport/flow_control.rs:175-302 | Whatever a sender believes it was granted, for a stream, the session or a stream count, the receiver has granted. |
| WtProtocol.NextIsAcceptable | src/webtransport.rs:1108-1470 | The capsule at the head of the channel is acceptable to the receiver. |
| WtProtocol.DeliverIsSafe | src/webtransport.rs:1108-1380 | Delivering it raises no error and keeps both ends sound. |
| WtProtocol.RunIsSafe | src/webtransport.rs:526-1470 | Two careful sessions joined by first-in first-out channels never make each other fail, however their steps interleave, and stay sound. |
| WtProtocol.StartIsSound | src/webtransport.rs:352-381 | A fresh client and server that know each other's settings are sound. |
| WtProtocol.EarlyStop | src/webtransport.rs:1171-1214 | A session that has just opened a stream accepts a request to stop it, answers with a reset of a stream the peer was never told of, loses its invariant, and a fresh peer refuses that reset. |
| WtProtocol.CareIsNeeded | src/webtransport.rs:584-713 | With everything delivered, the peer accepts what a send or reset emits if and only if the call was careful: no idle capsule on a stream that has carried data, no reset of a stream the peer was not told of. |
| WtEvents.HandleTells | src/webtransport.rs:1108-1470 | Whatever a session accepts, its application is told of it in order and in full. |
| WtEvents.CreateTells | src/webtransport.rs:1544-1570 | Implicit creation announces the new streams in order of index, without gaps, and nothing else. |
| WtEvents.OpeningsIncrease | src/webtransport.rs:1505-1520 | Streams of a type are announced in increasing order, each of them once. |
| WtEvents.NothingAfterTheEnd | src/webtransport.rs:1383-1470 | Nothing is delivered on a stream after its end or its reset. |
| WtEvents.DeliveredIsSent | src/webtransport.rs:584-649 | What one application was handed on a stream is the beginning of what the other sent on it, and all of it once the channel is empty. |
| WtEvents.RunTells | src/webtransport.rs:489-1470 | Over any run both applications are told in order and in full. |
| WtEvents.NewSessionTells | src/webtransport.rs:352-381 | At the start nothing has been told, in order and in full. |
| WtEvents.OffsetIsDelivered | src/webtransport.rs:1383-1470 | The receive offset of a live stream is the number of octets its application was handed. |
| WtBytes.ByteRunIsSafe | src/webtransport.rs:459-473 | Two careful sessions joined by streams of bytes, encoded, carried in pieces of any size, decoded and handled: in any interleaving nothing fails unless a decoder buffer overflows. |
| WtBytes.FittingIsEnough | src/webtransport/capsule.rs:353-363 | If every capsule that either end emits fits the buffer limit, no run that carries octet by octet fails. |
| WtBytes.FittingIsNeeded | src/webtransport/capsule.rs:353-363 | If all that an end put out has come in at the other, however it was cut up, every capsule of it fits the buffer limit. |
| WtBytes.TooLargeIsNeverTaken | src/webtransport/capsule.rs:353-412 | A capsule above the buffer limit is never taken, nor anything after it, whatever credit covers it. |
| WtBytes.StartIsSoundBytes | src/webtransport.rs:352-381 | A fresh pair of sessions and decoders is where those runs start. |
| WtAccounting.OffsetsAddUp | src/webtransport/flow_control.rs:175-195 | Session offsets are the sums of the stream offsets over live and forgotten streams, and each stream offset is what was carried on it and within its limit. |
| WtAccounting.IdentifiersArePrefixes | src/webtransport.rs:416-425 | The identifiers ever created are, for each type, exactly those below a count, and the count is within the advertised limit. |
| WtAccounting.IdentifiersFit | src/webtransport.rs:1592-1597 | Every identifier exchanged names a created stream within the limits and fits 62 bits. |
| WtAccounting.OverLimitCreatesNothing | src/webtransport/flow_control.rs:292-302 | Data, a reset, a request to stop or a credit for a stream of the peer beyond the limit is refused, with a flow-control error where it could have opened the stream, and creates nothing at all. |
| WtAccounting.ResetsAreReliable | src/webtransport.rs:658-713 | The Reliable Size of an emitted reset is the number of octets emitted on the stream before it. |
| WtAccept.RefusedAs | src/webtransport.rs:1108-1470 | A capsule that is refused is a flow-control error if only a limit speaks against it, and a stream-state error otherwise. |
| WtLocal.OpenDoes | src/webtransport.rs:526-578 | A stream is opened if and only if the session is open and the count of streams so far is below what the peer granted; it is the next of its type and was never used. |
| WtLocal.OpenCredits | src/webtransport.rs:526-578 | A new stream starts with the credit that the two sides advertised for streams of its kind, by who opened it. |
| WtLocal.CreatedCredits | src/webtransport.rs:1544-1570 | So does a stream that a capsule of the peer opens. |
| WtLocal.SendSucceeds | src/webtransport.rs:584-649 | Data is sent if and only if the session is open, the stream exists and neither end nor reset of it was emitted, what was sent on it and the data are within what was granted for it, and what was sent on all streams and the data within what was granted for the session; and the error otherwise. |
| WtLocal.SendDoes | src/webtransport/stream.rs:370-400 | It emits one capsule with the data and the end, charges both windows, and the stream is kept unless that was its end and the application is done receiving on it. |
| WtLocal.ResetSucceeds | src/webtransport.rs:658-713 | A stream is reset if and only if it can still be sent on and the code has 32 bits, whatever the phase. |
| WtLocal.ResetDoes | src/webtransport.rs:658-713 | The reset names what was sent before it, and the stream is kept unless the application is done receiving on it. |
| WtLocal.StopDoes | src/webtransport.rs:725-789 | The peer is asked to stop if and only if it was not asked before, has not reset the stream, the stream exists with a receiving part, and the code has 32 bits. |
| WtLocal.MaxDataDoes | src/webtransport.rs:859-866 | Session credit is granted if and only if it exceeds all that was granted before and fits 62 bits. |
| WtLocal.MaxStreamDataDoes | src/webtransport.rs:891-945 | Stream credit is granted if and only if the peer can still send on the stream and was not asked to stop, and it exceeds all that was granted before and fits 62 bits. |
| WtLocal.MaxStreamsDoes | src/webtransport.rs:966-986 | Streams are granted if and only if the session is open and they exceed all that was granted before, up to 2^60. |
| WtLocal.GrowDoes | src/webtransport.rs:1011-1081 | The calls that extend a limit succeed if and only if granting what was granted before and the increment does, and then do that. |
| WtAnswers.HandleReports | src/webtransport.rs:1108-1470 | Accepting a capsule queues exactly the announcements of the streams it opens, each once and in order, and then the event of the capsule itself with its fields: data, reset, request to stop, datagram, drain or close; and nothing for the rest. |
| WtAnswers.HandleAnswers | src/webtransport.rs:1171-1214 | Accepting a capsule emits nothing, but for a request to stop a stream that this side can still send on: a reset with the code of the request and the octets sent; and it drains or closes the session exactly if it says so. |
| WtAnswers.CreateLog | src/webtransport.rs:1544-1570 | Implicit creation queues exactly the announcements of the indices that were missing, in order. |
| WtCleanup.RunLeavesNothing | src/webtransport.rs:1643-1653 | Over every run of two new sessions, whatever the applications do, no stream is kept whose parts are both over. |
| WtCleanup.PollDoes | src/webtransport.rs:489-507 | Reading an event moves on by one, and only reading the end of data changes a stream: it is forgotten if and only if this side is done sending on it. |
| WtCleanup.DataLeaves | src/webtransport.rs:1383-1470 | A stream whose data has come to its end is kept until that has been read. |
| WtCleanup.PeerResetLeaves | src/webtransport.rs:1127-1170 | A stream that the peer reset is kept if and only if this side can still send on it. |
| WtCleanup.ClosedStillSpeaks | src/webtransport.rs:658-986 | A closed session takes nothing up and stays closed; of the calls that emit something exactly resets, requests to stop and credit for data still do. |
| WtCleanup.CloseIsNotLast | src/webtransport.rs:814-866 | Credit granted after the close goes out after the capsule that closes the session. |
| Utf8.TruncateIsLongest | src/webtransport.rs:814-847 | A close reason is cut no shorter than need be: anything longer has more than 1024 octets or is no text. |
| Utf8.TruncateKeepsUtf8 | src/webtransport.rs:814-847 | A close reason cut to 1024 octets is still well-formed UTF-8. |
| VarInt.Encode | src/webtransport/varint.rs:63-107 | Writes the encoding and nothing else, or says that the value is too large or the buffer too short. |
| VarInt.RoundTrip | src/webtransport/varint.rs:63-196 | Every value up to 2^62-1 is read back with its length, whatever follows it. |
| VarInt.DecodingIsLocal | src/webtransport/varint.rs:145-196 | What is read fits 62 bits and does not depend on what follows, shortest encoding or not. |
| CapsuleFormat.PayloadRoundTrip | src/webtransport/capsule.rs:415-644 | The payload of every well-formed capsule reads back as the capsule. |
| CapsuleCodec.CapsuleRoundTrip | src/webtransport/capsule.rs:162-412 | A well-formed capsule is read back whatever follows it. |
| CapsuleCodec.StreamRoundTrip | src/webtransport/capsule.rs:162-412 | A stream of well-formed capsules is read back whole, and nothing is left over. |
| CapsuleCodec.ChunkingIsInvisible | src/webtransport/capsule.rs:353-412 | Read dry after every chunk, the decoder yields the same capsules and the same error however the bytes were cut up. |
| CapsuleCodec.InterleavingIsInvisible | src/webtransport/capsule.rs:353-412 | However feeding and reading are interleaved, and whatever chunks the buffer limit refuses, the capsules taken and those still to be read are what all the bytes accepted amount to, read at once. |
| CapsuleCodec.EmittedIsWellFormed | src/webtransport/capsule.rs:162-278 | Whatever a session emits can be put on the wire and is read back as it was. |
| CapsuleCodec.CapsuleDecoder.Feed | src/webtransport/capsule.rs:353-363 | Takes all of the data or, when the buffer would overflow, none; after any calls the capsules taken and those pending are what all that was accepted amounts to. |
| CapsuleCodec.CapsuleDecoder.Decode | src/webtransport/capsule.rs:372-412 | Takes exactly the next capsule off the buffer; when nothing comes, all the capsules in what was fed have been taken, and on an error it is the one that reading everything at once ends in; both leave the buffer as it was. |
| CapsuleCodec.CapsuleEncoder.Encode | src/webtransport/capsule.rs:162-293 | Appends the wire form of a well-formed capsule. |
| CapsuleOctets.NumberReads | src/webtransport/varint.rs:145-196 | Octets are read as an integer if and only if they are 1, 2, 4 or 8 as their first two bits say, and as the number in the rest. |
| CapsuleOctets.ShortestIsWritten | src/webtransport/varint.rs:63-107 | An integer is written in as few octets as will hold it. |
| CapsuleOctets.ReadIsMeant | src/webtransport/capsule.rs:415-644 | A type and a payload are read as a capsule if and only if they mean it by the grammar: the type numbers, the integers of whatever length, what follows them, and nothing left over. |
| CapsuleOctets.ViolationIs | src/webtransport/capsule.rs:430-600 | The session is violated if and only if an error code has more than 32 bits, or a close reason is too long or no text. |
| CapsuleOctets.NextIsMeant | src/webtransport/capsule.rs:372-412 | What stands at the front of a stream of octets that holds a whole capsule is read as what it means, or ends the stream. |
| CapsuleOctets.ReadIsWhole | src/webtransport/capsule.rs:372-412 | Only a whole capsule at the front is read or ends the stream. |
| CapsuleOctets.WrittenIsMeant | src/webtransport/capsule.rs:162-293 | What the encoder writes is whole and means the capsule. |
| H2Object.Connection.constructor | src/connection.rs:192-248 | A new connection object shows the specified initial state. |
| H2Object.Connection.StartStream | src/connection.rs:495-627 | Issues the next identifier, makes its record and writes its header block, as the connection value says; a refused call changes nothing. |
| H2Object.Connection.SendData | src/connection.rs:644-685 | Queues all of the data or none and sends what the windows allow, as the connection value says, which is `H2Effects.SendDataDoes`; a refused call changes nothing. |
| H2Object.Connection.QueueData | src/connection.rs:688-711 | Takes all of the data into the queue or none, as the connection value says; over runs that is `H2Accounts.NothingIsLost`. |
| H2Object.Connection.FlushStreamData | src/connection.rs:714-808 | The loop sends slice after slice as specified and stops where the windows do. |
| H2Object.Connection.FlushAllStreamData | src/connection.rs:811-826 | Serves every stream with something queued, in some order, and cannot fail. |
| H2Object.Connection.TryRemoveClosedStream | src/connection.rs:833-846 | Drops a stream both sides have ended, with one event. |
| H2Object.Connection.Reset | src/connection.rs:884-944 | Writes the reset, reports what it cost and drops the stream. |
| H2Object.Connection.SendWindowUpdate | src/connection.rs:975-1007 | Extends the connection window or a stream window up to 2^31-1 and tells the peer, as the connection value says; a refused call changes nothing. |
| H2Object.Connection.SendResponse | src/connection/headers.rs:43-157 | Writes a response header block, and drops the stream if it ends both sides, as the connection value says; a refused call changes nothing. |
| H2Object.Connection.SendTrailers | src/connection/headers.rs:171-248 | Writes trailers after all data is out, and drops the stream if they end both sides, as the connection value says; a refused call changes nothing. |
| H2Object.Connection.HandleData | src/connection.rs:1097-1249 | Charges the connection, then delivers, discards or resets, as the connection value says. |
| H2Object.Connection.BeginBlock | src/connection/headers.rs:251-350 | Checks the identifier of a header block, moves the largest one seen, and notes what will refuse the block once it is whole, as the connection value says; a refused block changes nothing. |
| H2Object.Connection.FinishBlock | src/connection/headers.rs:844-895 | Ignores, refuses or takes a block that is whole, by what was noted and by what has become of the stream since, as the connection value says. |
| H2Object.Connection.HandleHeaders | src/connection/headers.rs:251-394 | A HEADERS frame with its whole block: begins and finishes it, as the connection value says. |
| H2Object.Connection.HandleFirstFrame | src/connection/headers.rs:251-394 | A HEADERS frame that others continue: begins the block and leaves it open, as the connection value says. |
| H2Object.Connection.HandleLastFrame | src/connection/headers.rs:826-895 | The CONTINUATION frame that completes a block finishes it with the END_STREAM of the first, and fails when none is open, as the connection value says. |
| H2Object.Connection.HandleBroken | src/connection.rs:441-466 | A frame that the decoder finds broken resets its stream, also between the frames of a block, and fails the connection on an idle one, as the connection value says. |
| H2Object.Connection.ProcessHeaders | src/connection/headers.rs:510-774 | Takes requests, responses and trailers or resets the stream, as the connection value says. |
| H2Object.Connection.HandleRstStream | src/connection.rs:1252-1275 | Drops the stream and reports it, ignores one that is gone, and fails on an idle one, as the connection value says. |
| H2Object.Connection.HandleSettings | src/connection.rs:1278-1396 | Moves every stream window, acknowledges and serves every queue, or fails on overflow, as the connection value says. |
| H2Object.Connection.UpdateStreamWindows | src/connection.rs:1403-1410 | The loop moves every send window by the difference, and fails exactly when one would overflow. |
| H2Object.Connection.HandleWindowUpdate | src/connection.rs:1442-1486 | Extends the connection or a stream window and sends what that lets out; an overflow fails the connection or resets the stream, as the connection value says, which is `H2Effects.OnConnWindowDoes` and `H2Effects.OnStreamWindowDoes`. |
| H2Invariant.NewConnOk | src/connection.rs:192-248 | A new connection satisfies the invariant. |
| H2Invariant.SliceKeeps | src/connection.rs:731-789 | Sending one slice cannot fail and keeps conservation, windows and order. |
| H2Invariant.CloseKeeps | src/connection.rs:833-846 | Dropping a stream both sides have ended keeps the invariant. |
| H2Invariant.ResetKeeps | src/connection.rs:884-944 | A reset keeps the invariant and reports exactly the credit still to be reported. |
| H2Sending.FlushKeeps | src/connection.rs:714-808 | Flushing cannot fail, writes only DATA frames of the stream no longer than the peer allows, takes as much off the stream window as off the connection window and no more than was available in either, and lets out all that they permit. |
| H2Sending.ResetStreamKeeps | src/connection.rs:867-944 | A reset keeps the invariant if and only if it is not of a stream whose first header block is under way. |
| H2Sending.FlushAllKeeps | src/connection.rs:811-826 | Serving every stream that needs it cannot fail and leaves none stalled, in whatever order. |
| H2Sending.SendDataKeeps | src/connection.rs:644-711 | Sending data keeps the invariant, and fails only as a refused call. |
| H2Sending.SendResponseKeeps | src/connection/headers.rs:43-157 | Sending a response keeps the invariant. |
| H2Sending.SendTrailersKeeps | src/connection/headers.rs:171-248 | Sending trailers keeps the invariant. |
| H2Sending.StartStreamKeeps | src/connection.rs:495-627 | Starting a stream keeps the invariant. |
| H2Sending.SendWindowUpdateKeeps | src/connection.rs:975-1007 | Granting credit keeps the invariant. |
| H2Effects.SendDataSucceeds | src/connection.rs:644-711 | Data is taken if and only if the stream exists, its end was not asked for, and what is queued and the data are within 65535 octets; and the error otherwise. |
| H2Effects.SendDataDoes | src/connection.rs:644-846 | The data called with is recorded and follows what was on the wire and queued; the end is asked for exactly if the call says so; the frames written are of the peer's size but for the last; both windows are charged; the stream is gone if and only if both sides have then ended; nothing else changes. |
| H2Effects.OnConnWindowDoes | src/connection.rs:1446-1449 | Connection credit fails exactly on overflow; otherwise the window and what went out add up to what they were and the increment, and any stream is served with it and otherwise as it was. |
| H2Effects.OnStreamWindowDoes | src/connection.rs:1450-1486 | Stream credit fails exactly on an idle stream, resets the stream exactly on overflow, and otherwise the window and what went out on the stream add up to what they were and the increment. |
| H2Effects.OnSettingsSucceeds | src/connection.rs:1403-1410 | Settings fail if and only if some stream window, moved by the change of the initial window, exceeds 2^31-1. |
| H2Effects.OnSettingsDoes | src/connection.rs:1278-1396 | Settings are taken over and acknowledged before any DATA they let out; the window of every stream, with what went out on it, moves by the change of the initial window; DATA then respects the new frame size; queues lose nothing. |
| H2Effects.StartStreamDoes | src/connection.rs:495-627 | A stream is started if and only if this is a client, the peer allows one more and takes such a request, no GOAWAY came last, and there is a number; the record is new and the block is on the wire. |
| H2Effects.SendResponseSucceeds | src/connection/headers.rs:43-157 | A response is sent if and only if it is valid, this side has not ended, it is the only final one, none on a tunnel, within the peer's limit, and any end it has leaves no data behind. |
| H2Effects.SendResponseDoes | src/connection/headers.rs:43-157 | Its block is on the wire, the stream remembers a final response and an established tunnel, and is gone if and only if both sides have then ended. |
| H2Effects.SendTrailersSucceeds | src/connection/headers.rs:171-248 | Trailers are sent if and only if they are valid, this side has not ended, all data is out and, on a server, the final response was sent. |
| H2Effects.SendTrailersDoes | src/connection/headers.rs:171-248 | Their block is on the wire with the end, and the stream is gone if and only if the peer has ended, too. |
| H2Effects.ResetStreamDoes | src/connection.rs:867-944 | A reset fails exactly on the connection or an idle stream; otherwise it is on the wire with its code, and a stream that existed is gone and reported. |
| H2Effects.SendWindowUpdateSucceeds | src/connection.rs:975-1007 | Credit is granted if and only if there is some and the window of the connection or the live stream stays within 2^31-1. |
| H2Effects.SendWindowUpdateDoes | src/connection.rs:975-1007 | The window is extended by what the peer is told, and nothing else changes. |
| H2Accounts.ApplyBooks | src/connection.rs:441-470 | Every input that is accepted makes exactly its own entry in the books: data handed over, credit granted by the peer or to it, credit used up, settings, a GOAWAY; for the connection and for every stream that exists afterwards. |
| H2Accounts.NothingIsLost | src/connection.rs:644-846 | Over every run of a new connection, what went out on a stream followed by what is queued is the data of the calls that succeeded, in order; for a stream that was reset what went out is the beginning of it, and for one that ended all of it. |
| H2Accounts.SendWindowMoves | src/flow_control.rs:86-183 | Over every run the send window moves by the increments of the WINDOW_UPDATE frames accepted on the connection less what went out. |
| H2Accounts.StreamWindowsMove | src/flow_control.rs:86-183 | While a stream exists its send window moves by the increments accepted on it less what went out on it and by the change of the initial window, and its receive window by what the application gave back on it less the DATA frames on it, padding included. |
| H2Accounts.LivesThrough | src/connection/headers.rs:251-330 | On a server a stream that exists at both ends of a run exists all along. |
| H2Goaway.RunSettles | src/connection.rs:1278-1440 | Over every run the settings in force are the last that came, and the phase tells which side's GOAWAY was the last. |
| H2Goaway.RefusedAfterOwn | src/connection/headers.rs:269-283 | After any run of a new server, an identifier the peer has not come to yet is refused if and only if the last GOAWAY was the server's own. |
| H2Goaway.RefusedAfterPeers | src/connection.rs:511-517 | After any run of a new client, a request that nothing else speaks against is refused if and only if the last GOAWAY was the peer's. |
| H2Goaway.PeerUndoesOwn | src/connection.rs:1429-1440 | A stream that was refused after the server's GOAWAY is opened after one of the peer that follows. |
| H2Goaway.OwnUndoesPeer | src/connection.rs:953-972 | A request that was refused after the peer's GOAWAY is sent after one of the client that follows. |
| H2Receiving.OnDataKeeps | src/connection.rs:1097-1249 | Received DATA keeps the invariant, whether delivered, discarded or answered by a reset. |
| H2Receiving.OnHeadersKeeps | src/connection/headers.rs:251-394 | A header block in one frame keeps the invariant; on a client, if it answers a stream the client opened. |
| H2Receiving.OnFirstFrameKeeps | src/connection/headers.rs:251-394 | The first frame of a longer block keeps the invariant, which then holds room for the stream it is to open. |
| H2Receiving.OnLastFrameKeeps | src/connection/headers.rs:826-895 | The last frame of a block keeps the invariant, whatever the application did in between, unless a stream that was known when the block began has been forgotten since. |
| H2Receiving.OnBrokenKeeps | src/connection.rs:441-466 | A broken frame keeps the invariant if and only if its stream is not one whose first header block is under way. |
| H2Receiving.OnConnWindowKeeps | src/connection.rs:1446-1449 | Connection credit keeps the invariant, and fails exactly when the window would overflow. |
| H2Receiving.OnStreamWindowKeeps | src/connection.rs:1450-1478 | Stream credit keeps the invariant; an overflow resets the stream. |
| H2Receiving.OnSettingsKeeps | src/connection.rs:1278-1396 | New settings keep the invariant, and fail exactly when the new windows do not fit. |
| H2Answers.IdleIsUnseen | src/connection.rs:1534-1550 | On a server a stream of the peer is idle exactly if the peer has not come to its identifier. |
| H2Answers.OnDataDoes | src/connection.rs:1097-1249 | DATA fails exactly on an idle stream or beyond the connection window; otherwise all of it is charged, and it is delivered with its event, window and counter, discarded with its event, or answered by a reset: STREAM_CLOSED after the peer's end, FLOW_CONTROL_ERROR beyond the stream window, PROTOCOL_ERROR against the declared length. |
| H2Answers.OnHeadersFails | src/connection/headers.rs:251-330 | A header block fails exactly on an even identifier, or a new one that is not above those seen or comes after a GOAWAY of this side. |
| H2Answers.NewRequestDoes | src/connection/headers.rs:510-774 | On a server a block on a new identifier is refused with REFUSED_STREAM when the limit is reached, rejected with PROTOCOL_ERROR unless it is a request that can be taken, and else opens a stream with the record, the event and nothing written. |
| H2Answers.LaterBlockDoes | src/connection/headers.rs:510-774 | A later block on a stream is taken if and only if it is valid trailers with the end, before the peer's end and on no tunnel; otherwise the stream is reset with the code stated. |
| H2Answers.ResponseDoes | src/connection/headers.rs:657-774 | Until a final response has come, a block on a client's stream is taken if and only if it is a valid response before the peer's end that ends with no declared body outstanding; the record, event and code are stated. |
| H2Answers.PastIsIgnored | src/connection/headers.rs:844-895 | A block on a stream that is gone and remembered changes nothing but the largest identifier seen. |
| H2Answers.OnFirstFrameDoes | src/connection/headers.rs:251-394 | The first frame of a longer block fails exactly when the whole block would, and shows in nothing but the identifier seen and the block that is open. |
| H2Answers.CuttingIsInvisible | src/connection/headers.rs:826-895 | A block in several frames with nothing between them is what it is in one. |
| H2Answers.OnRstStreamDoes | src/connection.rs:1252-1275 | A reset by the peer fails exactly on an idle stream; a stream that existed is gone, its code is reported, and nothing is written. |
| H2Answers.OnBrokenDoes | src/connection.rs:441-466 | A broken frame fails the connection exactly on an idle stream and otherwise resets its stream, with the code the decoder gives. |
| H2Answers.OnUnknownDoes | src/connection.rs:1068-1090 | A frame of unknown type resets a tunnel and is ignored elsewhere. |
| H2Runs.RunKeeps | src/connection.rs:441-470 | The invariant holds in every state that a run of calls and frames can reach, the states between the frames of a header block included. Runs are those in which no stream is reset while its first block is under way, no stream is forgotten while a block on it is under way and, for a client, the peer answers only on streams the client opened and still remembers. |
| H2Runs.Conservation | src/connection.rs:644-846 | What went out on a stream followed by what is queued is all that was accepted; for a stream that was reset it is the beginning of that. That what was accepted is what the calls handed over is `H2Accounts.NothingIsLost`. |
| H2Runs.EndIsLast | src/connection.rs:762-806 | The end of a stream goes out only after the last octet accepted. |
| H2Runs.EndOfStreamIsFinal | src/stream/state.rs:206-238 | Over every run that resets no stream whose first header block is under way, no DATA or header block of a stream follows its end or its reset on the wire. |
| H2Blocks.ResetIsOvertaken | src/connection/headers.rs:826-895 | From every state with a block under way that opens a stream: a reset by the application, or for a broken frame of the peer, is written and recorded nowhere; the rest of the block makes the stream, and a response goes out after the reset. |
| H2Blocks.ResetIsOvertakenAtOnce | src/connection.rs:884-944 | A new server gets there with the first frame of a block. |
| H2Blocks.ForgottenComesBack | src/connection/headers.rs:844-895 | A stream that was dropped and forgotten while a block on it was under way is opened again by the last frame, and its events start anew after they were over. |
| H2Runs.NoStall | src/connection.rs:714-826 | Data waits only while a window is at zero or below, an end only behind data, and a stream that exists is open or half-closed. |
| H2Runs.WindowBounds | src/flow_control.rs:86-183 | A send window is the current initial window plus what was granted minus what was sent, within 2^31-1 of zero; a receive window is never negative. What was granted is tied to the frames by `H2Accounts.StreamWindowsMove`. |
| H2Runs.ServerTraces | src/connection/headers.rs:510-774 | On a server the events of a stream are a header section, data, trailers and one terminal event, as far as they have come; a stream that exists is not over. |
| H2Runs.ServerEventOrder | src/connection/headers.rs:510-774 | On a server, of two events on a stream the first is not terminal, the second is no header section, and only a terminal event follows the end of the message. |
| H2Runs.TraceStart | src/connection/headers.rs:510-774 | Nothing but a header section or a reset is the first event of a stream. |
| H2Growth.HistoryGrows | src/connection.rs:441-470 | Over every run events are only added and the largest identifier seen from the peer never falls. |
| H2Growth.NeverReopened | src/connection/headers.rs:251-330 | Over every run a stream that is gone, with an identifier the peer has reached and no block about to open it, is never opened again, even after the record of closed streams has forgotten it, and no header, data, trailer or terminal event about it follows. |
| H2Growth.DroppedForGood | src/connection/headers.rs:251-330 | On a server, a stream that existed at one point of a run and not at a later one never exists again. |
| H2Growth.RemovalIsReported | src/connection.rs:833-944 | On a server, a stream that was dropped in the course of a run was reported by exactly one terminal event, and one that exists by none. |
| H2Growth.StreamsAreLimited | src/connection.rs:1578-1597 | In every state of every run a server has no more streams than it advertised. |
| H2Runs.DeliveredBodiesFit | src/connection.rs:1205-1240 | On a server, delivered data never exceeds the declared length and ends a message only at that length. |
| H2Runs.BodyCounts | src/connection.rs:1217-1240 | The body counter of a stream is the length delivered on it. |
| H2Credit.DataIsReported | src/connection.rs:1097-1249 | Every octet of a DATA frame is charged, and the events it causes report all of them, but for the padding and its length octet if and only if the frame passes the guards of delivery. |
| H2Credit.CreditConserved | src/connection.rs:1097-1249 | Over every run of a new connection the receive window is the initial one plus what was given back, less what the events reported, less the padding of the DATA delivered. |
| H2Credit.RefillsFit | src/connection.rs:975-1007 | After any run, an application that gives back no more than was reported is never refused and never exceeds the window it advertised. |
| H2Credit.RefillRestores | src/connection.rs:1097-1249 | After any run, giving back exactly what was reported restores the window if and only if no DATA frame that the run delivered had padding. |
| H2Credit.PaddingIsNotReported | src/connection.rs:1105-1110 | A padded frame within the windows of an open stream with no declared length is delivered, and its padding is charged and reported by no event. |
| H2Credit.PaddingDrains | src/connection.rs:1097-1249 | A run of two frames, a request and a frame of padding, leaves the window short with nothing reported. |
| H2Client.UnsolicitedResponse | src/connection/headers.rs:657-663 | A client that gets a plain response on an identifier it has not opened reports it and makes a stream at or above its own counter. |
| H2Client.StartReplaces | src/connection.rs:495-627 | When the counter gets there, starting a stream replaces that record, after its response was reported. |
| H2Client.SolicitationIsNeeded | src/connection/headers.rs:251-394 | A header block in one frame that a client accepts keeps its invariant if and only if the identifier is below the counter and, when the client has forgotten the stream and takes the block for a response, nothing was sent on the stream but at most a header block without the end: no data was accepted, and neither an end nor a reset went out. |
| H2Fragments.SendHeaderBlock | src/connection/headers.rs:937-969 | The chunking loop writes exactly the frames the block is cut into. |
| H2Fragments.CutJoins | src/connection/headers.rs:937-969 | Payloads add up to the block, none exceeds the frame size, END_STREAM is on the first frame only and END_HEADERS on the last only. |
| H2Fragments.BlockArrives | src/connection/headers.rs:826-905 | The receiver puts together exactly the block, with its END_STREAM, if and only if it came in one frame or fits the limit. |
| H2Fragments.Assembler.HandleFrame | src/connection/headers.rs:385-391 | The fields of a connection that hold an unfinished block follow the specification frame by frame. |
| H2Fragments.HeaderListSurvives | src/connection/headers.rs:911-969 | A header list survives compression, cutting, joining and decompression, and leaves both tables equal. |
| FrameFormat.SettingRoundTrip | src/settings.rs:114-175 | A setting reads back as itself if and only if it is canonical. |
| FrameFormat.WireRoundTrip | src/settings.rs:114-175 | An accepted wire pair is the pair of the setting it became. |
| FrameFormat.SettingsRoundTrip | src/frame/decoder.rs:360-376 | Any list of canonical settings is read back. |
| FrameFormat.HeaderRoundTrip | src/frame/decoder.rs:128-154 | A frame header is read back, whatever follows it. |
| FrameFormat.PayloadRoundTrip | src/frame/decoder.rs:157-549 | The payload of every frame that can be sent reads back as the frame. |
| FrameCodec.FrameRoundTrip | src/frame/encoder.rs:41-312 | A frame that can be sent and fits is read back, whatever follows it. |
| FrameCodec.StreamRoundTrip | src/frame/encoder.rs:41-312 | A stream of such frames is read back whole, and nothing is left over. |
| FrameCodec.ChunkingIsInvisible | src/frame/decoder.rs:44-94 | Read dry after every chunk, the decoder yields the same frames and errors and leaves the same, however the bytes were cut up. |
| FrameCodec.InterleavingIsInvisible | src/frame/decoder.rs:44-94 | However feeding and reading are interleaved, the frames taken and those still to be read are what all the bytes fed amount to, read at once. |
| FrameCodec.FrameDecoder.Feed | src/frame/decoder.rs:44-46 | Feeding adds to what is pending and to nothing else; after any calls the frames taken and those pending are what all that was fed amounts to. |
| FrameCodec.FrameDecoder.Decode | src/frame/decoder.rs:53-94 | Takes exactly the next frame, broken or not, off what is pending; when nothing comes, all the frames in what was fed have been taken, and on an oversized frame all those before it. What a frame is, bit by bit, is `FrameOctets.NextIsMeant`. |
| FrameCodec.FrameEncoder.Encode | src/frame/encoder.rs:41-312 | Appends the wire form of a frame, and refuses PRIORITY and PUSH_PROMISE without writing. |
| FrameOctets.ReadIsMeant | src/frame/decoder.rs:157-549 | The octets of a frame are read as a frame if and only if they mean it, bit by bit: type, flags, stream, padding, priority fields, settings by their numbers, and the rest of each payload. |
| FrameOctets.NextIsMeant | src/frame/decoder.rs:53-94 | What stands at the front of a stream of octets is a frame if and only if it is whole, no longer than is accepted, and means that frame. |
| FrameOctets.NextIsIncomplete | src/frame/decoder.rs:53-94 | Nothing is read exactly while the header, or an acceptable payload, is not whole. |
| FrameOctets.PriorityIsStripped | src/frame/decoder.rs:214-284 | A HEADERS frame with priority fields is read as exactly its fragment and those fields, for every exclusive bit, dependency, weight, fragment, padding and whatever follows. |
| FrameOctets.FaultIs | src/frame/decoder.rs:157-549 | A frame that means nothing is an error of its stream only if it is a PRIORITY frame of the wrong size or a WINDOW_UPDATE of zero on a stream, and else of the connection; it is FRAME_SIZE_ERROR exactly if its size is wrong for its kind. |
| FrameOctets.FirstFault | src/settings.rs:114-175 | Settings that cannot be taken fail as the first of them that is out of range does: FLOW_CONTROL_ERROR for the initial window, PROTOCOL_ERROR for the rest. |
| FrameOctets.WrittenIsMeant | src/frame/encoder.rs:41-312 | What the encoder writes is whole and means the frame, with the reserved bit clear and the padding zero. |
| Streaming.CallsDoNotMatter | src/frame/decoder.rs:44-94 | For any steady reader, any buffer limit and any sequence of feeds and reads: the items taken and those still to be read are what all that was accepted amounts to. |
| Streaming.ChunksDoNotMatter | src/frame/decoder.rs:44-94 | For any way of reading items that more bytes do not disturb, chunking is invisible. |

## Left out

- Header validation (`src/validation.rs`, `src/syntax.rs`) and the joining of cookie fields: a header list is the answers the connection gets about it, and every combination of answers is covered.
- PING, PRIORITY and PRIORITY_UPDATE handling, the connection preface buffer, SETTINGS acknowledgements and the one-way rules for single settings: they touch no stream, window or table.
- GOAWAY's last-stream-id and debug data: a GOAWAY is its code and its effect on new streams.
- Error texts, backtraces and formatting: an error is its kind and code.
- The loop that joins the frame decoder to the connection: frames and connection are proved each by itself. The one that joins capsule decoder and session is `WtBytes.Arrive`.
- The frames between the first and the last of a header block: they only add to the block, which `H2Fragments` covers; a block too large or not decodable ends the run.
- Reserved stream states: PUSH_PROMISE is refused on receipt and never sent, so no stream reaches them.
- The records that a session or connection owns (streams, windows, state machines, send buffers) are values that the owning object replaces, since nothing else can refer to them; sharing between objects is not modelled.
- Numbers are unbounded; that the 64-bit sums of HPACK and the 62-bit numbers of WebTransport stay in range is proved, and other sums are below 2^64 because their terms are bounded by windows or by memory. `HeaderField.Size` does not wrap, since names and values fit in memory.
- Streams beyond the bounded records: sessions and runs are followed while fewer than 10000 closed or stopped WebTransport streams are remembered. On an HTTP/2 server that bound matters only between the frames of one header block (`H2Receiving.Remembers`).
- H2Object.Connection.HandleSettings: does not describe the state that a connection error leaves behind, since the run is over.
- H2Object.Connection.FlushAllStreamData: the order in which a hash map is walked is left open, and everything is proved for every order.
- H2Receiving.OnHeadersKeeps: for a client it asks that the peer answers only on streams the client opened; `H2Client.SolicitationIsNeeded` says exactly when it can be done without.
- H2Runs.ServerTraces: is about servers only, because a client may get several header sections on one stream and even on one it has not opened.
- DynamicTable.DynamicTable.Insert: takes names and values as already checked, as the codec does.
- Direct use of the mutable accessors that bypass a session or a connection.
- `crates/` and `examples/`: input and output, TLS, channels and bindings to another library.
