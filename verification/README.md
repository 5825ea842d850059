# SyncScribe: a verified model of the broker, the wire format and the client protocol

SyncScribe is a publish/subscribe broker for events, variables and channels. Clients and server exchange packets with a packed 60-byte header and at most 511 bytes of payload over TCP or UDP. This project models the parts of `libsyncs` that have state, loops and arithmetic, and proves what they keep, refine and promise.

| file | what it holds |
|---|---|
| `Bytes.dfy`, `Headers.dfy` | little-endian fields, the packed header, the builders, the server's reading of a packet as a request |
| `Framing.dfy` | the incremental framer over its receive buffer, against one pure parse of the whole stream |
| `FramingLimits.dfy` | exactly which short reads and stale residues do harm |
| `Sending.dfy`, `Link.dfy` | the send loop over a kernel that takes what it likes, and both ends of a connection |
| `TornSends.dfy` | exactly when a sender may go on after a failed send |
| `ClientRequests.dfy` | the client's calls, the packets they build, what the server makes of them |
| `ServerMessages.dfy` | the server's messages, the packets they become, what the client makes of them |
| `WireNumbers.dfy` | the format on the wire with its own numbers: layouts, message numbers, bits |
| `IdCodec.dfy`, `SyncClock.dfy` | the identifier codec, synchronised firing |
| `Crc32.dfy`, `CrcPolynomial.dfy` | CRC-32: the loop, its laws, and the division of polynomials that it is |
| `ReadHandshake.dfy` | the READ handshake of the client's two threads |
| `ListPaging.dfy`, `ListReassembly.dfy` | the server's pager and the client's reassembly |
| `BrokerLists.dfy` | reassembly of the three lists that the broker really sends |
| `Broker.dfy` | the broker's tables and, as functions, what each request does to them and sends |
| `Server.dfy` | the server as a class: the tables in arrays, the routines with their loops, each proved to do what the functions of `Broker.dfy` say |
| `BrokerInvariant.dfy`, `BrokerRuns.dfy` | what every step keeps, and whole runs |
| `BrokerTable.dfy` | the slot arrays as a refinement of a map with capacity 256; exactly-once fan-out |
| `BrokerHistory.dfy` | reads against earlier writes, stamps, resending |
| `BrokerCounting.dfy`, `BrokerClientCount.dfy`, `BrokerChannelCount.dfy` | conservation of subscriptions, what each counter is after a run, when the lists agree with them |
| `BrokerChannels.dfy` | the channels as a table, and what a ticket owes to earlier announcements |
| `BrokerAnswers.dfy`, `BrokerEffects.dfy` | the answer to every request, through reads and loops; what single calls and wake-ups come to |
| `BrokerLiveness.dfy`, `BrokerReads.dfy` | several packets in one read, the client that goes away between them, and the server's loop as a run |
| `BrokerArrivals.dfy` | one client among all others in the loop: from its calls to the broker's requests |
| `DatagramLimits.dfy` | exactly when a request is read from received bytes only |
| `BrokerReconnect.dfy`, `BrokerInterleaving.dfy`, `ClientTable.dfy`, `ClientMemory.dfy` | disconnection, the client's own table, and what is restored |

The broker is modelled twice. `Server.Server` has the fields and loops of the program; its methods state the new state and everything that is sent through functions on a value, `Broker.State`. The theorems are about these functions and about runs of them, and `Server.Server.RecvClients` with `BrokerReads.LoopIsRun` carries them over to the class: whatever becomes readable, the server goes through the states of a run, and the lemma says exactly when that run is a legal one.

Round trips and refinements hold of many formats and rules; which ones these are is stated with their own numbers in `WireNumbers.dfy`, `BrokerTable.RefusedByTypeIff` and `CrcPolynomial.dfy`, and what is said to whom in `BrokerAnswers.dfy`.

One packet is one atomic step. Callers are asked for what the program asks of them: no identifier whose first word is the free-slot marker, buffers as large as they say, and packets from clients that are connected.

## What the proofs show to be false

Some properties that one would expect fail. The code is modelled as it is, and each entry names the lemma that says exactly when it does meet them.

- A read shorter than a header is thrown away. Reads of given lengths are parsed as one stream, whatever they hold, if and only if none is short but not empty: `FramingLimits.ParsedWholeIffNoShortRead`; a packet that is lost: `FramingLimits.SplitHeaderIsLost`.
- The receive residue of a client slot survives into the next connection. It is harmless if and only if it holds no 'S': `FramingLimits.StaleResidueHarmlessIff`; a packet that is swallowed: `Framing.StaleResidueBreaksAConnection`.
- A client whose introduction is rejected in the middle of a read keeps being served: `BrokerLiveness.ReachesLiveIff`, `BrokerLiveness.SubscriptionOfTheGone`.
- The client's `syncs_undefine` sends DEFINE, and can create what it is to remove: `ClientRequests.ServerUnderstands`, `ClientRequests.UndefineDefines`.
- A client's subscription counter keeps counting events that were undefined: `BrokerCounting.SubscriptionsConserved`.
- The client and channel counts are not lowered by a disconnection; what they are after a run, and when the lists agree with them: `BrokerClientCount.ClientListExactIff`, `BrokerChannelCount.ChannelListExactIff`.
- A client whose clock lags far enough fires early; the exact bound on lag and offset: `SyncClock.NeverEarlyIff`.
- The packet of a channel ticket carries no message number, so the client ignores it, and no packet at all would be taken for one: `ServerMessages.ClientUnderstands`, `WireNumbers.NoTicketIsTaken`.
- Stamp 0 means no client write, but is also the stamp of the first one that a server accepts: newcomers are sent neither that value nor one that only the server's own program has written. Exactly when they are sent one: `BrokerHistory.NewcomerIsSentIff`.
- After a forced definition the last written bytes come back only when the size happens to fit: `BrokerHistory.WrittenBytesAfterForcedDefine`.
- A firing time with exactly 10^9 nanoseconds fires when it is reached, not after it: `SyncClock.PassedByTime`.
- List answers to requests that lie a multiple of 256 back are taken for the current one; safety holds if and only if none in flight brings another list: `ListReassembly.SafeForIff`, `ListReassembly.SafeIffNoWrap`, and for what the broker sends `BrokerLists`; the failing input: `ListReassembly.WrappedAnswerIsTaken`.
- A sender that goes on after a partial send makes the receiver dispatch a packet that nobody sent; it is harmless if and only if nothing more is taken: `TornSends.WholeOnesArriveIff`.
- A write in a datagram can be stored with bytes of earlier datagrams, and the ticket of an announcement can be read from behind its packet; each exactly when the received bytes end too early: `DatagramLimits.DatagramCoveredIff`, `DatagramLimits.BehindIgnoredIff`.
- Names of 32 and more bytes are never found by string, so subscribing twice takes two slots: `IdCodec.AgreeForAllIff`, `ClientTable.OneSlotEachIff`.

## Model

| member | source | states |
|---|---|---|
| Framing.StreamBuffer.Scan | libsyncs/syncs-server.c:964-980 | the in-place scan (skip, mask, dispatch, stop) finds the packets and the rest of one pure parse of what is in the buffer, and its head never passes what was received |
| Framing.StreamBuffer.MaskSize | libsyncs/syncs-server.c:975 | masks the size field of a header in place, and returns the payload size |
| Framing.StreamBuffer.Handle | libsyncs/syncs-server.c:938-989 | one handler call dispatches what parsing residue and read dispatches, moves the rest to the front, keeps at most 570 bytes and always leaves room for the next read |
| Framing.StreamBuffer.ReceiveAll | libsyncs/syncs-client.c:635-676 | the client's loop of reads, each within the room that is left, is one parse of the bytes that were kept |
| Framing.MaskedField | libsyncs/syncs-server.c:975 | the mask is the 16-bit size field modulo 512; no other byte changes |
| Framing.RestIsQuiescent | libsyncs/syncs-server.c:982-986 | after any stream at most 570 bytes wait, and parsing them again dispatches nothing |
| Framing.ParseSplit | libsyncs/syncs-server.c:938-989 | a stream can be cut anywhere, in a header, a payload or garbage: the residue stands for all that came before, although its size field is already masked |
| Framing.SessionIsOneParse | libsyncs/syncs-server.c:938-989 | for every stream and every way it is cut, the incremental framer is one pure parse of the bytes that were not thrown away |
| Framing.NothingDroppedIffNoShortRead | libsyncs/syncs-server.c:950-960 | every byte is kept if and only if no non-empty read is shorter than a header, and then the kept bytes are the stream |
| FramingLimits.ParsedWholeIffNoShortRead | libsyncs/syncs-server.c:950-960 | for reads of given lengths, every content is parsed as one stream, same packets and same rest, if and only if each length is 0 or at least a header |
| FramingLimits.SplitHeaderIsLost | libsyncs/syncs-server.c:950-960 | a stream that loses a packet: any packet without payload that arrives in two reads, cut anywhere |
| Framing.ChunkingIndependence | libsyncs/syncs-server.c:964-986 | two ways of cutting a stream into reads of at least 60 bytes dispatch the same packets and wait with the same residue |
| Framing.StaleResidueBreaksAConnection | libsyncs/syncs-server.c:1077-1119 | a slot reused without clearing its residue can swallow the first packet of the next connection (a concrete residue) |
| FramingLimits.StaleResidueHarmlessIff | libsyncs/syncs-server.c:1077-1119 | for every residue: it leaves the packets of every later stream, and of every cut of it into reads, unchanged if and only if it holds no 'S' |
| FramingLimits.MagicIsNoticed | libsyncs/syncs-server.c:964-980 | an 'S' with a 'D' in its place, or too near the end to tell, is never passed over |
| Framing.DispatchedIsFramed | libsyncs/syncs-server.c:965-979 | whatever arrives, a dispatched packet is masked, whole and of the announced length |
| Framing.FramedRoundTrip | libsyncs/syncs-server.c:964-980 | a list of framed packets is recovered exactly, in order, with nothing left over |
| Framing.GarbageIsSkipped | libsyncs/syncs-server.c:967-970 | a prefix without 'S' changes nothing that follows |
| Framing.PrefixSoFar | libsyncs/syncs-server.c:964-980 | from any part of a stream of framed packets, a prefix of those packets is dispatched |
| Bytes.DecodeEncode | libsyncs/syncs-types.h:63-72 | a field of k bytes holds every number below 256^k |
| Bytes.EncodeDecode | libsyncs/syncs-types.h:63-72 | the bytes of a field are those of its number |
| Headers.IdRoundTrip | libsyncs/syncs-types.h:41-44 | the two views of the identifier union, 32 bytes and four words, determine each other |
| Headers.PacketRoundTrip | libsyncs/syncs-types.h:63-77 | the packed header, laid over the bytes that it was stored as, gives every field and the payload back |
| Headers.SendableIsFramed | libsyncs/syncs-common.h:107-142 | a packet whose size field is its payload's length is framed |
| Headers.BuiltPacketsAreSendable | libsyncs/syncs-common.h:107-142 | whatever was in the header before, the builders make sendable packets; a write carries its data whole if and only if it has at most 511 bytes |
| Sending.DoneIffWhole | libsyncs/syncs-net-common.c:175-189 | the send loop succeeds if and only if everything was taken |
| Sending.TakenBeforeFailure | libsyncs/syncs-net-common.c:175-189 | a send takes what the kernel is ready to take before its first failure, up to the whole; it is done, has failed or still waits accordingly |
| Sending.BlockingSend | libsyncs/syncs-net-common.c:175-189 | whatever parts the kernel takes, the wire grows by the whole buffer on success and by a prefix otherwise |
| Link.Transmit | libsyncs/syncs-client.c:199-221 | a caller that stops at the first failed send leaves all of its packets, or a prefix of their bytes, on the wire |
| Link.EndToEnd | libsyncs/syncs-client.c:655-675 | packets built by the helpers, sent, cut up by the network and preceded by 'S'-free garbage arrive exactly and in order |
| Link.BrokenConnection | libsyncs/syncs-client.c:655-675 | of a broken stream a prefix of the packets is dispatched, none torn or invented |
| TornSends.KeepSending | libsyncs/syncs-server.c:325-334 | a caller that goes on whatever a send returns leaves a part of each packet on the wire, the whole one exactly where the send succeeded |
| TornSends.WholeOnesArriveIff | libsyncs/syncs-server.c:325-334 | for given fates of the sends (whole, a part, nothing): exactly the packets sent as a whole arrive, for all packets and all cuts of the stream, if and only if nothing is taken of any packet behind one of which a part was taken |
| TornSends.StoppedInTime | libsyncs/syncs-net-common.c:175-189 | so a sender that stops after a partial send does no harm: the part is never dispatched |
| ClientRequests.TypeFieldParts | libsyncs/syncs-types.h:133-177 | the message nibble and the caller's flag and type bits come apart as they were put together |
| ClientRequests.FlagsRead | libsyncs/syncs-types.h:159-177 | for every word the server reads synchronised at 0x10, echo at 0x20, force at 0x80 and the type in the third digit |
| ClientRequests.FlagWordRead | libsyncs/syncs-types.h:159-177 | and every choice of flags is read back from its word |
| ClientRequests.BuiltIsSendable | libsyncs/syncs-client.c:199-348 | every packet that a client call builds passes the framer as it is |
| ClientRequests.ServerUnderstands | libsyncs/syncs-client.c:199-348 | the server reads a client call as what it means, with the bits of the caller's word by their numbers, for all calls, except exactly an undefinition and a write of more than 511 bytes |
| ClientRequests.UndefineDefines | libsyncs/syncs-client.c:302-311 | `syncs_undefine` sends DEFINE: at the server an existing event stays as it is, and a missing one is created |
| ClientRequests.CallsArrive | libsyncs/syncs-client.c:199-348 | from the calls, over the byte stream cut up in any way, to the requests that the server acts on: the same ones in the same order |
| ServerMessages.EventInfoRoundTrip | libsyncs/syncs-types.h:84-94 | the 90-byte record of the event list is read back as it was, whatever the buffer held before |
| ServerMessages.ClientInfoRoundTrip | libsyncs/syncs-types.h:96-103 | the 52-byte record of the client list, with its counter in 32 bits |
| ServerMessages.ChannelInfoRoundTrip | libsyncs/syncs-types.h:105-111 | the 46-byte record of the channel list |
| ServerMessages.BuiltIsSendable | libsyncs/syncs-server.c:308-373 | every packet that the server builds passes the framer as it is |
| ServerMessages.ClientUnderstands | libsyncs/syncs-client.c:509-595 | the client's switch reads a message of the server (event, resend, reply, status, page) as what it is meant to be if and only if it is no ticket; a ticket is ignored |
| ServerMessages.MessagesArrive | libsyncs/syncs-client.c:635-676 | from the server's messages, over the byte stream cut up in any way, to the client's switch: the same ones in the same order, tickets ignored |
| ServerMessages.BrokerSendsWellMade | libsyncs/syncs-server.c:882-936 | whatever comes, everything that the broker sends fits its packet |
| WireNumbers.HeaderLayout | libsyncs/syncs-types.h:63-72 | where each field of the 60-byte header lies |
| WireNumbers.IdLayout | libsyncs/syncs-types.h:41-44 | where each word of an identifier lies |
| WireNumbers.FramingNumbers | libsyncs/syncs-types.h:48-49 | 'S', 'D', at most 511 bytes of payload, a buffer of 32 kilobytes |
| WireNumbers.RequestNumbers | libsyncs/syncs-server.c:893-934 | which request each number in the low digit of the type word is, and which fields it takes |
| WireNumbers.ChannelNumbers | libsyncs/syncs-server.c:866-880 | which channel request each fourth digit is, and where the ticket of an announcement lies |
| WireNumbers.CallNumbers | libsyncs/syncs-client.c:199-348 | the type word and the fields of the packet of each client call |
| WireNumbers.AnnouncementLayout | libsyncs/syncs-client.c:278-289 | the ten bytes of an announcement |
| WireNumbers.TypeSizes | libsyncs/syncs-common.h:96-105 | which types have four and eight bytes |
| WireNumbers.DefinitionSizes | libsyncs/syncs-server.c:558-563 | the size of a definition for every announced size and type, and that of a write of the server's program |
| WireNumbers.MessageNumbers | libsyncs/syncs-server.c:308-373 | the type word, with type, synchronised and lost bits, and the fields of each packet of the server |
| WireNumbers.PageLayout | libsyncs/syncs-server.c:673-676 | which byte of a list packet's identifier is which |
| WireNumbers.TicketLayout | libsyncs/syncs-types.h:112-116 | the ten bytes of a ticket |
| WireNumbers.EventRecordLayout | libsyncs/syncs-types.h:84-94 | where each field of a record of the event list lies |
| WireNumbers.ClientRecordLayout | libsyncs/syncs-types.h:96-103 | where each field of a record of the client list lies |
| WireNumbers.ChannelRecordLayout | libsyncs/syncs-types.h:105-111 | where each field of a record of the channel list lies |
| WireNumbers.StampWords | libsyncs/syncs-server.c:304-305 | the first word of a firing time is its seconds, the second its nanoseconds |
| WireNumbers.TableNumbers | libsyncs/syncs-types.h:34-41 | 256 events, 64 clients, 32 channels, values of at most 511 bytes on both sides |
| WireNumbers.ReadingNumbers | libsyncs/syncs-client.c:509-595 | what the client takes a packet for, by the number in the low digit of its type word, and which fields it takes |
| WireNumbers.NoTicketIsTaken | libsyncs/syncs-client.c:476-490 | no packet at all is taken for a ticket: it is looked for under a mask that its number does not pass |
| IdCodec.IdStr | libsyncs/syncs-common.h:81-87 | fills in the identifier of a C string: at most 31 of its bytes, zeros behind |
| IdCodec.IdCmpStr | libsyncs/syncs-common.h:63-71 | true if and only if the string and its terminator are in the identifier |
| IdCodec.StrIdCpy | libsyncs/syncs-common.h:89-94 | copies the bytes up to and with the first zero, at most 31, and nothing else changes |
| IdCodec.IdOfInjective | libsyncs/syncs-common.h:81-87 | strings of at most 31 bytes have different identifiers |
| IdCodec.LookupsAgreeIff | libsyncs/syncs-common.h:58-71 | string and identifier comparison agree if and only if the key has at most 31 bytes or another identifier; a longer key matches nothing |
| IdCodec.AgreeForAllIff | libsyncs/syncs-common.h:58-71 | the two comparisons agree on a key whatever is stored if and only if it has at most 31 bytes |
| IdCodec.WordsInjective | libsyncs/syncs-common.h:56-61 | comparing four words is comparing the 32 bytes |
| IdCodec.MarkerIsNoName | libsyncs/syncs-server.c:102 | only a string that starts with eight 0xff bytes makes the free-slot marker |
| Crc32.Crc32 | libsyncs/syncs-crypt.c:27-45 | the two nested loops compute the register function `Crc`, which `CrcPolynomial.CrcIsRemainder` identifies |
| Crc32.Rounds | libsyncs/syncs-crypt.c:32-42 | the inner loop is eight bit steps on the register with the byte added |
| Crc32.BitStepBijective | libsyncs/syncs-crypt.c:36-41 | each bit step is a bijection on 32-bit registers, with its inverse given |
| Crc32.BitStepsLinear | libsyncs/syncs-crypt.c:34-42 | any number of bit steps is linear over the two-element field |
| Crc32.CrcIsTableDriven | libsyncs/syncs-crypt.c:27-45 | for every input the result is that of the table of section 8 of RFC 1952, built as that section builds it, and of its update |
| CrcPolynomial.PolynomialIsGenerator | libsyncs/syncs-crypt.c:27 | the constant of the loop is the generator x^32 + x^26 + x^23 + x^22 + x^16 + x^12 + x^11 + x^10 + x^8 + x^7 + x^5 + x^4 + x^2 + x + 1 of section 8.1.1.6.2 of ITU-T V.42, lowest coefficient first |
| CrcPolynomial.StepIsDivision | libsyncs/syncs-crypt.c:34-42 | one turn of the inner loop is one step of the long division by that generator |
| CrcPolynomial.CrcIsRemainder | libsyncs/syncs-crypt.c:27-45 | for every message the result is the complemented remainder that the standard defines: long division of the message, its first 32 bits complemented and 32 zeros behind it |
| Crc32.CrcAffine | libsyncs/syncs-crypt.c:27-45 | crc(a^b^c) is crc(a)^crc(b)^crc(c) for inputs of one length |
| Crc32.WindowIsOneWord | libsyncs/syncs-crypt.c:29-45 | up to four bytes act as one word added to the register, followed by eight steps each |
| Crc32.WindowSeparates | libsyncs/syncs-crypt.c:29-45 | two windows of at most four bytes that lead to the same register are the same |
| Crc32.BurstDetected | libsyncs/syncs-crypt.c:27-45 | messages that differ only inside four consecutive bytes have different CRCs |
| SyncClock.SyncCalculate | libsyncs/syncs-server.c:293-306 | computes the stamp: clock plus offset, at most one second carried, 32-bit fields |
| SyncClock.StampExactIff | libsyncs/syncs-server.c:293-306 | the target is exactly the clock plus the offset; it survives the 32-bit fields if and only if it fits them |
| SyncClock.StampWithinASecond | libsyncs/syncs-server.c:293-306 | for offsets of 0 to 999 ms the nanoseconds are within 0 to 10^9, both included, and the stamp is exact |
| SyncClock.NormalisedIff | libsyncs/syncs-server.c:300-303 | the nanoseconds are within a second on every clock if and only if the offset is 0 to 1000 ms |
| SyncClock.WaitSync | libsyncs/syncs-client.c:93-113 | the wait ends on the first reading of the clock that is past the target or has more than one second of seconds to go |
| SyncClock.PassedByTime | libsyncs/syncs-client.c:102 | the field comparison is the comparison of times, except that a target with 10^9 nanoseconds already counts as passed when it is reached |
| SyncClock.EarlyOnlyIfFar | libsyncs/syncs-client.c:102 | the wait gives up only on a target more than one second away, and always on one more than two seconds away |
| SyncClock.NeverEarlyIff | libsyncs/syncs-client.c:93-113 | for offsets of 0 to 999 ms: no wait that ends, ends before the target, on any clocks within the lag, if and only if lag and offset make at most a second, and a nanosecond more when there is an offset |
| SyncClock.NearestExists | libsyncs/syncs-client.c:102 | two clock readings on which the wait gives up just that far from its target |
| SyncClock.NeverEarlyWithinASecond | libsyncs/syncs-client.c:93-113 | so a client whose clock lags by at most a second less the offset never fires early |
| ReadHandshake.ReadPort.Ask | libsyncs/syncs-client.c:154-156 | raises the wait flag and notes the identifier |
| ReadHandshake.ReadPort.OnReply | libsyncs/syncs-client.c:533-543 | takes a reply for the awaited identifier and lowers the flag; ignores every other |
| ReadHandshake.ReadPort.Take | libsyncs/syncs-client.c:162-164 | returns the stored answer, cut to the caller's size |
| ReadHandshake.AnswerIsFirstMatchingReply | libsyncs/syncs-client.c:116-168 | whatever was left over and whatever stale replies come, the caller is released exactly when a reply for its identifier has come, and it finds the first of these, which no later reply changes |
| ReadHandshake.ReadReturnsTheReply | libsyncs/syncs-client.c:146-168 | a successful read returns the bytes of a reply for the identifier it asked for |
| ListPaging.SendList | libsyncs/syncs-server.c:713-767 | the pager's walk over the slots sends the pages of `Response` (the three copies differ in table, record and capacity) |
| ListPaging.PagesCount | libsyncs/syncs-server.c:724-743 | n records make n/m + 1 pages for any page capacity m |
| ListPaging.PagesContents | libsyncs/syncs-server.c:730-767 | the pages concatenate to the records |
| ListPaging.ResponseShape | libsyncs/syncs-server.c:713-767 | numbered 0, 1, 2 and so on, only the last one marked, together the used slots in slot order |
| ListPaging.AnnouncedPages | libsyncs/syncs-server.c:725 | each page announces the number of pages, if the server's count is the number of used slots |
| ListReassembly.ListReader.Request | libsyncs/syncs-client.c:988-992 | a new sequence number, an empty list, page 0 expected |
| ListReassembly.RequestsAreNumbered | libsyncs/syncs-client.c:988-992 | whatever has come in before, request q of a reader carries q modulo 256 and starts over: page 0, nothing received, waiting |
| ListReassembly.ListReader.OnPage | libsyncs/syncs-client.c:544-560 | a page with the right number and index is copied behind what is there; every other page is ignored |
| ListReassembly.ReassemblySafe | libsyncs/syncs-client.c:544-594 | under loss, duplication, reordering and stale pages, whatever count the server announces: no copy leaves the table, it holds a prefix of the server's list, and a released caller has the complete one, unless a request a multiple of 256 back was answered with another list |
| ListReassembly.InOrderCompletes | libsyncs/syncs-client.c:544-560 | the answer in order releases the caller |
| ListReassembly.SameNumberIff | libsyncs/syncs-client.c:549 | a page of the answer to an earlier request carries the current number if and only if that request lies a multiple of 256 back, or is the current one |
| ListReassembly.WrappedAnswerIsTaken | libsyncs/syncs-client.c:544-560 | the failing input: the answer to any request that lies a multiple of 256 back and had another list releases the caller with that list |
| ListReassembly.SafeForIff | libsyncs/syncs-client.c:544-594 | for given lists and counts at the requests: reassembly is safe if and only if every request in flight that lies a multiple of 256 back was answered with the same list |
| ListReassembly.SafeIffNoWrap | libsyncs/syncs-client.c:544-594 | reassembly is safe for all contents of the lists and all counts of them if and only if no answer in flight is to an earlier request that lies a multiple of 256 back |
| BrokerLists.EventListSafeIff | libsyncs/syncs-server.c:713-767 | of the pages that the broker really sends for a client's event list requests: whatever of them arrives, reassembly is safe if and only if each earlier request in flight has another number or was answered with the same events |
| BrokerLists.ClientListSafeIff | libsyncs/syncs-server.c:660-711 | the same for the client list, although the pages announce a count that is not exact |
| BrokerLists.ChannelListSafeIff | libsyncs/syncs-server.c:769-821 | the same for the channel list |
| BrokerInvariant.CountIsSubscribers | libsyncs/syncs-server.c:195-234 | an event's counter is its number of distinct subscribers |
| BrokerInvariant.RoomForConsumer | libsyncs/syncs-server.c:206-216 | a client that is not yet subscribed always finds a free consumer slot (64 slots, 64 distinct clients) |
| BrokerInvariant.AddKeepsInv | libsyncs/syncs-server.c:195-217 | adding never returns -1 in a reachable state, adds exactly one subscriber, and keeps the invariant |
| BrokerInvariant.RemoveKeepsInv | libsyncs/syncs-server.c:219-234 | takes exactly one subscriber off and keeps the invariant |
| BrokerInvariant.RemoveAllKeepsInv | libsyncs/syncs-server.c:236-245 | takes the client off every active event and nothing else |
| BrokerInvariant.CloseKeepsInv | libsyncs/syncs-server.c:495-507 | after a disconnection no active event lists the slot; the rest is unchanged |
| BrokerInvariant.DatagramClientKeepsInv | libsyncs/syncs-server.c:991-1037 | arrival, rebinding by identifier and reuse keep datagram addresses distinct |
| BrokerInvariant.ProcessKeepsInv | libsyncs/syncs-server.c:882-936 | every request of a live client keeps the invariant |
| BrokerInvariant.InitialInv | libsyncs/syncs-server.c:1192-1206 | the server starts in it |
| BrokerRuns.StepKeepsInv | libsyncs/syncs-server.c:1121-1145 | so does every packet, datagram, connection, disconnection and call of the server's own program |
| BrokerRuns.RunKeepsInv | libsyncs/syncs-server.c:1121-1145 | every state of every run satisfies it |
| BrokerCounting.ReachableStates | libsyncs/syncs-server.c:1121-1145 | spelled out for every reachable state: distinct identifiers, exact event count within 256, exact consumer counts, live subscribers and channel owners, distinct datagram addresses, room for any subscription |
| BrokerTable.CapacityAndCount | libsyncs/syncs-server.c:97-109 | the server's event count is the size of the table, at most 256; no slot is free if and only if it is 256 |
| BrokerTable.ObtainRefines | libsyncs/syncs-server.c:509-523 | find-or-create on the slots is find-or-create in the map, with its two errors |
| BrokerTable.SubscribeRefines | libsyncs/syncs-server.c:509-532 | subscribes in the map, with the type check, and sends the event again exactly when the presented stamp is older |
| BrokerTable.RefusedByTypeIff | libsyncs/syncs-server.c:525-527 | a subscription to an existing event is refused with -3 if and only if the types differ and neither is 0xf; otherwise it is granted |
| BrokerTable.AnyTypeIsGranted | libsyncs/syncs-server.c:525-527 | a subscriber with type ANY is granted every event there is, and an event of type ANY grants everybody |
| BrokerTable.RefusedByRoomIff | libsyncs/syncs-server.c:515-522 | a subscription to an event that does not exist: -1 unless forced, -2 when 256 are there, otherwise created with the subscriber's type and held by it alone |
| BrokerTable.UnsubscribeRefines | libsyncs/syncs-server.c:534-544 | unsubscribes in the map |
| BrokerTable.DefineRefines | libsyncs/syncs-server.c:546-567 | defines in the map; the result is 0 if and only if the event is new and there is room, or the definition is forced |
| BrokerTable.UndefineRefines | libsyncs/syncs-server.c:157-165 | removes the identifier from the map |
| BrokerTable.ReadRefines | libsyncs/syncs-server.c:581-604 | answers the reader alone, with the stored bytes and type, or with type undefined |
| BrokerTable.FanExactlyOnce | libsyncs/syncs-server.c:325-334 | the walk over the consumer slots sends one message to each subscriber but the skipped one, and no other |
| BrokerTable.WriteRefines | libsyncs/syncs-server.c:606-649 | an accepted write stores bytes, type check and stamp in the map, calls the hook once and sends each subscriber one EVENT with the written bytes, but none to the writer without ECHO |
| BrokerTable.ServerWriteRefines | libsyncs/syncs-server.c:375-405 | a write of the server's program stores the bytes, leaves type and stamp alone and sends each subscriber one EVENT, excluding nobody |
| BrokerTable.HookRefines | libsyncs/syncs-server.c:259-277 | the server's own subscription sets the hook in the map |
| BrokerTable.UnhookRefines | libsyncs/syncs-server.c:279-291 | and takes it away |
| BrokerTable.CloseRefines | libsyncs/syncs-server.c:495-507 | a disconnection takes the client off every event of the map and leaves no open channel owned by it |
| BrokerTable.GreetRefines | libsyncs/syncs-server.c:915-926 | an introduction answers with the status; the wrong version disconnects |
| BrokerRuns.StepRefines | libsyncs/syncs-server.c:882-936 | over every step the slot arrays do what the map does; the slots show only in the stale bytes of a new event |
| BrokerHistory.ReadReturnsLastWrite | libsyncs/syncs-server.c:581-649 | whatever else happens in between, a read by anybody returns exactly the bytes and type of the last accepted write, unless the event was written, undefined or forcibly defined again |
| BrokerHistory.ReadReturnsLastServerWrite | libsyncs/syncs-server.c:375-449 | the same after a write by the server's own program, with the type that the event had |
| BrokerHistory.WrittenBytesAfterForcedDefine | libsyncs/syncs-server.c:546-567 | after a forced definition the written bytes come back if and only if the defined size is their number |
| BrokerHistory.ServerReadRefines | libsyncs/syncs-server.c:433-449 | the server's program reads the stored value, cut to its buffer, or -1 |
| BrokerHistory.StampIsLastWrite | libsyncs/syncs-server.c:635-638 | the counter is the number of accepted client writes, and an event's stamp the number of the last one to it |
| BrokerHistory.LastWritesDistinct | libsyncs/syncs-server.c:635-638 | stamps are below the counter and pairwise distinct, in the order of the last writes |
| BrokerHistory.ResentIffWrittenSince | libsyncs/syncs-server.c:529-530 | presenting the stamp of a write brings the event again if and only if a later client write to it was accepted |
| BrokerHistory.NewcomerIsSentIff | libsyncs/syncs-server.c:529-530 | presenting 0 brings the value if and only if a client has written the event since it was created and its last client write is not the very first that the server accepted: that one has stamp 0, as an event has that no client, or only the server's program, has written |
| BrokerHistory.WritersAreCounted | libsyncs/syncs-server.c:626-632 | over every run an event's producer is its last writer since it came into being, its count the number of client writes, and its producer count the number of changes of the writer, in 32 bits |
| BrokerCounting.SubscriptionsConserved | libsyncs/syncs-server.c:195-245 | over every run a live client's counter is the number of active events that hold it plus what it lost to undefinitions |
| BrokerCounting.TotalsAgreeWithoutUndefine | libsyncs/syncs-server.c:195-245 | in runs without undefinitions the counters are exact and the clients' and events' totals agree |
| BrokerCounting.DoubleCounting | libsyncs/syncs-server.c:195-245 | in any state of the invariant the two totals differ by exactly what was lost |
| BrokerCounting.StepDrift | libsyncs/syncs-server.c:157-165 | the only step that parts a counter from the events is an undefinition, by one for each subscriber |
| BrokerCounting.EventListExact | libsyncs/syncs-server.c:713-767 | the event list has as many pages as it announces, numbered, the last one marked, and lists exactly the active events in slot order |
| BrokerCounting.ClientCountKeepsTheGone | libsyncs/syncs-server.c:495-507 | the client count is not exact: a client that goes away is no longer listed but still counted |
| BrokerClientCount.StepAccounted | libsyncs/syncs-server.c:1077-1119 | every step opens at most one client and counts it, and closes at most one and does not |
| BrokerClientCount.ClientCountOverRuns | libsyncs/syncs-server.c:991-1119 | after every run the client count is the number of live clients plus the number of disconnections and rejected introductions, in 32 bits |
| BrokerClientCount.ClientListExactIff | libsyncs/syncs-server.c:660-711 | the client list holds exactly the live clients; the count agrees with it if and only if the closures are a multiple of 2^32, and the announced number of pages is right if and only if they do not fill another page |
| BrokerChannelCount.ChannelCountOverRuns | libsyncs/syncs-server.c:83-95 | after every run the channel count is the number of open channels plus the number of those that went with their owners, in 32 bits |
| BrokerChannelCount.ChannelListExactIff | libsyncs/syncs-server.c:769-821 | the same two equivalences for the channel list |
| BrokerChannels.ChannelCapacity | libsyncs/syncs-server.c:83-95 | the table of channels has at most 32, and a slot is free exactly while it has fewer |
| BrokerChannels.AnnounceRefines | libsyncs/syncs-server.c:823-845 | an announcement puts the announced port and flags and the announcer's address into the table, counts it, and counts a change of the owner |
| BrokerChannels.TicketRefines | libsyncs/syncs-server.c:847-864 | a ticket request is answered with what the table has, or not at all |
| BrokerChannels.DepartRefines | libsyncs/syncs-server.c:247-257 | a client that goes away takes its channels out of the table, and no others |
| BrokerChannels.ChannelStepRefines | libsyncs/syncs-server.c:882-936 | over every step the channel slots do what the table does; the address of an offer is the one that the server has for the sender |
| BrokerChannels.TicketIsLastAnnouncement | libsyncs/syncs-server.c:823-864 | over any run in which a channel is not announced again and its owner does not leave, whoever asks gets a ticket with the owner's address, the announced port and flags, and the channel list agrees |
| BrokerChannels.OfferIsListed | libsyncs/syncs-server.c:789-796 | every channel of the table is in the channel list with its address, port and counters |
| BrokerChannels.NoTicketWithoutOwner | libsyncs/syncs-server.c:247-257 | once the owner is gone there is no ticket |
| BrokerLiveness.ReachesLiveIff | libsyncs/syncs-server.c:964-980 | all packets of a read find their client live if and only if none before the last one is an introduction with the wrong version |
| BrokerLiveness.SubscriptionOfTheGone | libsyncs/syncs-server.c:915-926 | otherwise a subscription can be made for a client that is gone, and is there for the next user of its slot, whose counter is then one short |
| BrokerReads.DispatchedIsRun | libsyncs/syncs-server.c:964-980 | dispatching the packets of a read is a piece of a run, legal if and only if they all find their client live |
| BrokerReads.LoopIsRun | libsyncs/syncs-server.c:1121-1145 | whatever becomes readable, the loop goes through a run of the broker; the run is legal, so that all theorems about runs hold of it, if and only if sockets are readable for live clients and no read holds a rejected introduction before its last packet |
| BrokerAnswers.RequestAnswered | libsyncs/syncs-server.c:882-936 | the answer to every request of a live client, in terms of the tables alone: the stored value, the resent one, the status, the ticket, the list, the event to the subscribers, or nothing |
| BrokerAnswers.WriteAnswer | libsyncs/syncs-server.c:606-649 | a write that is taken calls the hook first and sends one event to each subscriber, to the writer only with ECHO; any other is not heard |
| BrokerAnswers.EventListAnswer | libsyncs/syncs-server.c:713-767 | the event list: full pages of five and a last one, numbered, together one record for each active event in slot order, with its fields and its number of subscribers |
| BrokerAnswers.ClientListAnswer | libsyncs/syncs-server.c:660-711 | the client list likewise, nine to a page |
| BrokerAnswers.ChannelListAnswer | libsyncs/syncs-server.c:769-821 | the channel list likewise, eleven to a page |
| BrokerAnswers.DatagramIsAnswered | libsyncs/syncs-server.c:1018-1037 | a datagram is answered to the client of its address, found, moved or new; a stranger without introduction gets status 2 |
| BrokerAnswers.StepIsAnswered | libsyncs/syncs-server.c:882-936 | every step sends exactly its answers; of the server's program only a write is heard |
| BrokerAnswers.ReadIsAnswered | libsyncs/syncs-server.c:964-980 | the packets of one read are answered one after another |
| BrokerAnswers.WakeIsAnswered | libsyncs/syncs-server.c:1137-1143 | what the server sends at each wake-up |
| BrokerAnswers.LoopIsAnswered | libsyncs/syncs-server.c:1121-1145 | all that an orderly loop sends is the answers, wake-up after wake-up |
| BrokerReads.ReceivedIsBounded | libsyncs/syncs-server.c:975-978 | no request that comes through the framer carries more than an event holds |
| BrokerReads.DatagramRequest | libsyncs/syncs-server.c:1064-1072 | nor does one in a datagram |
| DatagramLimits.BehindIgnoredIff | libsyncs/syncs-server.c:866-872 | what lies behind a packet in the buffer has no influence on the request if and only if it is no announcement, or its payload has the ten bytes of a ticket |
| DatagramLimits.DatagramCoveredIff | libsyncs/syncs-server.c:1039-1075 | the request in a datagram depends on the received bytes only, if and only if a write is received to the end that its masked size announces, and an announcement to the end of its ticket |
| BrokerArrivals.LoopIsSession | libsyncs/syncs-server.c:1121-1145 | among all wake-ups for all others, the residue of a client slot and the requests that the broker gets for it are those of one framer session over its own reads |
| BrokerArrivals.CallsReachTheBroker | libsyncs/syncs-server.c:938-989 | from one client's calls through the shared loop to the broker: behind a residue without 'S' and in reads of at least a header, the requests in its packets are what it called for, in order, whatever all others do in between |
| BrokerArrivals.OrderlyLoopReaches | libsyncs/syncs-server.c:1121-1145 | after any orderly loop of a new server all that `ReachableStates` lists holds of its tables |
| BrokerEffects.WordDecidesWhoHears | libsyncs/syncs-server.c:318-333 | from the caller's word to the others: the writer hears of its write exactly with bit 0x20, every other subscriber hears of it, and with a firing time exactly with bit 0x10 |
| BrokerEffects.DatagramIsItsPacket | libsyncs/syncs-server.c:1064-1072 | a packet in a datagram asks for what it asks for on a connection, whatever lies behind it |
| BrokerEffects.CallByDatagram | libsyncs/syncs-server.c:1039-1075 | a client's call in a datagram of its own reaches the broker as what it means |
| BrokerEffects.LostConnection | libsyncs/syncs-server.c:950-960 | a broken or closed connection: the client is gone from events and channels, everybody else stays, nobody is told |
| BrokerEffects.NothingToRead | libsyncs/syncs-server.c:952-954 | nothing to read now changes nothing |
| BrokerEffects.NewConnection | libsyncs/syncs-server.c:1077-1119 | a connection takes the first free slot with its descriptor and address and no subscription, and is counted; without a free slot nothing changes |
| BrokerEffects.DatagramClient | libsyncs/syncs-server.c:991-1037 | which client a datagram is from: by address, else by the name of an introduction at its new address, else a free slot |
| BrokerEffects.IntroductionIsKept | libsyncs/syncs-server.c:915-926 | an introduction leaves its name and version with its client and nobody else |
| BrokerEffects.TheGoneHearNothing | libsyncs/syncs-server.c:177-193 | a client that is gone is not answered |
| BrokerEffects.OffsetStays | libsyncs/syncs-server.c:293-306 | over every run the offset of the firing times is the 300 milliseconds of a new server |
| BrokerEffects.ProgramIsTold | libsyncs/syncs-server.c:375-391 | the result codes of a write, a hook and a definition of the server's program: -1, -2 and -5, exactly when |
| BrokerReconnect.ReplayedTable | libsyncs/syncs-server.c:509-532 | repeating subscriptions subscribes to exactly the granted ones and leaves everybody else's alone |
| BrokerReconnect.ReconnectRestores | libsyncs/syncs-server.c:495-532 | a client that went away, came back and repeated its subscriptions holds exactly those that exist or can be created within the capacity and are of a compatible type |
| BrokerInterleaving.StepSubs | libsyncs/syncs-server.c:509-544 | over one step of anybody, a client that does not leave keeps what it holds while the event is there and it does not unsubscribe, and gains exactly what it asks for and is granted |
| BrokerInterleaving.SubscribedIffGranted | libsyncs/syncs-server.c:509-544 | over any run in which a client does not leave, it ends subscribed to an event if and only if it was at the start, or asked at some step and was granted it by the table of that step, and ever since the event has been there and the client has not unsubscribed from it |
| BrokerInterleaving.ReturnsAmongOthers | libsyncs/syncs-server.c:495-532 | the return of a client among the steps of all others: it holds exactly what it was granted when it asked again, and what has neither been undefined nor given up since |
| ClientTable.Subscriptions.FindEventStr | libsyncs/syncs-client.c:64-72 | the lookup by string |
| ClientTable.Subscriptions.FindEvent | libsyncs/syncs-client.c:54-62 | the lookup by identifier |
| ClientTable.Subscriptions.GetFreeEvent | libsyncs/syncs-client.c:74-82 | the first free slot |
| ClientTable.Subscriptions.ProcessEvent | libsyncs/syncs-client.c:449-474 | an event that arrives leaves its counter in its slot |
| ClientTable.Subscriptions.Subscribe | libsyncs/syncs-client.c:365-382 | a subscription goes into the slot found by string or the first free one |
| ClientTable.Subscriptions.Unsubscribe | libsyncs/syncs-client.c:435-447 | the slot found by identifier is freed |
| ClientTable.Subscriptions.AnnounceChannel | libsyncs/syncs-client.c:1046-1060 | an announced channel goes into the first free place, and out when there is a connection |
| ClientTable.Subscriptions.SendId | libsyncs/syncs-client.c:350-363 | sends the introduction, then the used slots in slot order, then the announced channels |
| ClientTable.LookupsAgree | libsyncs/syncs-client.c:54-72 | on names of at most 31 bytes both lookups find the same slot; a longer name is never found by its string |
| ClientTable.SubscribeKeys | libsyncs/syncs-client.c:365-382 | a subscription adds its key; the table keeps one slot a key if and only if the name was not a long one that is already there while a slot is free |
| ClientTable.UnsubscribeKeys | libsyncs/syncs-client.c:435-447 | giving up a subscription removes its key, however long the name |
| ClientTable.RunKeys | libsyncs/syncs-client.c:365-447 | over every run that does not repeat a long name the slots hold each of the program's subscriptions once and nothing else |
| ClientTable.OneSlotEachIff | libsyncs/syncs-client.c:365-447 | at every moment of a run there is one slot for each subscription if and only if the program never subscribes again under a name of 32 or more bytes that it already has, while there is room |
| ClientTable.ShortNamesUnrepeated | libsyncs/syncs-client.c:365-447 | names of at most 31 bytes never do that |
| ClientTable.WantsAreKeys | libsyncs/syncs-client.c:350-359 | what is repeated names each key once and no other |
| ClientMemory.RunRemembers | libsyncs/syncs-client.c:365-474 | over every run that does not repeat a long name each used slot has the flags of the last subscription under its name and the counter of the last event since |
| ClientMemory.RepeatedAsAsked | libsyncs/syncs-client.c:355-358 | so what is repeated on connection are the program's last words for each name |
| ClientMemory.AnnouncedBehind | libsyncs/syncs-client.c:1046-1060 | an announced channel goes behind those announced before |
| ClientMemory.AnnouncedAgain | libsyncs/syncs-client.c:359-362 | on connection the channels are announced again as they were, in that order |
| ClientTable.SubscriptionsSurviveReconnection | libsyncs/syncs-client.c:350-447 | from the program's calls to the broker: after reconnection the client is on exactly those of the program's events that the broker grants |
| ClientTable.SubscriptionsSurviveAmongOthers | libsyncs/syncs-client.c:350-447 | the same among the steps of all others, with grants taken where each subscription is processed |
| Server.Server.constructor | libsyncs/syncs-server.c:1192-1223 | a new server: empty tables, zero counters, offset 300 ms |
| Server.Server.FindEventSlot | libsyncs/syncs-server.c:111-119 | the first slot with the identifier |
| Server.Server.FindUClientAddr | libsyncs/syncs-server.c:133-145 | the first datagram client with the address and port |
| Server.Server.FindUClientId | libsyncs/syncs-server.c:121-131 | the first datagram client with the identifier |
| Server.Server.GetFreeClient | libsyncs/syncs-server.c:43-51 | the first free client slot |
| Server.Server.CreateEvent | libsyncs/syncs-server.c:97-109 | the first free slot becomes the event, of its old data only the first byte cleared |
| Server.Server.FindOrCreate | libsyncs/syncs-server.c:375-391 | find, or create when forced, with the two errors |
| Server.Server.FreeEventSlot | libsyncs/syncs-server.c:157-165 | the marker goes over the identifier, and the count goes down |
| Server.Server.AddClientToEvent | libsyncs/syncs-server.c:195-217 | the two walks over the consumer slots do what `AddConsumer` says |
| Server.Server.RemoveClientFromEvent | libsyncs/syncs-server.c:219-234 | the walk does what `RemoveConsumer` says |
| Server.Server.RemoveClientFromEvents | libsyncs/syncs-server.c:236-245 | the walk over the active events does what `RemoveFromEvents` says |
| Server.Server.RemoveChannelsOfClient | libsyncs/syncs-server.c:247-257 | every open channel of the client is freed, no other |
| Server.Server.CloseClientSocket | libsyncs/syncs-server.c:495-507 | does what `CloseClient` says |
| Server.Server.ClientSend | libsyncs/syncs-server.c:177-193 | a packet leaves for a connected or datagram client, none for a closed slot |
| Server.Server.SendToConsumers | libsyncs/syncs-server.c:308-335 | the packet of the event, stamped when asked, goes out as `SendEvent` says |
| Server.Server.SendToSlots | libsyncs/syncs-server.c:325-334 | the walk over the consumer slots sends what `Fan` says, in slot order |
| Server.Server.ClientSubscribe | libsyncs/syncs-server.c:509-532 | does what `Subscribed` says: state, packets, result |
| Server.Server.ClientUnsubscribe | libsyncs/syncs-server.c:534-544 | does what `Unsubscribed` says |
| Server.Server.AddEvent | libsyncs/syncs-server.c:546-567 | does what `Defined` says |
| Server.Server.ServerDefine | libsyncs/syncs-server.c:569-579 | -5 beyond 511 bytes, otherwise what `Defined` says |
| Server.Server.ClientRead | libsyncs/syncs-server.c:581-604 | does what `ReadBy` says |
| Server.Server.ClientWrite | libsyncs/syncs-server.c:606-649 | does what `Written` says: state, hook, packets, result |
| Server.Server.ServerWrite | libsyncs/syncs-server.c:375-405 | does what `WrittenByServer` says |
| Server.Server.ServerRead | libsyncs/syncs-server.c:433-449 | does what `ReadByServer` says |
| Server.Server.ServerSubscribeEvent | libsyncs/syncs-server.c:259-277 | does what `Hooked` says |
| Server.Server.ServerUnsubscribeEvent | libsyncs/syncs-server.c:279-291 | does what `Unhooked` says |
| Server.Server.ClientHello | libsyncs/syncs-server.c:915-926 | does what `Greeted` says: the status first, then the disconnection, then the name |
| Server.Server.CreateChannel | libsyncs/syncs-server.c:83-95 | the first free slot becomes the channel |
| Server.Server.AddChannel | libsyncs/syncs-server.c:823-845 | does what `Announced` says |
| Server.Server.ClientChannelRequest | libsyncs/syncs-server.c:847-864 | does what `TicketFor` says |
| Server.Server.ClientSendEventList | libsyncs/syncs-server.c:713-767 | sends the pages that `EventsListed` says |
| Server.Server.ClientSendClientList | libsyncs/syncs-server.c:660-711 | sends the pages that `ClientsListed` says |
| Server.Server.ClientSendChannelList | libsyncs/syncs-server.c:769-821 | sends the pages that `ChannelsListed` says |
| Server.Server.ClientProcessPacket | libsyncs/syncs-server.c:882-936 | dispatches each request to its routine |
| Server.Server.ClientHandler | libsyncs/syncs-server.c:938-989 | one readable event, from the bytes in the buffer to state, packets sent and residue; an error or an empty read disconnects |
| Server.Server.AddClient | libsyncs/syncs-server.c:1077-1119 | does what `Accepted` says |
| Server.Server.AddUClient | libsyncs/syncs-server.c:991-1016 | the first free slot becomes the datagram client |
| Server.Server.UClientProcessPacket | libsyncs/syncs-server.c:1018-1037 | does what `DatagramProcessed` says |
| Server.Server.UdpHandler | libsyncs/syncs-server.c:1039-1075 | checks the magic bytes, masks the size and processes the request |
| Server.Server.ProgramCall | libsyncs/syncs-server.c:259-291 | a call of the server's own program does what the step says |
| Server.Server.ClientReady | libsyncs/syncs-server.c:938-989 | a readable client: its own buffer changes and no other |
| Server.Server.Wake | libsyncs/syncs-server.c:1137-1143 | each wake-up calls the routine that is registered for the socket |
| Server.Server.RecvClients | libsyncs/syncs-server.c:1121-1145 | the loop over whatever becomes readable: tables, residues and everything sent are those of `ServedAll`, which `BrokerReads.LoopIsRun` makes a run; from a new server, and when orderly, it ends in a state of which all that `ReachableStates` lists holds |

## Left out

- Sockets, epoll, accept errors, keepalive, multicast and routing: calls of the operating system; what they bring in is a parameter (bytes read, connections, clock readings, the kernel's answers to `send`).
- Threads beyond the READ handshake, and data races inside one packet: a packet is one atomic step, and so is the unlocked setup of a read.
- Encryption in `syncs-crypt.c`: compiled in only under a switch, and OpenSSL is not part of this model.
- SSDP discovery, JSON configuration, command-line tools, the Python wrapper and printing of statistics: input and output.
- The statistics `event_write`, `rx_event_count`, `tx_event_count`, `tx_error` and `uclient_count`: nothing reads them but the lists and the printout.
- Broker.Client: `subscribed` is an unbounded integer, where the field has 32 bits; it is at most the number of subscriptions ever made.
- Broker.Event: the 64 consumer pointers are a sequence of client numbers inside a slot that is replaced as a whole; pointers into the event table are slot numbers. Aliasing of one slot by two pointers is therefore not modelled; the routines hold one pointer at a time.
- The program's call that changes the offset of firing times: it is no step of the runs; the stamp is proved for every offset.
- User callbacks: they are outputs of a step and do not call back into the broker.
- Server.Server.ServerWrite: requires sizes up to 511, because the routine copies into the event's buffer without checking; larger sizes are an error of the caller that the model does not follow.
- Server.Server.ClientHandler: the ticket of an announcement is read behind the header whatever the size field says; what lies behind the payload in the buffer is the parameter `behind`, which matters exactly as `DatagramLimits.BehindIgnoredIff` says.
- Server.Server.UdpHandler: takes the whole receive buffer, because the size field of a datagram is not compared with its length; `DatagramLimits.DatagramCoveredIff` says when that shows.
- Server.Server.RecvClients: waiting for sockets is left out; the sequence of what becomes ready, between calls of the server's own program, is a parameter.
- Sending.BlockingSend: a loop that waits for an answer of the kernel for ever ends here with the outcome Blocked when the given answers run out.
- BrokerHistory.ResentIffWrittenSince: the stamp that a subscriber presents is a parameter, because the builders of EVENT packets do not put the counter into the header; and the counter is taken below 2^64, where it would wrap.
- BrokerHistory.StampIsLastWrite: taken for fewer than 2^64 accepted writes, after which the counter starts again at 0.
- ListReassembly.ReassemblySafe: asks for tables of fewer than 255 pages, as all three tables of the server are (`BrokerLists`).
- ListReassembly.ListReader.OnPage: requires the copy to stay inside the table, which the routine does not check; `ReassemblySafe` proves it for servers that answer as the pager does.
- List pages that arrive while the client has no table for them: the client ignores them, and so nothing is reassembled.
- Link.Transmit: stops at the first failed send; a caller that goes on is `TornSends.KeepSending`.
- BrokerReconnect.ReconnectRestores: the repeated subscriptions are processed one after another, with no step of another client in between; `BrokerInterleaving.ReturnsAmongOthers` has the others' steps, and then grants are taken one by one instead of from the first table.
- ClientTable.Subscriptions.AnnounceChannel: requires a free place, because the routine writes to the one it found without checking that there was one.
- ServerMessages.ClientUnderstands: the client's own use of a page (`ListReassembly`) and of a reply (`ReadHandshake`) is proved on the pages and replies themselves.
- Server.Server.ClientSend: one message leaves as a whole; the send loop that may stop in the middle of a packet is `Sending.BlockingSend`.
- Uniqueness of the identifiers of datagram clients: the program does not maintain it.
- The type discipline of `syncs_server_write`: it neither checks nor sets the type.
- The client's ticket request: nothing ever waits for its reply.
- The client's delivery of events to callbacks and the event queue of `syncs_wait_event`, and the data buffers of its slots.
- The UDP receive loop of the client: one packet a datagram, no residue.
