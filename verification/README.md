# A verified model of the SMS gateway

A gateway takes short messages from accounts, passes them on to upstream operators, and carries
responses, uplink messages and status reports back. This project models, in Dafny 4.11, the parts of it
that are hard to get right, and proves what they guarantee:

* **The long-message pipeline.** A text is encoded, cut into 134-byte parts, framed into CMPP 2.0 or 3.0
  packets and written as one stream; the peer deframes it, decodes each packet, and its entity puts the parts
  together, in whatever order they come, and publishes the message. The main theorems
  (`EndToEnd.SubmitEndToEndIff`, `EndToEnd.DeliverEndToEndIff`) say exactly when the text is published as it
  was sent.
* **The delivery protocol.** One task per entity owns the connection list, the round-robin cursor, the
  receipt map and the reassembly cache; one task per connection owns two queues, a rate window and a
  heartbeat. `Gateway` is the state machine of all of them; `Causality.MessagesConserved` and
  `Causality.AnswersCarryTheirPart` hold over every interleaving.
* **Identifiers and numbers.** The packed CMPP id and its 22 digits, the SMGP id in BCD, the SMGP optional
  fields, the binary32 division that chooses the part count, and the sequence number allocator.

## How it is laid out

`Bytes`, `Arithmetic`, `Wrappers`, `Cursor` and `Messages` are shared. `Float32`, `Segments`, `Charset`,
`TextParts`, `Framing`, `CmppContent`, `CmppSubmit`, `CmppDeliver`, `LongSms`, `Crossing`, `Publishing` and
`EndToEnd` are the pipeline; `Formats`, `Layout` and `Reading` say byte by byte what stands on the wire and where
the decoders look, malformed packets included. `Sequence`, `CmppMsgId`, `SmgpMsgId` and `SmgpTlv` are the
identifiers. `Entity`, `Dispatch`, `EntitySteps`, `Receipts`, `EntityRunning` and `Handoff` are the entity, and
`EntityReads` says field by field what it makes of each message; `Channel` is a connection's task; `Counting`,
`EntityCounts`, `Gateway`, `Conservation`, `GatewayInvariant`, `Causality`, `Books`, `Doubling`, `Timers` and
`StateReports` are the whole system.

Code that updates state in place is modelled by classes (`Sequence.Sequencer`,
`EntityRunning.EntityRunContext`, `EntityRunning.TempSaveMap`, `Channel.ChannelTask`), arrays
(`CmppMsgId.WriteU64`, the SMGP loops) and loops; each such method is proved equal to a function of the
state it found, and the theorems are about those functions. `EntityRunContext.Value()` and
`ChannelTask.Value()` are the states the functions work on; the decoders consume a `Cursor.Buffer`.

The clock, the encoder's success, the success of a write, the answers of a peer and the order in which a
hash map is visited are parameters, so the theorems hold for all of them. A JSON message is the record
`Messages.Json`; a submit is identified by its `msg_ids`, an uplink message or report by its `msg_id`, as
README.md lines 33, 52 and 72 of the repository describe.

## What the model shows about the code

Some of the guarantees the code is meant to give hold only under a condition, and the project states it:

* A long submit crosses if and only if it has at most 255 destinations and at most 255 parts (the counts are
  single bytes), no byte cut falls inside a character (a part that does not decode closes the connection), and
  no unfinished message with the same source, destination and total already fills the slot of the part that
  arrives last. Witnesses for the failures: `CmppSubmit.CrowdIsLost`, `Crossing.TooManyParts`,
  `TextParts.EuroSignsCutBadly` and `Crossing.OldPartSpoils`.
* The 22 digits of a reported id survive if and only if they fit the bit fields.
* A packet cut short does not always stop the decoders: a string field that is not all there reads as empty and
  takes nothing, so the fields behind it are read from the wrong place. `Reading.SubmitHeadPanicsIff` and
  `Reading.DeliverHeadPanicsIff` say for which lengths the decoder panics instead.
* The business side always knows an entity's true state, as long as the entity has fewer than 255 connections:
  their count is one byte, and with 256 a report says that there is none (`StateReports.StateIsTold`,
  `StateReports.CountWraps`).
* The round-robin search finds a usable connection whenever the cursor does not wrap and no skipped connection
  is followed, cyclically, by a writable one whose task has ended (`Dispatch.SafeSucceedsIff`). Without the second
  condition it can be missed: always from some cursor when there is one of each (`Dispatch.TrapMisses`, and
  `Dispatch.ForgettingCanMiss` for an input); `Dispatch.FailsIffMisses` says exactly from which cursors, for any
  list. Without the first, too (`Dispatch.WrapCanMiss`).
* The rate limit counts the `msg_ids` a message carries while it is queued. The packets written keep
  to every limit if the messages carry at least as many ids as they are written as packets, and a message that
  does not exceeds some limit (`Channel.PacketBound`, `Channel.KeepsToLimitIff`). Uplink messages and reports
  are queued without any (the encoder makes those of uplink messages), so any number of them is written within
  a second (`Channel.NoIdsNoLimit`).
* When an answer to a part after the first asks to slow down, the entity queues the whole message again,
  although the first part's entry may still be sent again: an accepted message of several parts can be in two
  places (`Doubling.TwoPlaces`). `Conservation.OnePlaceStaysIff` says that this is the only way.
* A submit bounced for its rate while it is being sent again still carries its receipt mark, so the entity
  stores it under its old numbers instead of queueing it; `Causality.MessagesConserved` shows that it is
  not lost.
* An SMGP optional field with an empty slice at the very end is not read back, and an SMGP id survives
  only if the gateway id's hexadecimal digits are decimal.

## Model

| member | source | states |
|---|---|---|
| `EndToEnd.SubmitEndToEndIff` | src/protocol/cmpp32.rs:378-443 | For every order in which the packets of a long submit reach the peer's entity, and at whatever times: the stream deframes to one frame a part, and reading the packets publishes nothing up to the last and there exactly one message, on the submit topic: the first part as it was read, with the sender's content, the ids in part order and no `msg_id`, total, number or packet number, if and only if there are at most 255 destinations and at most 255 parts, no cut goes through a character, and no unfinished message with as many parts under the same key already fills the last packet's slot |
| `EndToEnd.DeliverEndToEndIff` | src/protocol/cmpp32.rs:240-305 | The same equivalence for a long uplink message and the deliver topic; the ids published are the ones each part was sent with |
| `EndToEnd.PlainSubmitEndToEnd` | src/protocol/cmpp32.rs:378-443 | Format 0 with the characters of an ASCII text byte by byte, or format 8 with each character of a text without surrogates in two bytes, the high one first, 141 to 255 * 134 bytes: when nothing waits under its key the message is published whole for every order of its packets if and only if it has at most 255 destinations |
| `EndToEnd.ShortSubmitEndToEnd` | src/protocol/cmpp32.rs:378-443 | A text of at most 140 bytes is one packet, and reading it publishes one submit with the text, its id as the only one listed, and no part total |
| `EndToEnd.PlainDeliverEndToEnd` | src/protocol/cmpp32.rs:240-305 | An uplink message in the same two plain forms is always published whole, with its parts' printed ids, when nothing waits under its key |
| `EndToEnd.ShortDeliverEndToEnd` | src/protocol/cmpp32.rs:240-305 | A short uplink message is one packet, and reading it publishes one message with the text under the id it was sent with |
| `EndToEnd.ReportEndToEnd` | src/protocol/cmpp32.rs:106-198 | A status report written, read and handled is published once, under the id it reports on in both versions, with the state and the times it was given, as far as they fit |
| `Publishing.ArrivesIff` | src/entity/entity_running.rs:304-334 | For any decoded packets that carry their parts, in any order: the entity publishes exactly one message, at the last, with the whole content and every id, if and only if the three receiving conditions hold |
| `Publishing.PublishesIff` | src/entity/entity_running.rs:304-334 | Over any arrivals of parts the entity publishes at the last one and nowhere before exactly if the message comes out of the cache there |
| `EndToEnd.EncodedSubmitIsGood` | src/protocol/cmpp32.rs:366-388 | Whatever the encoder makes of a request whose destinations leave room in the codec's largest frame meets the end-to-end theorem's conditions, and is in at most 255 parts exactly up to 34170 bytes |
| `EndToEnd.ReceiveWire` | src/protocol/implements.rs:23-43 | A stream of packets decodes packet by packet, each by its type, sequence number and body |
| `EndToEnd.SubmitFaithful` | src/protocol/cmpp32.rs:496-528 | Each packet of an encoded submit decodes exactly if its own bytes decode, and then carries its part's number, the total, the key and the text |
| `EndToEnd.DeliverFaithful` | src/protocol/cmpp32.rs:462-494 | The same for an encoded uplink message, with the id of each part |
| `Crossing.CrossesIff` | src/entity/entity_running.rs:434-508 | For any decoded packets that carry their parts: exactly when the cache gives nothing up to the last and there the whole message, with the entry gone |
| `Crossing.PlainTextCrosses` | README.md:31 | ASCII text, and format 8 without surrogates, of 141 to 255 * 134 bytes is always put together when nothing waits under its key |
| `Crossing.TooManyParts` | src/entity/entity_running.rs:443-450 | With 256 parts or more the original never comes out: either part 256, numbered 0, panics, or no part is ever accepted |
| `Crossing.OldPartSpoils` | src/entity/entity_running.rs:463-472 | One old part of an unfinished message of as many parts under the same key, in the slot of the packet that arrives last, keeps a good message from crossing |
| `TextParts.AllDecodeIff` | src/protocol/implements.rs:1142-1182 | The parts of a long message decode one by one if and only if every cut falls between two characters |
| `TextParts.TextsJoin` | src/protocol/implements.rs:1120-1139 | If every part decodes, the texts put together are the original text |
| `TextParts.AsciiCutsWell` | src/protocol/cmpp32.rs:394-398 | Every cut of an ASCII text falls between characters |
| `TextParts.BasicCutsWell` | src/protocol/cmpp32.rs:394-398 | Every cut of a format 8 text without surrogates falls between characters, 134 being even |
| `TextParts.EuroSignsCutBadly` | src/protocol/cmpp32.rs:394-398 | 47 three-byte characters in format 0 are cut through the 45th |
| `Float32.PartCountExact` | src/protocol/cmpp32.rs:388-388 | Rounding in binary32 never changes the part count: it is the integer ceiling of len / 134 for every length below 2^24 |
| `Segments.CutForExact` | src/protocol/cmpp32.rs:378-389 | At most 140 bytes are one part; otherwise every part but the last is 134 bytes and the last is 1 to 134, so every slice is in range |
| `Segments.PiecesJoin` | src/protocol/cmpp32.rs:397-405 | The slices from part i on, put together, are the encoded text from byte i * 134 on: nothing is lost, doubled or moved |
| `Framing.DeframeWire` | src/protocol/cmpp32.rs:537-546 | Packets written back to back come out of the codec as exactly their frames, with nothing left over |
| `Framing.DeframeMore` | src/protocol/cmpp32.rs:23-25 | Deframing does not depend on where the network cuts the stream |
| `Framing.ReadChunks` | src/protocol/cmpp32.rs:23-25 | Reading chunk after chunk hands out the frames of the whole stream and keeps its rest |
| `Layout.FrameTaken` | src/protocol/cmpp32.rs:23-25 | A frame is taken off a stream exactly if its length is there, counts itself and at most 8 MiB, and so many bytes have come |
| `Layout.PacketLayout` | src/protocol/cmpp32.rs:407-411 | Every packet is its own length, the command and the number in four bytes each, the high byte first, and the body |
| `Framing.WireLen` | src/protocol/cmpp32.rs:391-395 | The length of a stream whose packets but the last are full |
| `CmppSubmit.EncodeSubmit` | src/protocol/cmpp32.rs:308-447 | The encoder's result, the sequence numbers it draws (the reference first, then one block of as many numbers as destinations for each part) and the counter it leaves, for both versions; an unknown format is an error that draws nothing |
| `CmppSubmit.EncodeParts` | src/protocol/cmpp32.rs:397-443 | The loop over the parts writes exactly the packets of the message back to back |
| `CmppSubmit.AppendPacket` | src/protocol/implements.rs:728-766 | One round of the loop writes one packet whose declared length is the number of bytes it emits |
| `CmppSubmit.WireLen` | src/protocol/implements.rs:713-715 | The buffer size computed in advance is exactly the number of bytes written, for both versions |
| `CmppSubmit.AnyCountDecodes` | src/protocol/cmpp32.rs:496-528 | For any number of destinations, decoding part i of an encoded submit returns the fields of the header, as many destinations as the count byte says, and what the bytes behind those decode to |
| `CmppSubmit.SubmitRoundTrip` | src/protocol/implements.rs:867-901 | Up to 255 destinations, decoding part i of an encoded submit returns every field both layouts carry: strings cut to their width without trailing NULs, the destinations, the format, the total and number, and the part's own text or its decoding error |
| `CmppSubmit.SubmitFields` | src/protocol/implements.rs:867-901 | Up to 255 destinations: what arrives has, field by field, what was sent as far as it fits, each destination in its place, and nothing else |
| `CmppSubmit.NumbersDrawn` | src/protocol/cmpp32.rs:378-443 | Modulo 2^32, part i has the number the counter stood at, one further if a reference was drawn, and i times the number of destinations further; the reference is the counter's low byte |
| `Layout.SubmitLayout` | src/protocol/cmpp32.rs:407-441 | At which byte of the packet each field stands, in both versions: length, command 4, number, the fixed bytes, the strings, the destinations, the content with its header, and nothing behind the tail |
| `CmppSubmit.ManyDestinationsHideContent` | src/protocol/cmpp32.rs:515-523 | With 256 destinations or more the content is read out of the destinations left over, so every part decodes alike whatever the text |
| `CmppSubmit.DestinationsSurviveIff` | src/protocol/cmpp32.rs:434-435 | Of a packet that decodes, the destination list is read back if and only if it has at most 255 entries, the count being one byte |
| `CmppSubmit.CrowdIsLost` | src/protocol/cmpp32.rs:434-435 | A version 3.0 packet with 256 destinations does decode, to an empty list |
| `CmppSubmit.ReadSubmit` | src/protocol/cmpp32.rs:496-528 | Consuming the buffer field by field yields the specified result, including panics on short buffers |
| `CmppSubmit.ReadDests` | src/protocol/cmpp32.rs:515-519 | The loop reads exactly as many destinations as the count byte says |
| `Reading.SubmitReads` | src/protocol/cmpp32.rs:496-528 | Any packet with a whole header: each field is read from its own offset, as many destinations as are there from theirs and the others as empty, the length byte is looked for behind them, and the text there decides |
| `Reading.DestsRead` | src/protocol/cmpp32.rs:515-519 | As many whole destinations as there are, at most the count, are read; the others are empty and take nothing |
| `Reading.SubmitHeadPanicsIff` | src/protocol/cmpp32.rs:497-514 | A packet cut in its header makes the decoder panic exactly if it ends before the times, or right where a time, the source or the count would begin |
| `CmppContent.LongContent` | src/protocol/implements.rs:1143-1156 | The six-byte concatenation header and the part behind it are read back as total, number and text |
| `CmppContent.WholeContent` | src/protocol/implements.rs:1158-1178 | A content without header is read back as its text |
| `CmppContent.ReadContent` | src/protocol/implements.rs:1142-1182 | Reading length, header and text from the buffer step by step yields the specified result, of which `Reading.HeaderedReads` and `Formats` say what it is |
| `Reading.HeaderedReads` | src/protocol/implements.rs:1142-1182 | A content with a header, whatever its bytes: the decoder panics exactly for a header length below 2, of 255 or past the end; a content no longer than its header is refused; otherwise total and number are the header's last two bytes and the result is the one text that is written as the bytes behind it, or an error if none is |
| `Reading.WholeReads` | src/protocol/implements.rs:1158-1182 | The same without a header; a text not all there is read as empty |
| `Cursor.StringAt` | src/protocol/implements.rs:920-934 | A string written to a fixed-width field reads back cut to the width and without trailing NULs |
| `Cursor.StoredFits` | src/protocol/implements.rs:920-934 | A string that fits its field and does not end in NUL reads back unchanged |
| `Charset.DecodeEncode` | src/protocol/implements.rs:1124-1133 | Every text, encoded in UTF-8 or big-endian UTF-16, decodes to itself; which of them a format is, `Formats` says |
| `Charset.DecodeSound` | src/protocol/implements.rs:1160-1175 | Whatever bytes the strict decoders accept are exactly the encoding of what they return |
| `Formats.PlainTextEncodes` | src/protocol/implements.rs:1120-1139 | Format 0 writes an ASCII text one byte a character, format 8 a text without surrogates in two bytes a character, the high byte first |
| `Formats.CharInFormat0` | src/protocol/implements.rs:1132-1132 | Any character in format 0: the first byte announces the length, the others continue, together they spell the code point, and no shorter sequence could |
| `Formats.CharInFormat8` | src/protocol/implements.rs:1124-1124 | Any character in format 8: one unit, or a high and a low surrogate that spell it, the high byte of each first |
| `Formats.OnlyTwoFormats` | src/protocol/implements.rs:1120-1139 | Exactly formats 0 and 8 are encoded here; 15 is told apart from unknown formats |
| `Formats.ContentRoundTrip` | src/protocol/implements.rs:1120-1182 | Any text in format 0 or 8, of at most 255 bytes, is read back as itself |
| `Formats.PlainContentDecodes` | src/protocol/implements.rs:1158-1175 | A content without header: plain bytes of format 0 or 8 are read back as the text, whatever follows them |
| `Formats.SinglePartDecodes` | src/protocol/implements.rs:1143-1175 | The bytes 5, 0, 3, reference, total, number in front of plain bytes of format 0 are read as total, number and text |
| `Formats.DoublePartDecodes` | src/protocol/implements.rs:1143-1175 | The same for format 8 |
| `CmppDeliver.EncodeDeliver` | src/protocol/cmpp32.rs:200-306 | The uplink encoder's result, the packet numbers, the message ids and the counter it leaves: two numbers a part, the first for the packet and the second for what its message id is made of |
| `CmppDeliver.EncodeParts` | src/protocol/cmpp32.rs:264-301 | The loop over the parts writes exactly the packets of the message back to back |
| `CmppDeliver.WireLen` | src/protocol/implements.rs:578-582 | The buffer size computed in advance is exactly the number of bytes written, for both versions |
| `CmppDeliver.DeliverRoundTrip` | src/protocol/cmpp32.rs:462-494 | Decoding part i of an encoded uplink message returns every field both layouts carry |
| `CmppDeliver.DeliverFields` | src/protocol/cmpp32.rs:462-494 | What arrives has, field by field, what was sent as far as it fits, and nothing else |
| `CmppDeliver.NumbersDrawn` | src/protocol/cmpp32.rs:264-282 | Modulo 2^32, part i has the number 2i behind the first, its id is made of the next, and the reference is the counter's low byte |
| `Layout.DeliverLayout` | src/protocol/cmpp32.rs:264-301 | At which byte of the packet each field stands, in both versions: length, command 5, number, the id, the strings, no report flag, the content, and nothing behind the tail |
| `CmppDeliver.PartIdsDistinct` | src/protocol/cmpp32.rs:280-282 | The ids given to the parts of one uplink message differ, whatever the clock says, up to 2^15 parts |
| `CmppDeliver.EncodeReport` | src/protocol/cmpp32.rs:106-198 | The report encoder writes one packet of the declared length, its own id made of the number drawn after the packet's; an empty id to report on is made of a number drawn first |
| `CmppDeliver.ReportRoundTrip` | src/protocol/implements.rs:826-860 | A status report decodes to its fields and is recognised as a report, in both versions |
| `CmppDeliver.ReportFields` | src/protocol/cmpp32.rs:462-494 | A report says what was reported, as far as it fits, and nothing else: version 2.0 under the id reported on alone, 3.0 with it beside the packet's own |
| `Layout.ReportLayout` | src/protocol/cmpp32.rs:118-190 | At which byte of the report each field stands, in both versions |
| `CmppDeliver.ReportedIdSurvivesIff` | src/protocol/cmpp32.rs:106-113 | The 22-digit id a report refers to reaches the other side if and only if each of its seven fields fits its bits |
| `CmppDeliver.ReadDeliver` | src/protocol/implements.rs:826-860 | Consuming the buffer field by field, of the header and of a report, yields the specified result, including panics on short buffers |
| `Reading.DeliverReads` | src/protocol/cmpp32.rs:462-494 | Any uplink packet with a whole header: each field is read from its own offset, and the text behind the length byte decides |
| `Reading.ReportReads` | src/protocol/implements.rs:826-860 | Any whole report: each field is read from its own offset |
| `Reading.DeliverHeadPanicsIff` | src/protocol/cmpp32.rs:462-480 | Which cut packets make the decoder panic, each string field taking its width only if it is all there |
| `CmppMsgId.IdRoundTrip` | src/protocol/implements.rs:973-1034 | Every 64-bit id prints as 22 digits that parse back to it |
| `CmppMsgId.StringRoundTripIff` | src/protocol/implements.rs:1072-1103 | A 22-digit string parses and prints back to itself if and only if its fields fit 4, 5, 5, 6, 6, 22 and 16 bits |
| `CmppMsgId.ParsedIdBits` | src/protocol/implements.rs:1072-1103 | What any string of at least 17 characters is packed to: its six numbers of 2, 2, 2, 2, 2 and 7 characters, masked behind the first, with what is pushed out at the top lost and the number left over or-ed in unmasked |
| `CmppMsgId.ParsesIff` | src/protocol/implements.rs:1072-1103 | A field is its number if it is digits alone, a plus sign in front allowed, and zero otherwise |
| `CmppMsgId.DigitAt` | src/protocol/implements.rs:973-1034 | Which decimal digit stands in each cell of a printed field |
| `CmppMsgId.WriteU64` | src/protocol/implements.rs:973-1034 | The digit loops fill all 22 cells with exactly the printed fields, and the cursor never moves below cell 0 |
| `CmppMsgId.CreatedIdPrints` | src/protocol/implements.rs:1106-1117 | A new id prints as its date and time, the 7-digit gateway id and the 5-digit sequence number |
| `CmppMsgId.CreatedIdBits` | src/protocol/implements.rs:1106-1117 | The bits of a new id from the highest: month, day, hour, minute, second, 22 of the gateway, 16 of the sequence number |
| `CmppMsgId.CreatedIdEnds` | src/protocol/implements.rs:1116-1116 | Whatever the clock says, the low 16 bits of a new id are those of its sequence number |
| `SmgpMsgId.PackLoop` | src/protocol/implements.rs:947-966 | The packing loop pairs the digits into nibbles, or panics exactly if a subtraction or addition leaves a byte's range |
| `SmgpMsgId.PacksIff` | src/protocol/implements.rs:947-966 | Packing does not panic exactly if no character is below '0' and every pair's sum, the first shifted within its byte, fits a byte |
| `SmgpMsgId.PackedAt` | src/protocol/implements.rs:947-966 | Each byte is the sum of its pair; an odd last character is left out |
| `SmgpMsgId.PrintsHex` | src/protocol/implements.rs:969-971 | Each byte prints as two hexadecimal digits with capital letters, the high half first |
| `SmgpMsgId.BufRoundTripIff` | src/protocol/implements.rs:947-971 | A buffer survives printing and packing if and only if both nibbles of every byte are decimal |
| `SmgpMsgId.StringRoundTripIff` | src/protocol/implements.rs:947-971 | Any string can be packed and prints back as it was if and only if it is an even number of decimal digits |
| `SmgpMsgId.CreateMsgId` | src/protocol/smgp.rs:710-737 | The three loops fill all ten bytes with the gateway's hexadecimal digits, the time and the sequence number |
| `SmgpMsgId.CreatedIdPrints` | src/protocol/smgp.rs:710-737 | The last 14 printed digits of a new id are MMDDHHMM and the sequence number modulo 10^6 |
| `SmgpMsgId.CreatedIdRoundTripIff` | src/protocol/smgp.rs:716-720 | A new id survives printing and packing if and only if every hexadecimal digit of the gateway id is at most 9 |
| `SmgpMsgId.GatewayTenDoesNotRoundTrip` | src/protocol/smgp.rs:716-720 | With gateway id 10 it does not |
| `SmgpTlv.CoderTlv` | src/protocol/smgp.rs:739-772 | The encoding loop writes the entries one after the other |
| `SmgpTlv.TlvLayout` | src/protocol/smgp.rs:739-772 | Tag and length in two bytes each, the high one first, then one byte or the bytes of the string |
| `SmgpTlv.DecodeTlvs` | src/protocol/smgp.rs:774-811 | The decoding loop terminates, never reads past the buffer and fills the requested entries in place as specified |
| `SmgpTlv.OneTurn` | src/protocol/smgp.rs:774-811 | One turn on any buffer: it ends with less than the length left; the value of an entry nobody asked for is not skipped; a one-byte entry takes one byte whatever its length; a byte string takes its length |
| `SmgpTlv.DecodeEncode` | src/protocol/smgp.rs:739-811 | When every encoded key is requested, decoding inverts encoding on scalar and slice values, except for an empty slice at the very end |
| `SmgpTlv.TrailingEmptySliceIsLost` | src/protocol/smgp.rs:775-776 | An empty slice at the very end is not read back: the loop wants five bytes |
| `SmgpTlv.SubmitTail` | src/protocol/smgp.rs:484-487 | For the tail a long submit really carries, asking for TPUdhi alone yields TPUdhi(1) for every total and number |
| `Sequence.Sequencer.GetSequenceId` | src/global.rs:138-144 | The allocator returns the counter and advances it by the step, zero counting as one, modulo 2^32 |
| `Sequence.RunOfSteps` | src/global.rs:138-144 | The i-th of n calls with one step gets the start plus i steps modulo 2^32, and leaves the start plus n steps |
| `Sequence.DisjointIffWithinPeriod` | src/global.rs:138-144 | A run of calls hands out pairwise disjoint blocks if and only if its steps, zero counted as one, add up to at most 2^32 |
| `Sequence.IdsDistinct` | src/global.rs:138-144 | Within one period no number is handed out twice |
| `LongSms.DeliveredIff` | src/entity/entity_running.rs:434-508 | Whatever the order of the parts, the message comes out at the last arrival, whole, and its entry is gone, if and only if its slot was not already filled by an unfinished message of as many parts |
| `LongSms.DeliveredAmongOthersIff` | src/entity/entity_running.rs:435-436 | The same when the arrivals are mixed with any traffic under other keys |
| `LongSms.OthersDoNotMatter` | src/entity/entity_running.rs:453-472 | Arrivals under one key meet the same fate among any others as alone |
| `LongSms.RunKeepsInvariant` | src/entity/entity_running.rs:434-508 | After any arrivals, duplicates, changes of total and expiries every cached vector has at least two slots, an empty one and a filled one, and every filled slot i holds the part numbered i+1 of a message of that key and total |
| `EntityRunning.EntityRunContext.HandleLongSms` | src/entity/entity_running.rs:434-508 | The method's result and the cache it leaves are the specified ones: ignored parts, new and reset vectors, the panic at part number 0, and the assembled message |
| `EntityRunning.EntityRunContext.ClearLongSmsCache` | src/entity/entity_running.rs:190-205 | The visit keeps exactly the entries none of whose parts has expired, unchanged |
| `Dispatch.SendOnce` | src/entity/entity_running.rs:568-636 | Every message is put into exactly one queue of a usable connection, or exactly one failure is published, never both; only ended connections are forgotten, and one buffer note is sent exactly if the entity has become full |
| `Dispatch.SafeSucceedsIff` | src/entity/entity_running.rs:571-624 | With no wrap, and no skipped connection followed, cyclically, by a writable one whose task has ended, sending succeeds if and only if some connection is usable |
| `Dispatch.TrapMisses` | src/entity/entity_running.rs:611-624 | Whenever the only ended connection follows a skipped one and only one is usable, some cursor far from wrapping misses it |
| `Dispatch.FailsIffMisses` | src/entity/entity_running.rs:571-624 | For any list and cursor without a wrap sending fails if and only if the looks that are left fall on skipped connections only, up to an ended one, and so on in the list one shorter from there |
| `Dispatch.AllWritableFailsIff` | src/entity/entity_running.rs:571-636 | With all connections writable sending fails, wrapping included, if and only if all are closed |
| `Dispatch.NoneClosedFailsIff` | src/entity/entity_running.rs:571-613 | With no writable connection ended sending fails if and only if the cursor, wrapping included, comes by no writable connection |
| `Dispatch.WrapCanMiss` | src/entity/entity_running.rs:572-575 | A wrapping cursor can jump over the only writable connection |
| `Dispatch.ForgettingCanMiss` | src/entity/entity_running.rs:611-624 | A skip followed by a removal can miss an open, writable connection |
| `Dispatch.RoundRobinFair` | src/entity/entity_running.rs:571-609 | After any c messages over n unchanged usable connections each has been given floor(c/n) or ceil(c/n) |
| `Entity.TryNext` | src/entity/entity_running.rs:620-624 | A round that does not send leaves at most one connection fewer and distinct ids, so the modulus is never zero |
| `Entity.WithoutOne` | src/entity/entity_running.rs:622-622 | As ids differ, forgetting a connection by its id removes just that one |
| `EntityRunning.EntityRunContext.SendToChannels` | src/entity/entity_running.rs:554-636 | The method leaves exactly the specified state: cursor, queues, connection list and count, buffer flag and published messages |
| `Dispatch.SendsSigned` | src/entity/entity_running.rs:555-564 | The message that ends in the one queue or the one failure has the entity's id, node and `sp_id`, its `service_id` if that is not empty, and every other field as it was |
| `EntityRunning.EntityRunContext.TryOne` | src/entity/entity_running.rs:571-631 | One round of the loop does exactly the specified round |
| `Receipts.InsertedSpec` | src/entity/entity_running.rs:407-432 | Each part with a message id gets an entry of its own: the message with that part's id as the account's, to be sent again only for the first part; no other entry changes |
| `Receipts.Correlated` | README.md:33 | For any sequence of responses, in any order, with repeats and strangers: the first with part k's number is published with exactly part k's account id beside the peer's own id, later ones as they came |
| `Receipts.MapReturns` | src/entity/entity_running.rs:230-254 | Once each part has been answered the receipt map is as it was before the submit |
| `Receipts.SubmitsKeepApart` | src/protocol/cmpp32.rs:409-411 | However the draws of several tasks interleave, within one period no submit's entries overwrite another's, each part keeping its own account id |
| `EntityRunning.EntityRunContext.InsertIntoWaitReceipt` | src/entity/entity_running.rs:407-432 | The loop leaves exactly the specified map, stopping where the message ids run out |
| `EntityRunning.EntityRunContext.HandleSubmitResp` | src/entity/entity_running.rs:230-259 | A response's effect: entry removed, sent again when limited, otherwise published with its account id after the buffer check |
| `EntityReads.ResponseIsPublished` | src/entity/entity_running.rs:230-259 | A normal submit response takes the entry under its number out and is published with that entry's account id and its own id as the passage's, every other field being its own; without an entry it goes as it came; nothing else changes but the full state, which ends with one report exactly if a connection has room again |
| `EntityReads.SlowResponseSendsAgain` | src/entity/entity_running.rs:233-237 | One that asks to slow down sends the stored message again and is not published |
| `EntityReads.WholeIsPublished` | src/entity/entity_running.rs:304-334 | A whole submit is published with its id as the only one listed, a whole uplink message as it is |
| `EntityReads.ReportIsPublished` | src/entity/entity_running.rs:296-303 | A report is published under the id it reports on if it came with one beside its own, else under its own |
| `EntityReads.ReceiptIsPublished` | src/entity/entity_running.rs:280-295 | An answer to an uplink message or a report takes the entry out and is published, the former with the id of the message it answers |
| `EntityReads.SentIsStored` | src/entity/entity_running.rs:260-278 | A message that waits for its receipt is stored under its numbers with the time it was read, and nothing else changes |
| `EntityReads.BouncedIsSent` | src/entity/entity_running.rs:315-320 | A submit bounced before it was written is sent again without its mark |
| `EntityReads.Joins` | src/entity/entity_running.rs:358-384 | A new connection joins at the end of the list with the queues left for it and the right to write it was given; the state is reported exactly if the count is then 1 |
| `EntityReads.Leaves` | src/entity/entity_running.rs:335-357 | A connection that has ended leaves the list, the others staying in order; the state is reported exactly if it was the last |
| `EntityReads.CloseTellsAll` | src/entity/entity_running.rs:511-552 | The order to close puts one Terminate behind what waits with priority on every open connection and reports the state |
| `EntityRunning.EntityRunContext.RecheckBuffers` | src/entity/entity_running.rs:239-249 | The loop ends the full state if and only if some connection is at or below the limit, and reports it once |
| `StateReports.StateIsTold` | src/entity/entity_running.rs:57-71 | In every run of the whole system with fewer than 255 connections, the last state reported is 0 if the entity has no connection, 2 if it is full and 1 otherwise, after every step |
| `StateReports.CountWraps` | src/entity/entity_running.rs:57-62 | With 256 connections a report says that there is none |
| `StateReports.BecomesFullIff` | src/entity/entity_running.rs:578-598 | Sending makes an entity full exactly if it is a passage with a cap, the connection chosen has more waiting than the cap, or it was full |
| `StateReports.StaysFullIff` | src/entity/entity_running.rs:239-249 | A normal response with a known number ends the full state exactly if some connection has no more waiting than the limit |
| `EntityRunning.EntityRunContext.HandleFromChannelRx` | src/entity/entity_running.rs:216-396 | Every branch leaves exactly the specified entity and store |
| `EntityRunning.EntityRunContext.HandleFromManagerRx` | src/entity/entity_running.rs:511-552 | Every order leaves exactly the specified entity |
| `EntityRunning.EntityRunContext.ReSendDue` | src/entity/entity_running.rs:19-44 | A key stays exactly if its entry has been there for no longer than its duration, 30 seconds if it has none, or may not be sent again, and then unchanged; all others are taken out and sent, each once, the last visited first |
| `Timers.ResendsExactlyOverdue` | src/entity/entity_running.rs:19-44 | In every run, a timer visit sends exactly the entries again that may be and were stored longer ago than their duration |
| `EntityRunning.EntityRunContext.ClearSendSmsCache` | src/entity/entity_running.rs:207-213 | The visit keeps exactly the entries that have not expired, unchanged |
| `Handoff.AlwaysOwned` | src/entity/as_custom.rs:115-128 | In every run, for any messages the entities receive: each pair of queues is in the store or with one entity, once; ids differ; and each connection count is the list length modulo 256 |
| `Handoff.StepOwned` | src/entity/entity_running.rs:335-384 | Every step keeps that, within one period of the number allocator |
| `Handoff.NewIdUnused` | src/entity/as_server.rs:192-194 | Within one period a newly drawn number is no connection's |
| `Handoff.LoginAttach` | src/entity/as_server.rs:181-209 | At the cap the login is refused and nothing changes; below it attaching leaves the pair in the store under the drawn number and makes the Connect message that carries it |
| `Channel.RateBound` | src/entity/channel.rs:217-248 | With a clock that does not run backwards, the messages written over a run carried in the queue at most as many ids as the limit times the seconds the run touches |
| `Channel.PacketBound` | src/entity/channel.rs:217-248 | If every queued message carries at least as many ids as the encoder makes packets of it, the packets written keep to the same bound |
| `Channel.KeepsToLimitIff` | src/entity/channel.rs:222-248 | Runs that queue one message again and again keep to every limit if and only if it carries at least as many ids as it is written as packets |
| `Channel.NoIdsNoLimit` | src/protocol/cmpp32.rs:303-304 | Any number of copies of a message queued without ids is written within one second, and the window stays as it was |
| `Channel.NeverOverLimit` | src/entity/channel.rs:226-230 | The count of a window never exceeds the limit |
| `Channel.AcceptsExactly` | src/entity/channel.rs:318-361 | Within one window exactly those submits are accepted that the entity takes and whose receipt, if there is one, is written and is for one of the first `limit` received |
| `Channel.AcceptsUpToLimitIff` | src/entity/channel.rs:318-361 | Within one window at most the first `limit` submits and those without a receipt are accepted, and all of these if and only if their receipts are written and the entity takes them; with receipts for all, that is min(received, limit) |
| `Channel.RxBound` | src/entity/channel.rs:318-361 | With a clock that does not run backwards, the submits accepted over a run are at most the limit times the seconds it touches, and those that came without a receipt |
| `Channel.AnswersExactly` | src/entity/channel.rs:318-361 | Within one window the receipts written are, in order, a refusal for each submit behind the first `limit` and success for every other packet |
| `Channel.ToldIsTaken` | src/entity/channel.rs:318-361 | Over any run whose receipts get through, the submits told success are as many as were taken, and the others read are told a refusal |
| `Channel.OtherPacketsGoOn` | src/entity/channel.rs:311-346 | Any packet but a submit is answered with success and goes on to the entity as it is, a Terminate with the connection's id |
| `Channel.QueueArm` | src/entity/channel.rs:217-310 | What every case of a queued message comes to, for the window and outside |
| `Channel.FullTakesNothing` | src/entity/channel.rs:217-217 | In a full window nothing is taken from the queues until the next second |
| `Channel.NewSecondSends` | src/entity/channel.rs:185-192 | In a later second a message as large as the whole limit is written, whatever the last one did |
| `Channel.NewSecondAccepts` | src/entity/channel.rs:185-192 | And a submit from the peer is taken and answered with success |
| `Channel.SilentPeer` | src/entity/channel.rs:194-212 | With nothing to send and a silent peer the first heartbeat goes out after 31 seconds, no other follows, and after 31 more the task gives up |
| `Channel.WaitsIff` | src/entity/channel.rs:194-212 | Over any run the task waits for a sign of life exactly while a heartbeat has gone out and no packet has come since |
| `Channel.GivesUpOnlyIf` | src/entity/channel.rs:194-201 | It gives up only then, and after more than 30 idle seconds |
| `Channel.HowItEnds` | src/entity/channel.rs:262-383 | A closed queue or a lost peer makes the task empty its queues, a bad packet ends it at once, and no good packet and no quiet second does |
| `Channel.ChannelTask.StartWork` | src/entity/channel.rs:185-383 | The loop over any events leaves exactly the specified window and effects; it returns at an unanswered heartbeat, a bad packet or a lost entity, and empties its queues when they are closed or the peer is gone |
| `Channel.ChannelTask.OnEntityMessage` | src/entity/channel.rs:217-310 | What a queued message comes to: bounced, sent, given to the failure topic or lost |
| `Channel.ChannelTask.OnPeerPacket` | src/entity/channel.rs:311-362 | What a packet of the peer comes to |
| `Channel.ChannelTask.Clear` | src/entity/channel.rs:497-516 | Both queues are closed and emptied, each message given to the failure topic once, in order |
| `Causality.MessagesConserved` | src/entity/channel.rs:217-310 | In every run of the whole system, also when the entity's task panics or is closed, each accepted submit, uplink message and report is somewhere: a queue, the mailbox, a task's hand, the receipts, or answered, failed, lost, expired, or dropped with its task; in at most one place more than the times it was queued again for a slow-down answer about a later part; a submit of one part, an uplink message and a report always in exactly one |
| `Causality.AnswersCarryTheirPart` | README.md:33 | In every run, whatever the peers answer, the entity publishes a normal submit response once; if its number is in the receipt map and was drawn for a submit, with the message id of exactly the part it was drawn for beside the peer's own id; if it is not in the map, as it came |
| `Causality.UplinkAnswersCarryTheirId` | README.md:52 | In every run the answer to an uplink message is published once, with the id of exactly the message its number was drawn for |
| `Causality.AnswerMissesOnlyWhatEnded` | src/entity/channel.rs:240-255 | In every run whose peers answer only what they were sent, a response of any kind whose number is not in the receipt map is about a part without a message id, or about an entry that was there before and was answered, sent again or expired |
| `Books.MissesOnlyWhatWasTakenOut` | src/entity/entity_running.rs:19-44 | In every such run, of a part with a message id: there was an entry under its number at some point of the run, and some step of the run that handles an answer, sends again or expires took it out |
| `Books.RunBooks` | src/entity/entity_running.rs:216-396 | Over any run the numbers recorded as answered, sent again and expired are exactly those some step of that kind took out of the receipt map |
| `Books.TakeEnds` | src/entity/channel.rs:217-310 | Which queued messages fail or are lost: written in vain from the priority queue, or not encodable, written in vain from the common queue, or without an entity to go back to |
| `Books.EndsOfQueues` | src/entity/channel.rs:497-516 | A task that clears its queues gives everything they hold to the failure topic, in order; one that ends otherwise drops it |
| `Books.EndedTask` | src/entity/channel.rs:497-516 | Either way its queues are closed and empty |
| `Books.HandleEnds` | src/entity/entity_running.rs:230-295 | An answer ends the entry under its number, a slow-down answer excepted |
| `Books.ExpireEnds` | src/entity/entity_running.rs:207-213 | Exactly the entries that old expire |
| `Gateway.ReadOrder` | src/entity/channel.rs:215-265 | A message put into a connection's queues is read next only if nothing waits, or if it has priority and no other priority message waits |
| `Causality.StepCausal` | src/entity/entity_running.rs:172-186 | Every step keeps the record of a sent message ahead of every answer to it in the mailbox |
| `Causality.ReadCausal` | src/entity/channel.rs:343-343 | What a task reads with nothing in its hand has its record ahead of it |
| `Conservation.StepInPlace` | src/entity/entity_running.rs:216-396 | Every step keeps each accepted message in at least one place and in no more than it was doubled |
| `Conservation.OnePlaceStaysIff` | src/entity/entity_running.rs:233-237 | A message in one place stays in one place through every step, except exactly where the entity comes to a slow-down answer about one of its later parts |
| `Doubling.TwoPlaces` | src/entity/entity_running.rs:233-237 | From every start a run leads to an accepted message in two places |
| `Conservation.NumberTracked` | src/entity/entity_running.rs:407-432 | What is stored under the number of a part is the entry of that message, and it may be sent again if and only if the part is the first |
| `GatewayInvariant.StepFormed` | src/entity/entity_running.rs:216-396 | Every step keeps each message on its way tied to the numbers drawn for its parts, and each entry of a submit to its own part's id |
| `EntityCounts.FromChannelCounts` | src/entity/entity_running.rs:216-396 | Whatever the entity receives, no copy is lost; one is added exactly by a slow-down answer to an entry that is no copy, and two become one exactly where a returned message finds its own entry |
| `EntityCounts.BouncedUplinkIsEchoed` | src/entity/entity_running.rs:305-314 | An uplink message that carries ids and is bounced before it was sent is published to the business side as if the peer had sent it, and no copy is left |
| `Counting.SendCounts` | src/entity/entity_running.rs:554-636 | Sending adds exactly one copy, to a queue or to the failure topic |

## Left out

- GBK (format 15): its tables are not part of this model; the format is an error here.
- Content of 2^24 encoded bytes or more: binary32 no longer holds the length.
- Missing JSON fields: the encoders' early error returns and log lines; requests here have their fields.
- `sp_id` shorter than six bytes, ids to report on of 1 to 16 characters, and slicing a string inside a character: the code panics there.
- Arithmetic overflow: treated as a panic, as in a debug build.
- EndToEnd.SubmitEndToEndIff: packets longer than the codec's frame limit of 8 MB, which takes hundreds of thousands of destinations, are outside it and the other end-to-end theorems.
- EndToEnd.ShortSubmitEndToEnd: at most 255 destinations; beyond, `CmppSubmit.ManyDestinationsHideContent` says that the text has no influence on what arrives.
- EndToEnd.SubmitFaithful: at most 255 destinations, for the same reason.
- CmppSubmit.SubmitRoundTrip: at most 255 destinations; `CmppSubmit.AnyCountDecodes` has no such limit.
- Connection and status packets of CMPP (connect, responses, active test, terminate): their layouts are fixed and easy.
- The 24-byte report response that CMPP 2.0 inherits and reads back with a one-byte result.
- SGIP and SMPP: their splitters repeat CMPP's, and SGIP's id printer and parser do not match.
- SMGP packets apart from ids and optional fields: the declared length of its report is wrong, its uplink numbers are pushed twice, and its destination list is not stored.
- SmgpTlv.DecodeEncode: entries whose keys were not requested are excluded, as the code does not consume their values.
- CmppDeliver.EncodeDeliver: `create_cmpp_msg_id` reads the clock, so what each call makes of its number is a parameter; `CmppDeliver.PartIdsDistinct` fills it in.
- CmppSubmit.EncodeSubmit: the counter is read and advanced without other tasks in between; `Receipts.SubmitsKeepApart` is about interleaved draws. Contents of 2^24 bytes or more are excluded.
- The parsing half of the CMPP id is read by functions rather than by in-place steps.
- Interleaved messages with the same source, destination and total: the key ignores the header's reference, and `LongSms.DeliveredIff` states what that costs.
- The doubling of a resend's waiting time: it is written to an entry that is dropped.
- Capacity and liveness of queues and mailboxes: queues hold 2^32 - 1 messages.
- Dispatch.SafeSucceedsIff: its condition is sufficient; that it cannot be dropped is shown for lists with one ended and one usable connection, and `Dispatch.FailsIffMisses` is exact for all lists and cursors.
- Channel.RateBound: bounds the ids the messages carry while queued; the ids and packets the encoder makes of them are bounded only as `Channel.PacketBound` and `Channel.KeepsToLimitIff` say.
- Causality.MessagesConserved: the manager hands over each message once, with `msg_ids` for submits only as README.md shows (what becomes of a bounced uplink message with ids is `EntityCounts.BouncedUplinkIsEchoed`), and packet numbers are fresh. A message in a queue, mailbox or receipt map whose task has ended stays counted there.
- Causality.AnswerMissesOnlyWhatEnded: a peer answers only numbers it was sent on that connection; the other two theorems about answers have no such condition.
- StateReports.StateIsTold: fewer than 255 connections at every step; `StateReports.CountWraps` shows what happens at 256.
- Timers.ResendsExactlyOverdue: says what a visit does; that the timer ticks is the runtime's business.
- Reading.SubmitReads: packets with a whole header; of cut ones `Reading.SubmitHeadPanicsIff` says which are read at all.
- Handoff.AlwaysOwned: covers runs that draw fewer than 2^32 numbers.
- Kafka, sockets, logging, configuration, login checks, the entity manager and its tables: input and output, or easy case splits.
