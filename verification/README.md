# Verified model of a body-sensor data path

The repository carries readings from a serial data logger to a server in three programs:

* `SerialComm/new_serial.c` reads framed records from the serial port, checks a 16-bit CRC on each frame, answers
  `*` or `&`, and prints the accepted record characters on standard output and into two files;
* `Sender/session.c` reads that output, cuts it into batches and frames, and transfers every batch to a server by
  hello, handshake, data and finish packets, each resent by a timer until its reply comes;
* `WatchDog/cems.c` polls the wireless link and reboots the board when it has been down too long.

This project states what the three do and proves it with Dafny 4.11 (`dafny verify dfyconfig.toml`). The code that
updates flags, counters and buffers in place is modelled by classes and methods with the same fields, branches and
loops; each method is proved against a specification function, and the properties below are proved about those
functions, for every stream of input and every run.

## The serial receiver

| module | content |
|---|---|
| `Bytes`, `Wrappers`, `Sequences` | unsigned bytes; an optional value; facts about concatenation |
| `Crc` | the loops of `calc_crc` on a 32-bit register, their specification, linearity, the table-driven form, the residue |
| `ErrorDetection` | when a transmission error escapes the check; bursts; odd numbers of flipped bits |
| `CodeDistance` | the order of the shift step is exactly 32767, so every error of one, two or three bits is detected |
| `CrcStandard` | start value, residue and published check value in plain numbers; what the start value buys |
| `FrameMachine` | the receive loop as a machine over four phases: idle, length, payload, check |
| `Upload` | `upload_data` with its flags, counters and three arrays; each pass is one step of that machine |
| `Monitor` | the two re-entry guards around a call |
| `ReceiverSafety` | what holds after every stream of reads, well formed or not |
| `Framing` | what one frame does to the receiver, however its bytes are spaced; prompts and four hashes |
| `Streams` | what any list of frames does, good or refused, with or without end marks |
| `EndMarks` | over every stream: where the end mark comes from, what it does to the record, what a lost answer changes |
| `Damage` | frames damaged behind their length byte |
| `Prompts` | a prompt inside a frame: the payload begins again behind it |
| `Provenance` | every frame received was on the line |
| `History` | which reads make up a judged frame, which hashes count, when the line mark is set, how calls end, patience |
| `Whitelist` | which characters of a record are written, and that records of those characters arrive letter for letter |

A frame is `$`, a length L, L - 2 payload bytes and two check bytes, low first. A byte is unsigned, as `char` is on the
ARM board the program is written for. One pass of the loop consumes one event: a failed read, or a byte (0 when the
read timed out) together with whether a write made in that pass succeeds. A store beyond the end of a buffer, which C
leaves undefined, ends the modelled call with `Fault`, and `ReceiverSafety.FaultIff` says exactly when that happens:
on the 999th payload byte of a frame whose length byte is 1 or 2, or when an accepted payload does not fit behind the
characters still pending. The three places where the code keeps the same record characters (standard output and two
files) are one sequence, `file`.

The conditions under which a payload arrives verbatim are those the code imposes: it holds no NUL, `$` or `?`
(`AllStorable`), the frame holds no run of four `#`, and at most 1000 characters are pending (`Fits`).

An `E` outside length and check bytes sets a mark that nothing clears, before the check of its frame is known. The first
good frame at or after it, whether or not it holds an `E` itself, is acknowledged and ends the call, and the record then
pending is written nowhere. `EndMarks.EndedIff`, `EndMarks.EndOfRecordIff` and `Streams.MetIs` say this exactly, for
every stream and for every list of frames; an `E` in a frame that was refused, or between frames, has the same effect as
one in a good frame.

The comment at `SerialComm/new_serial.c:694-696` speaks of two `#`; the code counts four, and so does the model.

## The sender

| module | content |
|---|---|
| `Packets` | packet layouts, and that every field survives its bytes |
| `Exchange` | one session as a script of packets and the replies they wait for; segmentation of a batch |
| `WireFormat` | the datagrams of a session and the replies it waits for, byte by byte and in plain numbers |
| `Session` | the packet builders, the timers and the phases of `session_handle`, with the 16- and 32-bit counters |
| `Protocol` | the sender against a channel that loses, repeats and reorders in both directions |
| `Recovery` | why resending is enough to get a session to its end |
| `Succession` | one session after another over the same channel |
| `Batching` | `fgets`, `strlen` and the filling of the session buffer |
| `Records` | where a read ends, and that no record is split between two sessions |
| `Transfer` | the outer loops: fill, send as one session, clear, go on |
| `EndToEnd` | receiver and sender together |

The server is not in the repository. `Protocol.Accept` is the assumption made about it: it appends a data packet
only when its sequence number is the one expected next, and answers every data packet with the number expected; it
answers every handshake with a handshake ack and every finish with a finish ack, and neither changes what it expects or
has appended. A receive returns a packet of at least seven bytes, `WirelessDown` or `ServerCrash`.

At the start of a session and all through it, packets of earlier sessions may arrive at the server, as long as they are
not data packets: the finish packet of a finished session is resent for ever, because its timer is never cancelled
(`Sender/session.c:411`; `Transfer.TransferAll` and `Succession.LeftTimersCarryNoData` show that nothing else is left).
Replies of earlier sessions may also be in the channel, and `Protocol.CompleteIff` says exactly which of them do harm:
sessions all have number 1 and the ack test ignores that number, so an old ack that carries the number of this
session's last frame is taken for the real one. `Succession.NextIsSafeIff` says when a row of earlier sessions can leave
such an ack: exactly when one of them had at least as many packets. Two full batches in a row are such a case.

A call whose events run out before it returns is `Blocked`. The input of the sender is a list of bursts, each followed
by an end of file, after which reading may go on.

`learn_new_port` has no return statement on its success path; the model takes that path as returning success.

## The watchdog

`Watchdog` models the two counters of `main` and `onLinkBreakage`, with the results of the link test and of the scan
for the access point as inputs and the reboot as the exit of the loop.

## Model

| member | source | states |
|---|---|---|
| `Crc.CalcCrc` | SerialComm/new_serial.c:165-181 | the nested loops on the 32-bit `unsigned int` give the inverted result of the table-driven computation started at 0xFFFF, and never more than 0xFFFF |
| `Crc.CalcByte` | SerialComm/new_serial.c:172-177 | the inner loop takes the register to its value after one more byte |
| `Crc.RegisterLinear` | SerialComm/new_serial.c:170-179 | flipping input bits changes the register by exactly what the flips alone would produce |
| `Crc.TurnsInjective` | SerialComm/new_serial.c:173-177 | any number of shift steps keeps different registers different |
| `Crc.BitwiseIsTableDriven` | SerialComm/new_serial.c:170-179 | for every byte string the bitwise loop equals the table-driven FCS of section C.2 of RFC 1662 |
| `Crc.TableAsPublished` | SerialComm/new_serial.c:175 | the table is linear and its single-bit entries are the published ones, which fixes all 256 |
| `Crc.AcceptIffGoodFcs` | SerialComm/new_serial.c:705-717 | the comparison of the low and the high byte succeeds exactly when the register run over message and received check bytes ends at 0xF0B8 |
| `CrcStandard.AcceptedByTheStandard` | SerialComm/new_serial.c:705-717 | a frame is accepted exactly when the computation of section C.2 of RFC 1662, started at 0xFFFF and run over message and check bytes, ends at 0xF0B8 |
| `CrcStandard.ChecksumByTheStandard` | SerialComm/new_serial.c:165-181 | the checksum of every message is the inverted result of that computation |
| `CrcStandard.CheckValue` | SerialComm/new_serial.c:165-181 | the checksum of "123456789" is the published 0x906E |
| `CrcStandard.StartReturns` | SerialComm/new_serial.c:166-177 | the start value 0xFFFF returns after multiples of 32767 shift steps and at no other time |
| `CrcStandard.LeadingZerosAreSeen` | SerialComm/new_serial.c:166-179 | zero bytes put before a message leave its checksum unchanged if and only if their bits are a multiple of 32767; a register started at 0 would never see them |
| `ErrorDetection.RegisterIsRunBits` | SerialComm/new_serial.c:170-179 | the byte-wise loop reads its message as one stream of bits, low bit first |
| `ErrorDetection.EscapesIff` | SerialComm/new_serial.c:705-717 | an error in an accepted frame goes unnoticed exactly when the flipped bits alone bring a zero register back to zero |
| `ErrorDetection.BurstDetected` | SerialComm/new_serial.c:165-181 | every error confined to 16 consecutive bits is refused, at any position and for any length |
| `ErrorDetection.OddErrorDetected` | SerialComm/new_serial.c:165-181 | every error that flips an odd number of bits is refused |
| `CodeDistance.SquareTurns` | SerialComm/new_serial.c:173-177 | squaring the register as a polynomial doubles the number of shift steps taken |
| `CodeDistance.OrderExact` | SerialComm/new_serial.c:173-177 | the shift step returns the register to its start after multiples of 32767 turns and at no other time |
| `CodeDistance.DoubleErrorEscapesIff` | SerialComm/new_serial.c:705-717 | two flipped bits go unnoticed exactly when they lie a multiple of 32767 bits apart |
| `CodeDistance.UpToThreeDetected` | SerialComm/new_serial.c:705-717 | one, two or three flipped bits are refused in every frame of up to 4095 bytes; the link's longest has 257 |
| `CodeDistance.FourBitsEscape` | SerialComm/new_serial.c:705-717 | three is the limit: in every frame some four bits can be flipped without notice |
| `CodeDistance.BurstOf17Escapes` | SerialComm/new_serial.c:705-717 | sixteen is the limit for bursts: in every frame some error confined to 17 bits goes unnoticed |
| `Upload.Call.constructor` | SerialComm/new_serial.c:520-542 | the initial locals are the start state of the phase machine |
| `Upload.Call.Loop` | SerialComm/new_serial.c:568-776 | the whole receive loop is a run of the phase machine over the events it used, and it stops at the first pass that ends the call |
| `Upload.Call.Pass` | SerialComm/new_serial.c:570-775 | one pass over flags, counters and buffers keeps the control-state invariant and is one step of the phase machine |
| `Upload.Call.Receive` | SerialComm/new_serial.c:589-607 | idle reads are skipped outside the check, the fourth `#` in a row ends the call |
| `Upload.Call.InFrame` | SerialComm/new_serial.c:609-684 | the order of the tests for prompt, start of frame, length and content |
| `Upload.Call.AnswerPrompt` | SerialComm/new_serial.c:609-623 | a prompt is answered `U` and restarts the payload in progress; a failed answer ends the call |
| `Upload.Call.OpenFrame` | SerialComm/new_serial.c:626-634 | `$` opens a frame between frames and changes nothing inside a payload |
| `Upload.Call.TakeLength` | SerialComm/new_serial.c:636-645 | the byte after `$` is the length, and an empty payload begins |
| `Upload.Call.Content` | SerialComm/new_serial.c:648-684 | what a byte of payload or check does, with the end and line marks it sets |
| `Upload.Call.StorePayload` | SerialComm/new_serial.c:659-669 | the byte is appended to the payload, and the check begins at length - 2 bytes |
| `Upload.Call.TakeCheck` | SerialComm/new_serial.c:672-684 | the first check byte is kept, the second one brings the verdict on the frame held in the buffers |
| `Upload.Call.Verdict` | SerialComm/new_serial.c:701-774 | a frame is granted when its check matches and refused otherwise |
| `Upload.Call.Compare` | SerialComm/new_serial.c:705-717 | true exactly when both received bytes are those of the computed checksum |
| `Upload.Call.AcceptFrame` | SerialComm/new_serial.c:717-760 | a good frame is answered `*`, clears the count of `#`, and its payload is kept or written |
| `Upload.Call.KeepPayload` | SerialComm/new_serial.c:728-760 | the payload follows what is pending; a line mark writes everything, an end mark ends the call instead |
| `Upload.Call.Accept` | SerialComm/new_serial.c:728-735 | the pending buffer becomes its old content followed by the payload, although the loop wipes the frame buffer as it goes |
| `Upload.Call.Flush` | SerialComm/new_serial.c:741-752 | the pending characters of the whitelist are written, in order; `Whitelist` says which these are |
| `Whitelist.ListedIff` | SerialComm/new_serial.c:742-747 | the characters let through are the digits, both alphabets, `-`, `.`, `/`, `{`, `}`, the vertical bar, tab and newline, and no others |
| `Whitelist.ListedIsKept` | SerialComm/new_serial.c:741-752 | a record of such characters is written as it is |
| `Whitelist.ListedIsCounted` | SerialComm/new_serial.c:741-752 | of any record, each such character is written as often as it occurs, and no other ever |
| `Whitelist.ListedIsInOrder` | SerialComm/new_serial.c:741-752 | in the order in which they came |
| `Whitelist.RecordsArrive` | SerialComm/new_serial.c:626-752 | encoded frames of such characters arrive letter for letter: written and pending data grow by exactly their payloads, each answered `*` |
| `Upload.Call.RefuseFrame` | SerialComm/new_serial.c:762-773 | a bad frame is answered `&`, and pending data and files stay as they were |
| `Monitor.Port.UploadData` | SerialComm/new_serial.c:544-548 | a nested call reads and writes nothing; an admitted one makes the run of the machine and frees the guard on every exit, an overrun aside |
| `Monitor.Port.OnTimer` | SerialComm/new_serial.c:342-373 | the handler does nothing while an upload is going on, nothing lasting while the guard is taken, and releases its flag when the call returns |
| `ReceiverSafety.OutputConserved` | SerialComm/new_serial.c:728-756 | after every stream of reads, what was written plus the filtered pending data is the filtered concatenation of all accepted payloads, wherever flushes fell |
| `ReceiverSafety.ReachableControlled` | SerialComm/new_serial.c:626-684 | in every reachable state counts, lengths and contents agree: a payload in progress is shorter than length - 2, a frame under check has exactly that many bytes, none of them NUL, `$` or `?`, and every frame judged is complete |
| `ReceiverSafety.FaultIff` | SerialComm/new_serial.c:660-731 | a pass overruns a buffer exactly on the 999th byte of a frame of length 1 or 2, or on an accepted payload that does not fit, unless its byte is the fourth `#` in a row |
| `ReceiverSafety.StoppedStays` | SerialComm/new_serial.c:570-604 | once the call has ended, further events change nothing |
| `ReceiverSafety.PromptTimeout` | SerialComm/new_serial.c:579-587 | without a `?` among the first 25 reads, idle ones counted, the call is over after read 26 |
| `Framing.FrameDelivered` | SerialComm/new_serial.c:626-774 | one admissible frame, with any idle reads between its bytes but not before a check byte, has exactly the effect of its verdict |
| `Framing.FrameEffect` | SerialComm/new_serial.c:648-774 | that effect, with or without end and line marks in the frame or before it: answer, pending data, files, marks, end of the call, and overrun exactly when the payload does not fit |
| `Framing.EndsIff` | SerialComm/new_serial.c:648-760 | a good frame that fits ends the call exactly when an end mark lies in it or before it |
| `Streams.StreamDelivered` | SerialComm/new_serial.c:570-775 | for every list of good and bad frames, with end marks anywhere and answers lost: the frames met in order, one answer each in order, files and pending data by a ledger, end of the call or between frames again; overrun exactly when the good payloads do not fit |
| `Streams.MetIs` | SerialComm/new_serial.c:648-760 | the frames met are all of them, or those up to the first good one at or after the first end mark |
| `Streams.BookedConserves` | SerialComm/new_serial.c:728-756 | what the ledger has written and what it has pending, together, grow by the good payloads met and nothing else |
| `Streams.EndWritesNothing` | SerialComm/new_serial.c:738-760 | the frame that ends the call adds its payload to what is pending and writes nothing, whatever comes behind it |
| `Streams.MixedStream` | SerialComm/new_serial.c:717-774 | accepted data and output grow by the payloads of the good frames met and nothing else, with or without end marks |
| `Streams.RoundTrip` | SerialComm/new_serial.c:626-751 | frames encoded with the right check and without end marks arrive as the concatenation of their payloads, one `*` each |
| `Framing.PromptOpens` | SerialComm/new_serial.c:579-623 | a `?` after fewer than 25 idle reads is answered and leaves the receiver between frames |
| `Prompts.PromptRestarts` | SerialComm/new_serial.c:609-623 | a frame whose payload prompts cut off any number of times, too few bytes before each, is received as if nothing stood between its length byte and the payload behind the last prompt |
| `Prompts.PromptedFrame` | SerialComm/new_serial.c:609-774 | in terms of the line: the log gains exactly that frame, and the answers are one `U` for each prompt and then its verdict |
| `Framing.EndPacketIsNotWritten` | SerialComm/new_serial.c:738-760 | it is then acknowledged, and the record stays pending and unwritten |
| `Damage.RefusedIff` | SerialComm/new_serial.c:589-773 | a frame hit behind its length byte by a burst of up to 16 bits, an odd number of bit flips or two of them, and without four `#` in a row: nothing is kept; it is answered `&` and the receiver is between frames again if and only if every damaged payload byte is one the receiver stores; otherwise there is no verdict by its last byte |
| `Damage.NotStoredNotJudged` | SerialComm/new_serial.c:589-684 | a frame whose payload holds a NUL, `$` or `?` gets no verdict by its last byte, and data and files stay as they were |
| `EndMarks.EndedIff` | SerialComm/new_serial.c:648-652 | over every stream of reads, the end mark is set exactly when an `E` was taken between frames or as payload, in an accepted frame or not |
| `EndMarks.EndOfRecordIff` | SerialComm/new_serial.c:738-760 | over every stream of reads, the call ends at an end of record exactly when a good frame that fits is completed with the mark set, and its record is written nowhere |
| `EndMarks.LostAnswersChangeNothingElse` | SerialComm/new_serial.c:720-768 | whichever answers to frames fail to be written, accepted, pending and written data and the end of the call are the same |
| `Framing.DiscardedAfterFourHashes` | SerialComm/new_serial.c:594-607 | a record is thrown away only when four `#` in a row, idle reads aside, have been read |
| `Framing.FourHashesDiscard` | SerialComm/new_serial.c:594-604 | four `#` between frames throw the pending record away and end the call |
| `Provenance.FramesWereReceived` | SerialComm/new_serial.c:626-684 | for every stream of reads, the frames received, written out one after another, are a subsequence of the bytes read |
| `History.PhaseStep` | SerialComm/new_serial.c:609-684 | what each byte does to the frame under way, in plain numbers |
| `History.JudgedIsWhatWasRead` | SerialComm/new_serial.c:609-705 | over every stream of reads, a frame is judged when its second check byte is read, and its payload is exactly the storable bytes since the last `?` inside it, or since its length byte |
| `History.EndsBecause` | SerialComm/new_serial.c:572-623 | a failed read, a read after 25 without a prompt, a fourth `#` and an unanswerable prompt end the call, each with its own outcome and only they do |
| `History.HashesAreCounted` | SerialComm/new_serial.c:594-607 | over every stream, the count of `#` is the number of them at the end of the bytes noticed since the last good frame |
| `History.DiscardedIff` | SerialComm/new_serial.c:594-607 | a record is thrown away exactly at the fourth `#` in a row, idle reads aside, since the last good frame |
| `History.LineMarkIff` | SerialComm/new_serial.c:654-657 | the line mark is set exactly when a newline or carriage return that is no length byte was taken and nothing written since |
| `History.LineStep` | SerialComm/new_serial.c:738-752 | a pass writes the filtered pending record exactly when it completes a good frame that fits, without end mark and with a line mark; otherwise it writes nothing |
| `History.PatienceIsTheOnlyDifference` | SerialComm/new_serial.c:579-587 | within the first 25 reads a call without its prompt treats every byte like one that has had it |
| `Packets.LayoutRoundTrip` | Sender/session.h:72-108 | for all field values, decoding the packed bytes of each packet gives the packet back, and its size is 17, 17, 11 + length, 7 or 7 |
| `WireFormat.ScriptByBytes` | Sender/session.c:85-124 | every packet of every session has type, session id, count or length, number, port, name and data at their offsets, little-endian; frame k carries the bytes of the batch from 500 k on |
| `WireFormat.ReplyByBytes` | Sender/session.c:302-410 | the reply awaited is type 4 after the handshake, type 6 asking for frame n after frame n - 1, type 8 after the finish |
| `Exchange.Segmentation` | Sender/session.c:99-112 | the first k frames are exactly the first 500 k bytes of the batch, and all frames the whole batch |
| `Exchange.CountBounds` | Sender/session.c:538-544 | the number of frames is enough for the batch and no frame is empty |
| `Exchange.ReachedIff` | Sender/session.c:335-374 | a session has taken k replies exactly when the events hold, in order and before any crash, the handshake ack, the data acks 1, 2, ... and the finish ack up to the k-th |
| `Exchange.PassedWereReplied` | Sender/session.c:343-366 | every reply counted was received, at the positions named, in script order |
| `Exchange.RepliedArePassed` | Sender/session.c:343-366 | replies received in script order are all counted |
| `Session.Connection.BuildHelloRequest` | Sender/session.c:71-82 | the 17 bytes of the hello: type 1, session id, port 0, name padded with zeros |
| `Session.Connection.BuildHandshake` | Sender/session.c:85-96 | the 17 bytes of the handshake struct, with the number of packets |
| `Session.Connection.BuildData` | Sender/session.c:99-112 | the packet of the frame whose number is next, field by field at its offset, read inside the batch only |
| `Session.Connection.BuildFinish` | Sender/session.c:115-124 | the 7 bytes of the finish |
| `Session.Connection.SendPacket` | Sender/session.c:149-164 | one datagram sent and one new timer that resends it |
| `Session.Connection.ReceivePacket` | Sender/session.c:167-193 | one wait, made with the timers then running, and the next event |
| `Session.Connection.DeleteTask` | Sender/timer.c:39-47 | only a running timer is cancelled, so none twice |
| `Session.Connection.LearnNewPort` | Sender/session.c:199-249 | the first hello response gives the port, a crash gives -1, everything else is skipped; at each wait, the one it may be stuck in included, exactly one timer of its own resends the hello, and none is left on return |
| `Session.Connection.AwaitPort` | Sender/session.c:222-248 | the receive loop of the hello: type 2 gives the port, everything else is skipped |
| `Session.Connection.DoHandshake` | Sender/session.c:277-319 | returns on the first handshake ack or crash; at each wait exactly one timer of its own resends the handshake, and none is left on return |
| `Session.Connection.SendFrame` | Sender/session.c:337-374 | one data packet goes out, its own timer resends it at each wait and is gone on return, and the counters move on exactly when its ack comes |
| `Session.Connection.AwaitAck` | Sender/session.c:342-373 | only the ack that asks for the next frame is taken; at each wait exactly one timer of its own resends the frame |
| `Session.Connection.AwaitNumber` | Sender/session.c:342-350 | everything before that ack or a crash is skipped |
| `Session.Connection.TakeAck` | Sender/session.c:354-361 | in 16 and 32 bits the counters stay those of the next frame, the wrap of the byte count after a short last frame is never used, and the timer is cancelled |
| `Session.Connection.SendData` | Sender/session.c:322-377 | the frames sent are the batch's frames up to the one still unacked; 0 exactly when all are acked; one wait for each event, with exactly one own timer, for the frame then outstanding, and none left on return |
| `Session.Connection.DoFinish` | Sender/session.c:380-428 | returns on the finish ack or a crash, with one own timer at each wait; after the ack that timer keeps running |
| `Session.Connection.AwaitFinishAck` | Sender/session.c:404-423 | the receive loop of the finish, and its timer at each wait |
| `Session.Connection.Handle` | Sender/session.c:439-463 | sent is the script up to the packet whose reply is awaited, so no finish before the last ack; 0 exactly when every reply came, -1 exactly on a crash; one wait for each event and one more if blocked, each with exactly one own timer, which resends the packet then due; none left after a crash, the finish's after success; everything it adds to what was sent has its fields where `WireFormat` says |
| `Protocol.AcceptGenuine` | Sender/session.c:335-374 | the assumed server takes from a genuine packet the frame it expects or nothing, and acks the number it expects next |
| `Protocol.ActKeeps` | Sender/session.c:129-374 | every step of sender, timer, channel and server keeps the protocol's invariants |
| `Protocol.AcceptOther` | Sender/session.c:411 | a packet without data, such as an old finish, advances nothing at the server and draws no ack |
| `Protocol.PrefixDelivered` | Sender/session.c:335-374 | over every interleaving, whatever old replies and old packets without data are in the channel, only a prefix of the batch is delivered |
| `Protocol.Safety` | Sender/session.c:335-374 | without old acks: next frame number <= expected <= next frame number + 1, and all acked means the whole batch delivered once and in order |
| `Protocol.StaleHarmless` | Sender/session.c:349-350 | old acks that do not carry the last frame's number cannot complete a session early |
| `Protocol.StaleHarmful` | Sender/session.c:349-350 | an old ack that carries it can: a run in which all frames count as acked and the last was never delivered |
| `Protocol.CompleteIff` | Sender/session.c:335-374 | a complete exchange means a complete delivery on every run if and only if no such old ack is in the channel, old finishes being resent at any time |
| `Protocol.SenderFollows` | Sender/session.c:335-374 | the sender in the channel model is the sender of the code on the events it receives |
| `Protocol.SuccessDelivers` | Sender/session.c:439-463 | a session whose events make it return 0 has delivered its batch, unless such an old ack was in its channel |
| `Recovery.CanFinish` | Sender/session.c:129-140 | from every state reached without a crash, over a channel without old acks, resends, deliveries and replies alone complete the session and deliver its batch: nothing lost has to come back |
| `Succession.LeftWithin` | Sender/session.c:349-350 | the acks left by a row of sessions carry no number above the largest packet count among them |
| `Succession.LongestYetDelivers` | Sender/session.c:335-374 | a session with more packets than every earlier one delivers its batch when its frames count as acked, whatever those left in the channel |
| `Succession.NoLongerIsFooled` | Sender/session.c:349-350 | after a successful session of at least as many packets there is a run in which the next counts as acked without its last frame |
| `Succession.NextIsSafeIff` | Sender/session.c:503-557 | a session is safe from the acks of a row of successful ones if and only if it has more packets than each of them |
| `Succession.LeftTimersCarryNoData` | Sender/session.c:411 | timers that finished sessions leave running resend no data |
| `Batching.FillBounds` | Sender/session.c:506-522 | a filling stays within 10198 characters and 21 packets, and stops below 10000 only at an end of file |
| `Batching.FillConserves` | Sender/session.c:508-510 | the buffer gains exactly the characters read if and only if none of them is a NUL |
| `Records.LineIs` | Sender/session.c:508 | one read takes the input through its first line end, or 199 characters of it, or all there is |
| `Records.FillStopsAtOnce` | Sender/session.c:506-522 | a filling stops at the first line end at which it holds 10000 characters or more |
| `Records.BatchesEndLines` | Sender/session.c:503-556 | with lines of at most 199 characters and no NUL, every batch of a burst but its last ends in a line end, and the last too if the burst does: no record is split between two sessions |
| `Batching.CutConserves` | Sender/session.c:503-556 | the batches of one burst are sendable and add up to it if and only if it holds no NUL |
| `Batching.BatchesConserve` | Sender/session.c:503-556 | the same for all input: nothing lost, repeated or moved exactly when it is free of NULs |
| `Batching.Buffer.constructor` | Sender/session.c:499-501 | the buffer starts as the empty string |
| `Batching.Buffer.Fgets` | Sender/session.c:508 | one line, or 199 characters of it, and a NUL are written behind the contents, inside the buffer |
| `Batching.Buffer.Strlen` | Sender/session.c:510 | the position of the first NUL |
| `Batching.Buffer.ReadLine` | Sender/session.c:508-510 | the contents grow by the line up to its first NUL |
| `Batching.Buffer.ReadBatch` | Sender/session.c:506-522 | the read loop is one filling, entering every `fgets` below 10000 |
| `Batching.Buffer.Reset` | Sender/session.c:554-555 | the buffer is the empty string again |
| `Transfer.Prepare` | Sender/session.c:535-547 | the counters are those of frame 0 of the batch, within their widths |
| `Transfer.SendBatch` | Sender/session.c:533-551 | one session for exactly the buffer's contents; the only timer it can leave resends its finish |
| `Transfer.Turn` | Sender/session.c:505-556 | one filling and its session, unless nothing was read |
| `Transfer.Drain` | Sender/session.c:503-557 | up to an end of file, the batches of the burst are each tried once, in order |
| `Transfer.TransferAll` | Sender/session.c:503-557 | over all input the sessions tried are exactly its batches, in order, the buffer ends empty, and the only timers left resend a finish; it stops early only inside a session that never returns |
| `EndToEnd.FilterIsNulFree` | SerialComm/new_serial.c:741-750 | every character the receiver writes passes the whitelist, and NUL does not |
| `EndToEnd.BatchesAreTheRecords` | Sender/session.c:508-510 | for every stream of reads and every way its output is cut by ends of file, the batches with what is pending are the filtered payloads of the accepted frames |
| `EndToEnd.OutputDelivered` | Sender/session.c:503-557 | if the batches are sent in a row of sessions over one channel, all complete and none meeting an old ack for its last frame, the server receives exactly the receiver's output |
| `Watchdog.Watch.OnLinkBreakage` | WatchDog/cems.c:56-89 | the new values of both counters, with the scan skipped on the fourth break in a row |
| `Watchdog.Watch.Polls` | WatchDog/cems.c:139-156 | over every history the loop exits at a poll if and only if it is the first at which the last four polls were broken, or four scans have failed since the last successful one |
| `Watchdog.StreakIsFourBroken` | WatchDog/cems.c:62-88 | the count of breaks reaches four exactly when the last four polls were broken |
| `Watchdog.FailuresAreFourMissed` | WatchDog/cems.c:74-84 | the count of failed scans reaches four exactly when there are four of them without a successful one in between; polls that find the link up do not reset it |

## Left out

- `set_ABLE_clock` and its interval counter, the port set-up, option parsing, sleeping, string helpers, logging and file opening: they do not touch the protocol state.
- The comparison `ch == "!"` at `SerialComm/new_serial.c:609` compares a character with a pointer; only `?` prompts.
- Diagnostic messages on standard output (`thrown`, `couldnt write`, the exit messages): the sender would read them mixed into the record characters; the model's output is the record characters only.
- A failed write of `*` or `&` only drops that answer, as in the code; a failed write of the opening `Q` likewise.
- Four `#` in a row inside a damaged frame: `Damage` leaves them out, since they end the call (`Framing.DiscardedAfterFourHashes`).
- Data packets of an earlier session still in the channel: assumed gone when the next session starts.
- The overflow of the 32-bit counter `sof_data` after 2^31 dollar signs inside one frame.
- What C does after a store beyond a buffer: the model stops there.
- Framing after damage to `$` or to the length byte: which bytes the receiver then takes for a frame is not claimed, beyond what `ReceiverSafety` and `Provenance` prove of every stream.
- Datagrams shorter than seven bytes, after which the code reads what an earlier one left in its buffer.
- The two bytes beyond its 17-byte struct that the handshake sends (`PKT_SIZE_HANDSHAKE` is 19): their values are undefined; the model sends the struct.
- Allocation sizes and buffers smaller than the receive limit.
- The retry loop around `learn_new_port`, sockets, addresses, receive timeouts, the connectivity probe and the wireless scripts: the model takes the results as events.
- The scheduling of the timer threads below one resend or one cancellation; a timer carries its packet, not a pointer to it.
- Delivery of a batch whose session failed: the result is ignored at `Sender/session.c:550` and the buffer is cleared.
- That a batch is delivered eventually: it depends on a fair channel, which nothing in the repository promises; `Recovery.CanFinish` shows that it always can be.
- The tests of the link and of the access point, module reloading and the reboot itself are inputs and the exit of `Watchdog`; the sleeps are left out.
- The launcher programs, the log and data files and the makefiles.
