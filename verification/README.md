# A model of usbip-server in Dafny

usbip-server lets a C program act as a USB device for a host that attaches to it over USB/IP. A
*server thread* reads commands from the host, keeps the host's transfers (URBs) in a queue, and
completes them with the data that the *device's threads* hand over through endpoint buffers. This
project models that server, the hand-over between the threads, the descriptors the device is
described with, and one complete device, the GUD display, and proves what they promise.

## How it is built

| files | what they model |
|---|---|
| `Urbs` | the URB queue, the endpoint table and the effect of each operation on them, as values |
| `Schedule`, `Timing` | one session as a state machine over those operations, with a log of everything answered; the times in its tables told from the log |
| `Greedy` | the completion pass, and the much simpler meaning it has for each endpoint alone; the pass with data arriving between its iterations |
| `Handoff`, `HandoffLocks`, `HandoffSession`, `HandoffBytes`, `HandoffWakeups`, `HandoffControl`, `HandoffReplies`, `HandoffSafety`, `HandoffProgress`, `HandoffRuns`, `HandoffTransmit`, `HandoffConfig`, `HandoffCallbacks`, `HandoffExample` | the server thread, any number of device threads, both locks, the condition variable, the event and the reset generation as atomic steps with program counters; the invariant of that machine part by part; the theorems over all its runs; what becomes of each transmit, each configuration and each callback, told from the steps of the run; a run that shows a race |
| `DeviceBuffers` | the endpoint buffers changed in place, each locked section proved to be the machine's step |
| `Wire`, `Layout`, `IsoPacking`, `Service`, `Listing`, `Memory` | messages and the place of every field in their bytes, isochronous packing, the replies to operations and commands as values, and rounds of the server's loop |
| `Protocol` | the server's code in place: fixed arrays, loops, bytes read and written |
| `Rounds`, `Client`, `Delivery`, `Answers` | the bridge: each round of `Protocol` is a row of `Schedule`'s steps and its bytes are what they log, the client reads them back, the replies carry the data that device threads handed over, and each answers what its own command asked for |
| `Descriptors`, `OtherSpeed`, `EndpointBytes`, `Interfaces` | the recursive parse of a configuration, the three loops that walk its bytes, and endpoint descriptors field by field |
| `GudDisplay`, `GudRequests`, `GudDevice` | the display as a value, the requests as a host writes them, and the display's code in place |

A run of `Handoff` interleaves the threads wherever the program lets another thread in: before a lock
is taken, after it is released, and between storing data and writing the event. The session inside such
a run is a run of `Schedule` from its import to where it is (`HandoffRuns.SessionsAreRuns`), so the
theorems about fates, deadlines and pacing hold whatever the device's threads do. `Protocol` covers the
same queue operations as they are written, in place and byte by byte: its loop writes the bytes of
`Service.Rounds`, `Rounds` shows that they are the log of a run of `Schedule`, and `Client` that a client
reads exactly that log back. In those rounds device threads may hand over any data before each
iteration of a pass and after the last one (`Service.Feeds`): an endpoint takes it if its buffer is
empty, cut to 512 bytes, and `Delivery` follows it from there to the replies.

## What is taken for granted

- Sequence numbers are unique within a session.
- A host submits endpoint numbers below 16 and direction 0 or 1. What happens otherwise is
  `Schedule.CancelDeadlines`: the queue compares the full endpoint number, the endpoint table only its
  low four bits.
- Time is a parameter of each step. It is a number of microseconds that does not wrap, and no property
  needs it to be monotone: pacing and deadlines are stated on the clock as the server samples it.
- The reset generation does not wrap while a transmit waits.
- Callbacks do not enter critical sections, and a thread does not enter one twice.
- What a device makes of a control request or of an isochronous transfer is any function of its
  sequence number, so it may depend on everything before.
- The connection is an in-order byte channel that may fail at any read or write. Waiting for it is
  nondeterministic.
- A transfer that is not isochronous and asks for zero bytes never completes by itself, so claims
  about delivery are for positive lengths.
- A configuration descriptor occupies as many bytes as its header says, and at least the header.

## Where the program differs from what one would expect

- An unlink that stops a stream resets the stream's end. It keeps every deadline below its stream's
  end if and only if no other address shares the table entry (`Schedule.CancelDeadlines`, with a
  counterexample in `Schedule.AliasedExample`, two submits and an unlink).
- The full speed service period equals the high speed one if and only if an isochronous bInterval is
  4 to 16, or an interrupt bInterval is 0 or 4 to 11 (`OtherSpeed.ServicePeriods`).
- The interface walk stays inside the configuration if and only if as many interface descriptors exist
  as the header announces (`Interfaces.WholeList`, with a configuration that breaks it in
  `Interfaces.OverrunExample`).
- A control reply stalls when nobody had answered *when the server looked*. An answer that a thread
  gives between that look and the fetch is too late for the stall, and not too late for the data
  (`HandoffControl.Proper`, with a run in which it happens in `HandoffExample.LateAnswerStalls`). An
  answer of the server thread's own, the library's or a callback's, is never late
  (`HandoffSafety.OwnAnswersNeverStall`).

## Model

| member | source | states |
|---|---|---|
| `Schedule.RunKeepsInv` | src/lib/usbip_protocol.c:192-397 | Every state of every session satisfies the session invariant: fates, deadlines, order, pacing and stream arithmetic together |
| `Schedule.ExactlyOnce` | src/lib/usbip_protocol.c:192-397 | In every state of every session a submitted transfer is pending, being served, or ended by exactly one RET_SUBMIT or successful unlink |
| `Schedule.UnlinkIsFinal` | src/lib/usbip_protocol.c:322-362 | RET_UNLINK reports -ECONNRESET if and only if its target is pending, and then no RET_SUBMIT for the target precedes or ever follows |
| `Schedule.IsochronousSchedule` | src/lib/usbip_protocol.c:307-346 | Pending deadlines of a stream are non-decreasing in queue order and at most its end, after any unlinks, queued transfers have completed in submit order and never before their deadline, and every such deadline is the one computed at the submit |
| `Schedule.CancelDeadlines` | src/lib/usbip_protocol.c:332-346 | Unlinking keeps deadlines at most their stream's end if and only if no other address shares the emptied stream's table entry |
| `Schedule.AliasedExample` | src/lib/usbip_protocol.c:399-407 | Submits on endpoints 1 and 17 of an isochronous device and one unlink, after which that bound is broken |
| `Schedule.CancelKeepsDeadlines` | src/lib/usbip_protocol.c:332-346 | With endpoint numbers below 16 the bound always survives an unlink |
| `Schedule.InterruptPacing` | src/lib/usbip_protocol.c:364-397 | Any two completions polled from one endpoint are at least its interval apart on the sampled clock |
| `Schedule.ZeroDrift` | src/lib/usbip_protocol.c:307-320 | While a stream is fed in time, each deadline is the first start plus one interval per packet since, whatever the arrival jitter |
| `Schedule.CompletionsKeepDeadlines` | src/lib/usbip_protocol.c:373-382 | A completed transfer of a stream has its submit before it in the log, and completes no earlier than the deadline computed there from the stream's end, the arrival and the packets |
| `Schedule.CompletionsDoNotDrift` | src/lib/usbip_protocol.c:307-382 | Two completions of a stream fed in time between their submits have deadlines exactly one interval per packet apart |
| `Timing.CancelOutcome` | src/lib/usbip_protocol.c:332-346 | An unlink takes out the first transfer with the target's number and sets the end of its stream to 0 if and only if no isochronous transfer left has its endpoint and direction; nothing else changes |
| `Timing.StreamStartsOver` | src/lib/usbip_protocol.c:307-346 | In every session the next submit after such an unlink is due one interval per packet after its own arrival |
| `Timing.PollTimes` | src/lib/usbip_protocol.c:384-392 | An endpoint's next poll is exactly one interval after its last completion in the log, and 0 before any |
| `Timing.ScanOutcome` | src/lib/usbip_protocol.c:369-394 | A visited transfer can be given data if and only if that time has come, completes if and only if it was given some, or if and only if its deadline has come when isochronous, and otherwise stays |
| `Greedy.PassIsGreedy` | src/lib/usbip_protocol.c:364-397 | For each endpoint the in-place pass completes, leaves and leaves buffered exactly what serving that endpoint alone does |
| `Greedy.ServeOldestFirst` | src/lib/usbip_protocol.c:369-393 | The completed transfers are a prefix of the endpoint's positive-length transfers in queue order |
| `Greedy.ServeConserves` | src/lib/usbip_protocol.c:384-390 | The completed transfers' data followed by the rest is the buffer |
| `Greedy.ServeFits` | src/lib/usbip_protocol.c:384-390 | A completed transfer carries data, and no more than it asked for |
| `Greedy.ServeHoldsNothingBack` | src/lib/usbip_protocol.c:370-395 | A polled endpoint ends with no data or no transfer that wants it, a paced one completes exactly one if it can, one not yet due completes none |
| `Greedy.PassKeepsOrder` | src/lib/usbip_protocol.c:370-397 | The queue before the pass is a merge of survivors and completed transfers, each in order |
| `Greedy.PassTimeout` | src/lib/usbip_protocol.c:366-379 | The timeout is at most the time left to every survivor that is not due, every due survivor has an empty buffer, and the timeout is the default or the time left to a survivor |
| `Greedy.PassUndisturbed` | src/lib/usbip_protocol.c:364-397 | The pass with arriving data is that pass when nothing arrives |
| `HandoffSafety.RunIsSafe` | src/lib/usbip_device.c:79-226 | Every state of every interleaving satisfies the machine's invariant |
| `HandoffSafety.ServerNeverSleepsThroughData` | src/lib/usbip_protocol.c:145-167 | Whenever the server is about to wait, each deliverable transfer has the event set, or a transmitter about to set it, or its poll no sooner than the wait ends |
| `HandoffSafety.TransmittersAreWoken` | src/lib/usbip_device.c:130-176 | A thread asleep without a notification has data in its way on a data endpoint, the device is not stopped, and it is neither the server thread nor in a critical section |
| `HandoffSafety.ResetIsolation` | src/lib/usbip_device.c:79-96 | Every buffered byte, and every byte of every reply the current host got, control replies included, carries the current reset generation; `HandoffTransmit.TransmitOutcome` says which one a transmit carries |
| `HandoffSafety.StreamConserved` | src/lib/usbip_device.c:130-226 | On a data endpoint the bytes sent followed by the bytes buffered are exactly the bytes accepted since the last reset, in order |
| `HandoffTransmit.TransmitOutcome` | src/lib/usbip_device.c:130-159 | Each transmit of a thread waits, stores or gives up exactly when the state of the device, and the resets since its thread first got the mutex, say so; it stores its own call's data, at most 512 bytes, with the generation of that moment, and nothing if a reset came since |
| `HandoffTransmit.SpeechOutcome` | src/lib/usbip_device.c:130-159 | A callback's transmit never waits, and stores what the callback gave it, on endpoint 0 as an answer |
| `HandoffTransmit.StreamIsHandedOver` | src/lib/usbip_device.c:130-226 | On a data endpoint the bytes sent followed by the bytes buffered are exactly the data of the calls accepted since the last reset, in order |
| `HandoffTransmit.ResetStartsOver` | src/lib/usbip_device.c:79-88 | After a reset the device is as before any client came, but for its generation |
| `HandoffTransmit.StoppedIsEmpty` | src/lib/usbip_device.c:98-106 | A stopped device holds nothing, whatever threads still transmit |
| `HandoffSafety.ControlRepliesAreProper` | src/lib/usbip_protocol.c:217-237 | Each control reply stalls exactly when it should, otherwise carries the last answer given since its own request began, cut to the requested length, and is the RET_SUBMIT logged for its request |
| `HandoffSafety.ControlRequestsAreReplied` | src/lib/usbip_protocol.c:217-237 | Each control request of a session has its own sequence number and exactly one reply, in order, but for the one being served |
| `HandoffSafety.OwnAnswersNeverStall` | src/lib/usbip_device.c:228-252 | A supported request that the library answers itself, or whose callback transmits on endpoint 0 before it returns, is not stalled and gets the last answer |
| `HandoffSafety.LibraryAnswersItself` | src/lib/usbip_device.c:284-361 | What the library itself answers, cut to 512 bytes, is among the answers of its request, and is what the host gets, cut to the requested length, when no one else answers |
| `HandoffCallbacks.CallbackIsAsked` | src/lib/usbip_device.c:228-252 | When a control request is done with, the device's callback has run once since it began if the library leaves the request to the device, or it is SET_CONFIGURATION, and not at all otherwise |
| `HandoffConfig.ConfigurationIsReported` | src/lib/usbip_device.c:360-368 | GET_CONFIGURATION never stalls, has among its answers the value of the last SET_CONFIGURATION the host sent in this session, 0 if none, and returns it when no device thread answers as well |
| `HandoffSafety.SessionsObeySchedule` | src/lib/usbip_protocol.c:145-167 | Under every interleaving each state of a session satisfies the invariant of `Schedule` |
| `HandoffRuns.SessionsAreRuns` | src/lib/usbip_protocol.c:145-167 | Under every interleaving the steps since the import are a run of `Schedule` that ends in the session's present state |
| `HandoffRuns.UnlinkIsFinalInRuns` | src/lib/usbip_protocol.c:322-362 | So at any later moment of the session, whatever threads did in between, a cancelled transfer has no RET_SUBMIT |
| `HandoffExample.LateAnswerStalls` | src/lib/usbip_device.c:199-206 | Some run stalls a supported request that was answered, because the answer came after the server looked |
| `HandoffSafety.SessionHygiene` | src/lib/usbip_server.c:70-94 | With no client served nothing is imported and nothing pending, and each import starts with an empty queue, the pacing state zeroed by loading the configuration, and configuration 0 |
| `HandoffProgress.MutexHolderCanStep` | src/lib/usbip_device.c:141-159 | Whoever holds the endpoint mutex can step |
| `HandoffProgress.ReceiveHolderCanStep` | src/lib/usbip_device.c:178-186 | Whoever holds the receive lock can step, or waits only for an endpoint mutex whose holder can |
| `HandoffProgress.ServerProgress` | src/lib/usbip_device.c:79-128 | The server steps or waits for a lock whose holder can step |
| `HandoffProgress.ThreadProgress` | src/lib/usbip_device.c:130-186 | So does every device thread that does not sleep waiting for the host |
| `HandoffProgress.NoDeadlock` | src/lib/usbip_device.c:58-226 | In every state of every run: no deadlock, and after a stop nobody is left waiting for the host |
| `DeviceBuffers.EndpointData.Transmit` | src/lib/usbip_device.c:130-159 | In place: waits, stores or gives up exactly when the machine does, and stores the data cut to 512 bytes |
| `DeviceBuffers.EndpointData.Fetch` | src/lib/usbip_device.c:208-226 | In place: a prefix of the buffer goes out, the rest stays, endpoint 0 keeps nothing, and waiters are woken exactly when nothing is left |
| `DeviceBuffers.EndpointData.MoveDown` | src/lib/usbip_device.c:219-219 | The overlapping move keeps every byte of the rest and of the other endpoints |
| `DeviceBuffers.EndpointData.TakeAnswered` | src/lib/usbip_device.c:200-203 | The flag is read and cleared in a section of its own |
| `DeviceBuffers.EndpointData.FetchControlReply` | src/lib/usbip_device.c:199-206 | With any transmits between its two sections: the flag is the one from before them, the answer the one from after, and neither is left |
| `DeviceBuffers.EndpointData.Reset` | src/lib/usbip_device.c:79-88 | Empties every buffer, forgets configuration and answer, starts a new generation |
| `DeviceBuffers.EndpointData.Stop` | src/lib/usbip_device.c:98-106 | Empties every buffer for good and keeps the rest |
| `DeviceBuffers.EndpointData.BeginControl` | src/lib/usbip_device.c:228-234 | No earlier answer is left for a new request |
| `Wire.ParseOfEncode` | src/lib/usbip_protocol.c:173-237 | The server consumes exactly the encoded bytes of a well-formed command, whatever follows them |
| `Wire.EncodeOfParse` | src/lib/usbip_protocol.c:173-296 | Whatever bytes the server accepts are the encoding of one well-formed command |
| `Wire.CommandsStayInSync` | src/lib/usbip_protocol_definitions.h:93-151 | Any sequence of commands is read back command by command, with the remaining bytes untouched |
| `Wire.ParseOfReply` | src/lib/usbip_protocol.c:445-515 | A client that knows the direction and type of a transfer reads its reply back and stops where it ends |
| `Wire.RepliesParseBack` | src/lib/usbip_protocol.c:445-515 | So it reads back any sequence of replies that have the announced shapes, which `Client.SessionFits` proves of the server's |
| `Layout.WordIsBigEndian` | src/lib/usbip_protocol_definitions.h:93-151 | A word on the wire is the big endian bytes of its value |
| `Layout.CommandLies` | src/lib/usbip_protocol.c:173-296 | In whatever the server takes for a command, the command word is 1 or 2 and each field, the data and each packet descriptor is at its own place |
| `Layout.ReplyLies` | src/lib/usbip_protocol.c:348-515 | The same for the bytes of both replies, with command words 3 and 4 |
| `Layout.UnlinkIsAnswered` | src/lib/usbip_protocol.c:348-361 | RET_UNLINK carries -104 if the target waits and 0 if it does not |
| `Layout.OperationLies` | src/lib/usbip_protocol.c:105-117 | Exactly the bytes of version 1.11 with code 8005 ask for the list, with code 8003 and 32 more for an import |
| `Layout.ListLies` | src/lib/usbip_protocol.c:531-575 | The device list starts with version, code 5, success and one device, and gives its path, bus id, numbers and speed |
| `Layout.ImportLies` | src/lib/usbip_protocol.c:605-614 | The reply to an import likewise, with code 3 |
| `IsoPacking.ChunksFit` | src/lib/usbip_protocol.c:477-485 | The packets together fit the transfer buffer, each fits its own length |
| `IsoPacking.UnpackOfPack` | src/lib/usbip_protocol.c:471-515 | Cutting the back-to-back data by the descriptors recovers what each callback produced |
| `IsoPacking.DisjointFits` | src/lib/usbip_protocol.c:286-296 | Packets inside the buffer that do not overlap are together no longer than it |
| `IsoPacking.ClampNeverMatters` | src/lib/usbip_protocol.c:479-484 | So the space left never shortens one of them |
| `IsoPacking.PackIn` | src/lib/usbip_protocol.c:473-490 | In place: the buffer holds the packets back to back, the descriptors describe them, the total is their sum |
| `Service.ServeChecks` | src/lib/usbip_protocol.c:286-296 | Whatever a command queues has passed the range checks |
| `Service.ServeFits` | src/lib/usbip_protocol.c:192-260 | An immediate reply has the sequence number and the shape its command announced |
| `Service.DoneFits` | src/lib/usbip_protocol.c:380-390 | So has the reply to a queued transfer |
| `Service.RoundsKeepKinds` | src/lib/usbip_protocol.c:409-430 | No number of rounds changes the type of an endpoint |
| `Service.OneMoreTurn` | src/lib/usbip_protocol.c:145-167 | What one more turn of the loop hears, and adds to the bytes written, with whatever device threads hand over in it |
| `Service.IsoReplyUnpacks` | src/lib/usbip_protocol.c:473-515 | The header's actual length is the length of the data and at most the transfer buffer's, and the host recovers each packet |
| `Protocol.Server.RemovePendingUrb` | src/lib/usbip_protocol.c:438-442 | Moving the later entries down removes one entry and keeps the order of the others |
| `Protocol.Server.HasPendingIsoUrbs` | src/lib/usbip_protocol.c:399-407 | Found if and only if a pending isochronous transfer has this exact address |
| `Protocol.Server.CancelPendingUrb` | src/lib/usbip_protocol.c:332-346 | In place: the first match goes, and only a drained stream starts over |
| `Protocol.Server.TransmitRetSubmit` | src/lib/usbip_protocol.c:445-469 | Writes exactly the reply's encoding, and fails if and only if the client does not take it all |
| `Protocol.Server.TransmitRetUnlink` | src/lib/usbip_protocol.c:348-361 | The same for RET_UNLINK |
| `Protocol.Server.TransmitIsoRetSubmit` | src/lib/usbip_protocol.c:473-515 | The same for isochronous replies, with packets and descriptors built in place |
| `Protocol.Server.ReadCommand` | src/lib/usbip_protocol.c:173-191 | Reads a command if and only if the input starts with one, and then exactly its bytes |
| `Protocol.Server.ReadUnlink` | src/lib/usbip_protocol.c:322-327 | The part of that for an unlink |
| `Protocol.Server.ReadSubmit` | src/lib/usbip_protocol.c:192-204 | The part of that for a submit, refused when its buffer is too long |
| `Protocol.Server.ReadPayload` | src/lib/usbip_protocol.c:206-216 | The part of that for OUT data |
| `Protocol.Server.ReadPackets` | src/lib/usbip_protocol.c:267-296 | The part of that for packet descriptors, refused when there are too many or one lies outside the buffer |
| `Protocol.Server.ProcessUnlink` | src/lib/usbip_protocol.c:322-362 | Queue and reply after an unlink |
| `Protocol.Server.ProcessIsoSubmit` | src/lib/usbip_protocol.c:262-320 | Queue, stream end and reply after an isochronous submit, with room in the queue or without |
| `Protocol.Server.ProcessControl` | src/lib/usbip_protocol.c:217-237 | The reply to a control request, stalled or not |
| `Protocol.Server.ProcessSubmit` | src/lib/usbip_protocol.c:192-260 | Queue and reply after any submit |
| `Protocol.Server.ProcessImportedCmd` | src/lib/usbip_protocol.c:173-190 | One command: bytes consumed, queue and bytes replied, or a lost connection |
| `Protocol.Server.VisitUrb` | src/lib/usbip_protocol.c:371-394 | One iteration in place is one step of the pass, and its reply is written |
| `Protocol.Server.Arrive` | src/lib/usbip_device.c:144-158 | Data is stored into empty data endpoints only, cut to 512 bytes |
| `Protocol.Server.CompletePendingUrbs` | src/lib/usbip_protocol.c:364-397 | With data arriving before any iteration: the loop ends, and is the pass of `Greedy`: queue, buffers, timeout and every reply in order; if the connection is lost, exactly what the client took of those replies was written |
| `Protocol.Server.ProcessImportedDevice` | src/lib/usbip_protocol.c:145-167 | One round, command then pass; it disconnects if and only if the input is no command or the replies do not fit, and then leaves nothing pending or buffered and has written exactly what the client took of the replies |
| `Listing.ListIsRead` | src/lib/usbip_protocol.c:531-603 | The client reads the device's own fields and its interfaces out of the device list |
| `Listing.ImportIsRead` | src/lib/usbip_protocol.c:605-614 | And the device's own fields out of the reply to an import |
| `Protocol.Server.ProcessCmd` | src/lib/usbip_protocol.c:100-143 | Imports if and only if the request is an import that could be answered, and then starts with an empty queue, the configuration's endpoint table and empty buffers, whatever the configuration's bytes; a list request is answered with the interfaces the walk finds, `Interfaces.WholeList` says which |
| `Protocol.Server.ServeClient` | src/lib/usbip_server.c:78-90 | While a client is served, exactly the import reply and the bytes of one round per turn were written, for the commands its bytes encode and the data device threads handed over; if the connection is lost, what was written is a prefix of that; however it ends, nothing is imported and nothing pending |
| `Protocol.ClientReadsServer` | src/lib/usbip_protocol.c:145-167 | Those bytes, whatever device threads hand over in each turn, are read back by the client as the replies of a session of `Schedule`, no transfer answered twice |
| `Rounds.CommandDoes` | src/lib/usbip_protocol.c:173-362 | Serving a command is a row of the session's steps, and the events they log are the replies, in order |
| `Rounds.PassDoes` | src/lib/usbip_protocol.c:364-397 | So is the completion pass, transfer by transfer, with data arriving between them |
| `Rounds.RoundDoes` | src/lib/usbip_protocol.c:145-167 | So is a round of the loop, which ends between requests with the queue the code ends with |
| `Rounds.RoundBytes` | src/lib/usbip_protocol.c:145-167 | The bytes of a round are the encoding of exactly those replies |
| `Rounds.SessionDoes` | src/lib/usbip_server.c:78-90 | Any number of rounds is the row of steps `SessionActs` of the session, and the events it logs are `SessionReplies`, in order |
| `Rounds.SessionBytes` | src/lib/usbip_server.c:78-90 | All bytes of those rounds are the encoding of exactly `SessionReplies` |
| `Rounds.NoAnswerTwice` | src/lib/usbip_protocol.c:145-167 | Among the replies of any number of rounds from an import on, no two RET_SUBMITs carry one sequence number |
| `Client.SessionFits` | src/lib/usbip_protocol.c:192-397 | Every reply of a session has the direction and type its own submit announced, however long the transfer waited |
| `Client.HeardIsRemembered` | src/lib/usbip_protocol.c:192-204 | Sequence numbers being used once, the client's memory of its submits is right for each of them |
| `Client.ClientReadsSession` | src/lib/usbip_protocol.c:445-515 | Reading the bytes of a whole session with that memory gives back exactly the session's replies, no transfer answered twice |
| `Delivery.PassDelivers` | src/lib/usbip_protocol.c:364-397 | In a pass, on every data endpoint the bytes polled followed by the bytes buffered grow by exactly the data taken meanwhile, in order |
| `Delivery.SessionDelivers` | src/lib/usbip_server.c:78-90 | So they do over any number of rounds |
| `Delivery.ImportDelivers` | src/lib/usbip_device.c:130-226 | From an import on, the payloads of the replies to polled transfers followed by what is buffered are everything the endpoint took: nothing is lost, doubled or reordered on the wire |
| `Delivery.BulkSession` | src/lib/usbip_protocol.c:238-260 | Any IN submit to a data endpoint that is not isochronous, followed by data from a device thread, is a session of these theorems, and is answered with that data cut to the transfer |
| `Answers.IsoIsAnswered` | src/lib/usbip_protocol.c:473-515 | The reply to an isochronous transfer has status 0, the command's start frame and its packets' offsets and lengths; an IN packet carries what the callback produced when asked for its length or the space left, right behind the one before; an OUT packet is accepted whole |
| `Answers.FullLengths` | src/lib/usbip_protocol.c:477-485 | If the packets together fit the buffer, each is asked for at its full length |
| `Answers.DirectIsAnswered` | src/lib/usbip_protocol.c:217-250 | A control request is answered or stalled with -32, an OUT transfer with its own length, an IN transfer without room in the queue with nothing |
| `Answers.EveryReplyAnswers` | src/lib/usbip_protocol.c:192-397 | In every session each RET_SUBMIT answers so the one command the client sent with its number, at once or after waiting |
| `Answers.IsoSession` | src/lib/usbip_protocol.c:262-320 | Any isochronous submit is such a session, answered in the first pass after its arrival plus one interval per packet |
| `Answers.DirectSession` | src/lib/usbip_protocol.c:217-244 | So is any control request or OUT transfer, answered at once |
| `Rounds.ControlAgrees` | src/lib/usbip_protocol.c:217-237 | The control reply in bytes stalls, and carries data, exactly as in the machine of threads |
| `Descriptors.SplitOfJoin` | src/lib/usbip_protocol.c:409-430 | The parse of a list of descriptors is that list |
| `Descriptors.JoinOfSplit` | src/lib/usbip_protocol.c:409-430 | A configuration is the concatenation of what it parses into |
| `Descriptors.LoadEndpoints` | src/lib/usbip_protocol.c:409-430 | For any bytes the walk stays inside them, and for a well-formed configuration it loads the table of the parsed list |
| `Descriptors.LoadEndpoint` | src/lib/usbip_protocol.c:415-427 | What one descriptor does to the table in place |
| `Descriptors.TableOfConfig` | src/lib/usbip_protocol.c:413-429 | Walking the bytes and reading the parsed list give one table, although the walk stops seven bytes before the end |
| `Descriptors.TableReadsOff` | src/lib/usbip_protocol.c:416-427 | With unique addresses an entry is what its own descriptor says: type, interval if paced, and no history |
| `Descriptors.AbsentEntry` | src/lib/usbip_protocol.c:411-411 | An address without a descriptor has the empty entry |
| `Descriptors.ImportedIsFresh` | src/lib/usbip_protocol.c:411-411 | Whatever the bytes, a session starts with no poll and no stream in the past |
| `OtherSpeed.SlowDownMax` | src/lib/usbip_device.c:393-412 | The packet size fields in place become the full speed size, nothing else changes |
| `OtherSpeed.SlowDownInterval` | src/lib/usbip_device.c:398-418 | The interval field in place becomes the full speed interval, nothing else changes |
| `OtherSpeed.SlowDown` | src/lib/usbip_device.c:388-419 | One endpoint descriptor is rewritten in place, nothing else changes |
| `OtherSpeed.BuildOtherSpeedConfig` | src/lib/usbip_device.c:377-423 | For any bytes the walk stays inside the buffer, and a well-formed configuration of at most 512 bytes becomes one that parses into the full speed descriptors |
| `OtherSpeed.OtherSpeedParses` | src/lib/usbip_device.c:383-422 | The rewritten bytes parse into as many descriptors, each the full speed version of the original |
| `OtherSpeed.OnlyEndpointsChange` | src/lib/usbip_device.c:384-419 | Lengths stay, and only byte 1 and three fields of endpoint descriptors change |
| `OtherSpeed.FullSpeedLimits` | src/lib/usbip_device.c:390-412 | Packet sizes are cut to 64 bytes, or 1023 for isochronous endpoints, and kept otherwise, as are type and address |
| `OtherSpeed.InterruptPeriod` | src/lib/usbip_device.c:398-403 | The interrupt period is unchanged if and only if bInterval is 0 or 4 to 11 |
| `OtherSpeed.IsoPeriod` | src/lib/usbip_device.c:413-418 | The isochronous period is unchanged if and only if bInterval is 4 to 16 |
| `OtherSpeed.ServicePeriods` | src/lib/usbip_device.c:398-418 | Hence when the full speed period of a paced endpoint is the interval the server loads for it |
| `EndpointBytes.TableOfEndpoint` | src/lib/usbip_protocol.c:415-427 | From an endpoint's address, type and bInterval: the entry the server loads, with its interval in microseconds |
| `EndpointBytes.SlowOfEndpoint` | src/lib/usbip_device.c:388-418 | The full speed descriptor keeps address and type, and has the packet size and, for every bInterval, the interval that full speed allows |
| `EndpointBytes.FullSpeedOfEndpoint` | src/lib/usbip_device.c:377-423 | So has every endpoint of the configuration that a full speed host is shown, behind a header of type 7 |
| `Interfaces.GetNextInterfaceIdx` | src/lib/usbip_protocol.c:517-529 | For any bytes the search stays inside them, and says where the program would leave them or not return; in a parsed configuration it finds the next interface descriptor, and leaves if and only if there is none |
| `Interfaces.ListInterfaces` | src/lib/usbip_protocol.c:584-601 | For any bytes, lists what that search finds; in a parsed configuration these are its first bNumInterfaces interfaces, in bounds if and only if there are that many |
| `Interfaces.WholeList` | src/lib/usbip_protocol.c:584-601 | The walk from the header lists the first n interfaces of a parsed configuration, for every n, if and only if there are that many |
| `Interfaces.OverrunExample` | src/lib/usbip_protocol.c:584-587 | A well-formed configuration that announces two interfaces and has one |
| `GudDisplay.RunKeepsInv` | src/usb_gud_display/usb_gud_display_device.c:196-267 | In every run a pending rectangle lies inside the display and its length was checked against the format that is still current |
| `GudDisplay.ChunksDoNotMatter` | src/usb_gud_display/usb_gud_display_device.c:343-367 | However the payload is split, and whatever is checked and committed meanwhile, the rectangle waits until its payload is complete and is then painted from exactly those bytes, if and only if some chunk ends with it |
| `GudDisplay.WholePayload` | src/usb_gud_display/usb_gud_display_device.c:343-367 | So a payload of the right length always paints, in any pieces |
| `GudDisplay.WithoutPending` | src/usb_gud_display/usb_gud_display_device.c:345-350 | Without a pending rectangle no data paints anything |
| `GudRequests.RequestIsRead` | src/usb_gud_display/usb_gud_display_device.c:196-201 | The rectangle, length and compression that a host writes, little endian, are those the display reads |
| `GudRequests.RequestIsAccepted` | src/usb_gud_display/usb_gud_display_device.c:203-221 | Once a state is committed, a request is accepted if and only if its rectangle is on the display and not empty, it is not compressed, and its length is two bytes per pixel and at most 65536 |
| `GudRequests.TransferPaints` | src/usb_gud_display/usb_gud_display_device.c:196-367 | After any run that committed a state, a request for a rectangle on the display and its payload, in any pieces, paint exactly that rectangle with exactly those bytes |
| `GudRequests.PixelIsPainted` | src/usb_gud_display/usb_gud_display_device.c:327-341 | So each byte of the payload is at its own row and column of the rectangle asked for |
| `GudRequests.StateIsAccepted` | src/usb_gud_display/usb_gud_display_device.c:230-254 | A state is accepted if and only if it is 320 by 240 in RGB565 on connector 0 and no property asks for another rotation |
| `GudRequests.StateIsCommitted` | src/usb_gud_display/usb_gud_display_device.c:256-267 | A commit makes an accepted state current, and nothing else |
| `GudRequests.WidenScales` | src/usb_gud_display/usb_gud_display_device.c:369-372 | Widening a channel scales it to 255, rounded down |
| `GudRequests.GreyIsGrey` | src/usb_gud_display/usb_gud_display_device.c:379-381 | A grey pixel has its value in every channel of the window |
| `GudDisplay.LastWins` | src/usb_gud_display/usb_gud_display_device.c:327-341 | The most recent rectangle that covers a place decides its colour |
| `GudDisplay.NeverCovered` | src/usb_gud_display/usb_gud_display_device.c:413-423 | A place no rectangle covered since the reset is black |
| `GudDisplay.NarrowOfWiden` | src/usb_gud_display/usb_gud_display_device.c:369-372 | Widening a channel loses nothing |
| `GudDisplay.ColoursAreKept` | src/usb_gud_display/usb_gud_display_device.c:374-411 | In every format with whole bytes per pixel the pixel's colour can be read back from the window |
| `GudDevice.Display.SetBufferRequest` | src/usb_gud_display/usb_gud_display_device.c:196-228 | Accepts a rectangle if and only if it is inside and its length right, and changes nothing otherwise |
| `GudDevice.Display.SetStateCheckRequest` | src/usb_gud_display/usb_gud_display_device.c:230-254 | Accepts a state if and only if mode, format, connector and rotation are the display's own |
| `GudDevice.RotationIsZero` | src/usb_gud_display/usb_gud_display_device.c:242-249 | The loop refuses if and only if some property asks for another rotation |
| `GudDevice.Display.SetStateCommitRequest` | src/usb_gud_display/usb_gud_display_device.c:256-267 | Commits a checked state once |
| `GudDevice.Display.ReceivePixels` | src/usb_gud_display/usb_gud_display_device.c:343-367 | In place, and afterwards the framebuffer still is the picture of everything painted |
| `GudDevice.StoreRectangle` | src/usb_gud_display/usb_gud_display_device.c:327-341 | Line by line, in any format with whole bytes per pixel, the covered places get the rectangle's bytes and no other place changes; in the others nothing does |
| `GudDevice.PaintingHolds` | src/usb_gud_display/usb_gud_display_device.c:327-341 | In the display's own format the framebuffer becomes the picture with one more rectangle |
| `GudDevice.Display.ResetDisplay` | src/usb_gud_display/usb_gud_display_device.c:413-423 | The display is black, without a format and without a pending rectangle |
| `GudDevice.FramebufferToXrgb8888` | src/usb_gud_display/usb_gud_display_device.c:374-411 | In any format, each pixel of the window has the colour of that pixel |
| `GudDevice.WindowShowsPicture` | src/usb_gud_display/usb_gud_display_device.c:374-411 | In every state of the display the window shows the picture, whole pixels of it |

## Left out

- HandoffSafety.ServerNeverSleepsThroughData: transfers that ask for zero bytes, which never complete by themselves.
- HandoffSafety.StreamConserved: moments inside a reset, and a stopped device, which discards its buffers.
- HandoffSafety.LibraryAnswersItself: which bytes the library says to which request is a table; a request of the model carries them.
- HandoffCallbacks.CallbackIsAsked: for a device that has a control callback; without one nothing runs.
- HandoffConfig.ConfigurationIsReported: a device thread that also answers the request may replace the library's answer, since the last answer counts.
- HandoffProgress.NoDeadlock: says that someone can step, not that the scheduler lets them.
- Protocol.Server.FetchEpData: its buffers are sequences; the byte arrays and the overlapping move are `DeviceBuffers`.
- Protocol.Server.ProcessControl: takes what the device made of the request as a value; the locked sections around it are in `Handoff`.
- Protocol.Server.ProcessCmd: a device list for a configuration in which the walk finds fewer interfaces than announced, for which the program leaves the configuration.
- Protocol.Server.ServeClient: runs for a given number of turns, and a client the server leaves because it was told to stop may still have the device.
- Protocol.Server.Arrive: a transmit that has to wait is one that arrives later; who waits and is woken is in `Handoff`.
- Protocol.ClientReadsServer: for clients that use each sequence number once, endpoint numbers below 16 and direction 0 or 1.
- The bytes of control requests: which standard requests the library answers itself, and with which descriptor, is a table; in `Handoff` a request carries what the library does for it.
- The data of isochronous transfers in `Handoff`: callbacks produce it when the transfer completes, so it has no buffer to be lost in and the log carries none of it; `IsoPacking` has it.
- Answers.EveryReplyAnswers: which bytes a bulk or interrupt IN reply carries is `Delivery.ImportDelivers`.
- Delivery of OUT data to the device's callback: a copy of the received bytes.
- GUD requests that only report, enabling of controller and output, status and statistics: no bearing on the picture.
- GUD compression: not finished in the program.
- Sockets, signals, thread creation, the window, the other example devices and their descriptor tables.
