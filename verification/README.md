# grpc-php-rs: the call engine, verified

A Dafny 4.11 model of the client call engine behind `Grpc\Call`, `Grpc\Channel` and
`Grpc\Timeval`, with proofs of what it promises over every schedule and every sequence of
calls from PHP. `dafny verify dfyconfig.toml` checks the whole project.

## What is modelled

**The response stream** (`Stream`, `StreamInvariant`, `StreamTheorems`, `StreamReader`). A
driver task pulls the server's response into a bounded buffer and hands over initial metadata
and trailers through one-shot channels; the PHP thread reads, and drains the buffer when it
asks for the status. The driver side (`Link`) and the PHP side (`Hand`) are one event system.
The transport is an arbitrary finite script (connection, response, messages, ending). Which
arm of a `select!` fires, how driver and reader interleave, and how far the clock moves before
each step are all left to the event sequence, so statements about all event sequences are
statements about all schedules. The server-stream driver and its bidi twin differ only in the
request they send and share this model. `StreamReader` is the sequential reader code itself:
each wait runs the driver by arbitrary enabled steps until its channel has something.

**The batch machine** (`BatchParser`, `Call`, `CallInvariant`, `CallObject`, `CallTheorems`,
`HandOver`, `CallReports`, `Answers`, `StatusReports`, `ParsedCall`). `startBatch` over the flags, the pending buffers and the stream of one call.
`CallObject.GrpcCall` is the mutable object, method by method; `Call` is its specification on
values; a run is any sequence of batches, progress of the driver and of the request transport
between batches, and cancels. Each active stream holds its own `RequestStream.Pipe`, the
four-slot queue between SEND_MESSAGE and the transport; a send blocks on it and succeeds or
fails by what the transport does. `SendStall` is the case where both directions are full.

**Channels and calls together** (`Session`). Channel objects, the calls made on them and all
their steps, interleaved; a call sees the closed flag of its own channel object.

**One batch and two** (`Unary`, `Split`, `SplitCall`). The unary call, and its agreement with
sending and receiving in separate batches.

**Data and arithmetic** (`Metadata`, `MetadataGroups`, `Deadline`, `Timeval`, `ChannelKey`,
`Registry`, `Connectivity`). Grouping of received metadata, the request header fold, 64-bit
saturating time, the persistent channel registry and its key, and the connectivity state.

Assumptions, stated once: the wall clock does not run back and agrees with the timer; a finite
response is eventually delivered (an enabled driver step is always available to the scheduler),
though with a deadline nothing below needs the server for a wait to end
(`SilentServerAnswers`); the trailers of an ended body are at hand; the transport of a blocked
send goes on taking messages or leaves; the buffer capacity is at least 1; setting properties
on PHP result objects does not fail; a credentials plugin returns entries or throws; a
transport status is a code, a message, details and metadata; the clock readings at dispatch and
at the start of the driver are one reading. How the unary client of the transport library reads
a response (`Unary.UnaryResponse`: the first message of a body that ends well, an error
otherwise) is taken as that library does it; the metadata it attaches to what it read from the
body is arbitrary here, because it may merge headers and trailers.

## What the code does not promise

Each is proved with the condition under which the expected property does hold, and with inputs
on which it fails:

- A failed connection is reported as UNKNOWN "stream task terminated unexpectedly" when the
  status is requested before any message (`StatusFidelity`; every failed connection can be lost
  this way, `ConnectFailureCanBeLost`).
- The split and single-batch forms agree exactly on unary-shaped responses
  (`SplitEqualsSingle`), on message, code and details. This is less than
  tests/test_unary_split.php:7-8 announces: the status metadata of a success
  differs exactly when it has trailers, which only the split form reports, and the initial metadata
  of an accepted response that is not a success is lost in the single form (`SplitEqualsSingle`
  again). Every other response makes the two forms differ (`FormsDiffer`).
- Initial metadata in the same batch as the first message of a bidi call, or in an earlier
  batch than a half-closed send, is not sent (`FirstRequestMetadata`,
  `MetadataWithMessageIsLost`, `MetadataBeforeMessageIsLost`; known divergences,
  tests/test_ext_grpc_parity.php:452-470).
- Receiving a message without a stream, a status request or a half-close sends a new request
  each time (`LooseReadsRepeat`).
- The messages PHP was told were accepted are those handed over, each once and in order, if and
  only if no receive without send operations and without a stream succeeded while the buffer held
  a message (`AcceptedExactlyHandedOver`, over every run, failed batches included; each such
  receive hands over one message too many). From an empty buffer a message stays there if and
  only if a half-closed batch without a stream fails in its plugin (`BufferExactly`), and then the
  next receive does hand it over (`FailedBatchIsSent`). Any other failed batch is harmless
  (`AcceptedIsHandedOver`).
- A call that asks its plugin twice keeps headers of the first answer that the second does not
  write (`PluginTwice`, `PluginAskedTwice`).
- Two targets can meet under one registry key exactly when one is forged from the other: the
  shorter, "|creds=" with a number, and then nothing or a '|' (`TargetsCollideExactly`,
  `ForgedTargetShares`). Different credentials on one target never meet (`KeySeparates`).
- The arguments of a channel share their key with other arguments exactly when there are two
  or more of them, or one with a '=' in its name or value (`ArgsAreAmbiguousExactly`). Between
  lists of plain arguments, without '=' in names and without ',', the key does tell them apart
  (`KeyIsCanonical`); that condition on pairs of lists is sufficient, not necessary.
- A blocked SEND_MESSAGE does not see the deadline or a cancel; with the response buffer full
  as well it ends exactly if the transport takes a message or leaves (`StallEndsExactly`,
  `FullQueueSend`), and a bidi call that only sends gets there (`JointWaitIsReached`).
- A deadline of `infPast` or 1970 is no deadline (`DeadlineSitesAgree`).

## Model

| member | source | states |
|---|---|---|
| StreamInvariant.StepInv | src/call.rs:1135-1263 | every step of driver, reader and PHP keeps the invariant: conservation and order of messages, buffer bound and single last terminal item, metadata sent before the driver can park, trailers only after an orderly finish, a reason for every decision of the driver, a source for every status |
| StreamInvariant.RunInv | src/call.rs:1347-1472 | the invariant holds in every state of every run |
| StreamTheorems.WaitingMoves | src/call.rs:1524-1636 | no deadlock: while PHP waits for metadata, a message or the status, a step of driver or reader is enabled, for every capacity of at least 1 |
| StreamTheorems.WorkFalls | src/call.rs:1195-1248 | every step of driver or reader lowers the amount of work left |
| StreamTheorems.WorkIsBounded | src/call.rs:1612-1636 | over a whole run, the steps taken are bounded by the initial work plus five per batch begun |
| StreamTheorems.EveryScheduleAnswers | src/call.rs:1607-1636 | from every reachable state, every schedule is finite and one that cannot be extended has answered PHP |
| StreamTheorems.DeadlineMoves | src/call.rs:118-122 | once the deadline has fired, a waiting PHP always has an enabled step that needs nothing from the server |
| StreamTheorems.AnswersAtDeadline | src/call.rs:1242-1246 | from the deadline on, every wait can be ended at that very time without the server |
| StreamTheorems.SilentServerAnswers | src/call.rs:118-122 | the deadline bounds the whole call: a schedule that only the server could extend, however late, has answered PHP |
| StreamTheorems.MessagesConserved | src/call.rs:1195-1248 | messages given to PHP, then drained, then buffered, then the one parked on, are exactly what was pulled, in order; the buffer keeps its bound and only its last item can be terminal |
| StreamTheorems.SuccessAccountsForAll | src/call.rs:1189-1218 | a reported success is the server's: all messages were delivered, drained or are still buffered, the trailers are the server's, the first metadata answer is the server's headers and later ones are empty |
| StreamTheorems.SuccessIsComplete | src/call.rs:1568-1586 | a call read to null that then reports code 0 delivered the whole response, whatever the schedule |
| StreamTheorems.InitialMetadataExact | src/call.rs:1189-1193 | in every reachable state the first metadata answer is the headers exactly if an accepting response arrived; refused, unreachable, timed-out and expired calls give none, and no later answer gives any |
| StatusReports.StreamStatusTold | src/call.rs:149-167 | every status a stream reports, on script and clock alone: a server error keeps code and details exactly if it is neither UNKNOWN "transport error", told as UNAVAILABLE, nor a cancellation at or after a real deadline, told as the deadline; its metadata is the status's with the details put back; likewise for a failed connection, the end of the body and the deadline |
| StatusReports.ResultStatusTold | src/call.rs:1609-1648 | over every run the one status in the results of a stream's batches is told so |
| StatusReports.OneBatchTold | src/call.rs:739-870 | `startBatch` of a one-batch call succeeds exactly if the response or the deadline wins, and then message, metadata, code, details and status metadata are told by the script; otherwise the error names what went wrong |
| StatusReports.FailuresExactly | src/call.rs:608-736 | every other dispatched batch succeeds, or fails exactly so: the plugin threw, the path is bad, there is no sender, or the transport has left by the end of the send |
| Answers.BatchAnswers | src/call.rs:1513-1677 | a successful batch has exactly the fields it asked for, and on a stream each is what the batch took from it: the next message or null, the metadata, the status; a failed batch takes nothing |
| Answers.ResultsAreTheStream | src/call.rs:1569-1576 | over every run the messages in the results of all batches are, in order, a prefix of the server's, and metadata, nulls and status in them are exactly what the stream handed over |
| Answers.ResultsAreComplete | src/call.rs:1568-1586 | results with a null and a success hold the whole response, and the server's trailers |
| Answers.NullIsLast | src/call.rs:1546-1605 | after a null no batch of any later run gives PHP a message |
| StreamTheorems.StatusFidelity | src/call.rs:1608-1648 | the one status reported tells what happened (server, deadline or failed connection; never a cancel) if and only if it is not a failed connection asked about without reading a message, with a status unlike the fallback; that one reads as a vanished task |
| StreamTheorems.ConnectFailureCanBeLost | src/call.rs:1148-1154 | for every failed connection a run reports the fallback instead |
| StreamTheorems.EndIsPermanent | src/call.rs:1546-1605 | after a null message no later read of any run delivers a message |
| StreamTheorems.StatusHasSource | src/call.rs:1609-1648 | an open stream holds cached trailers or the trailers receiver, so "stream already consumed" is unreachable, and at most one status is given |
| StreamTheorems.StreamDeadlineSound | src/call.rs:1143-1177 | a DEADLINE_EXCEEDED no server sent is reported only with a real deadline, at or after it, in runs shorter than the sentinel |
| StreamReader.StepDriver | src/call.rs:1196-1247 | any enabled arm of the driver may run next, and one exists unless it is done or parked on a full buffer |
| StreamReader.Await | src/call.rs:1558-1567 | a wait for one channel ends, after some schedule of driver steps, with the awaited action taken |
| StreamReader.Choose | src/call.rs:1622-1634 | the arms of the drain's select, with the driver running meanwhile |
| StreamReader.Drain | src/call.rs:1618-1636 | the drain loop ends, with the trailers or able to wait for nothing else |
| StreamReader.BuildStreamResult | src/call.rs:1513-1677 | the phases of a receive always end, by some schedule of the protocol, and the reply has exactly the requested fields |
| Unary.UnaryDeadlineSound | src/call.rs:761-856 | a code 4 no server sent needs a real deadline reached by then; an expired call does not go out |
| Unary.UnarySuccessIsServers | src/call.rs:824-848 | a reported success means the request went out and PHP gets the server's first message, the metadata the library attached, and no trailers |
| SplitUnary.SplitAgreesBeforeDeadline | src/call.rs:642-652 | before the deadline, for every schedule, the stream answer and the unary answer agree if and only if the script is unary-shaped |
| SplitUnary.SplitAgreesWhenExpired | src/call.rs:1067-1085 | with the deadline passed at dispatch both report it |
| SplitCall.OnlyReceive | src/call.rs:1546-1676 | the only receive of a call performs one read and one status, and its reply is what they gave |
| SplitCall.SplitEqualsSingle | src/call.rs:642-652 | batch by batch: send, any driver progress, receive gives the same message, code and details as the single batch, if and only if the script is unary-shaped; of a success or a refusal the status metadata is the same too, except exactly when a success has trailers; the initial metadata is the same if and only if the library attached just the headers to a success, or any other accepted response had none |
| SplitUnary.SplitMetadataBeforeDeadline | src/call.rs:836-846 | of a unary-shaped success or refusal the status metadata agrees too, except exactly when a success has trailers |
| SplitUnary.SplitHeadersBeforeDeadline | src/call.rs:836-840 | the exact condition under which the initial metadata of the two forms agrees |
| SplitCall.SplitEqualsSingleExpired | src/call.rs:1104-1107 | with an expired deadline the two forms always agree, initial metadata included |
| SplitCall.TwoFormsExist | src/call.rs:642-652 | every new call with time left and every script have a split and a single form to compare, both in time |
| SplitCall.FormsDiffer | src/call.rs:836-846 | for every response that is not unary-shaped the two forms give different answers |
| BatchParser.ParseSendMetadata | src/call.rs:235-254 | accepted exactly when every key is legal and every value a list of strings, and then flattened in order |
| BatchParser.FlattenAt | src/call.rs:237-252 | value k of entry i of a legal array stands under its key right after all values before it, and nothing else is there |
| BatchParser.FlattenByName | src/call.rs:250 | under each name the parsed entries hold its values in the array, in order; every name is a legal key |
| BatchParser.LegalKeyChars | src/call.rs:222-228 | the characters of a legal key, one by one |
| ParsedCall.ParsedEntryIsSent | src/call.rs:889-896 | from ops array to request: each metadata value of the array is sent under its key in its place, whenever the metadata travels |
| ParsedCall.ParsedMessageIsHandedOver | src/call.rs:898-920 | from ops array to request: the bytes of the message are what a successful first batch hands over |
| BatchParser.AddOp | src/call.rs:889-941 | an op is taken exactly when it is legal |
| BatchParser.ParseOps | src/call.rs:873-945 | a batch is accepted exactly when all ops are legal; its flags say which ops are present, and its payloads are those of the last op of their key |
| BatchParser.ReadsOneWay | src/call.rs:886-942 | these conditions fix the batch |
| BatchParser.SwapMattersExactly | src/call.rs:84-98 | the order of two neighbouring ops matters if and only if they parse to the same key with different payloads and no later op has that key |
| BatchParser.OrderOfOpsIsIrrelevant | src/call.rs:886-942 | when the parsed keys are distinct the batch does not depend on the order of the ops |
| CallInvariant.SomeScheduleAnswers | src/call.rs:1612-1636 | every receive an open call begins is answered by some schedule, which need take no time |
| CallInvariant.WaitResult | src/call.rs:1521-1676 | an answered receive has exactly the requested fields and leaves the stream reachable, idle and with the status recorded iff requested |
| CallInvariant.DispatchFrame | src/call.rs:608-736 | no dispatch drops or replaces a stream, reopens its sending half, or touches the sequencing flags; at most one request attempt is added |
| CallInvariant.PerformOk | src/call.rs:498-570 | every batch, step of driver or transport, and cancel keeps the call invariant: one status at most, tied to `finished`; a reachable stream and a sound request queue; nothing strict sent twice; accepted messages accounted for |
| CallInvariant.RunOk | src/call.rs:519-552 | the call invariant holds after every run |
| CallObject.GrpcCall.constructor | src/call.rs:468-486 | a new call is open, empty and valid |
| CallObject.GrpcCall.Cancel | src/call.rs:594-596 | cancels the call and its driver's token, keeping the call valid |
| CallObject.GrpcCall.SendStreamMessage | src/call.rs:1487-1503 | without a sender nothing changes; otherwise the send waits on the four-slot queue while the transport goes on, and appends the message exactly when the transport is still there |
| CallObject.GrpcCall.CloseStreamSend | src/call.rs:1506-1510 | drops the sender and nothing else |
| CallObject.GrpcCall.SendOnStream | src/call.rs:611-618 | the message first, then the half-close; a failed send closes nothing |
| CallObject.GrpcCall.StartStream | src/call.rs:1089-1279 | an expired deadline leaves a finished stream without sender or request, a bad path leaves none, otherwise a driver is launched |
| CallObject.GrpcCall.ReceiveOnStream | src/call.rs:1513-1677 | a receive on an open stream always returns, with the answer of some schedule |
| CallObject.GrpcCall.ForwardToStream | src/call.rs:611-618 | send operations on the active stream |
| CallObject.GrpcCall.OpenBidiStream | src/call.rs:619-631 | the first message without a half-close opens a bidi stream with the metadata buffered before |
| CallObject.GrpcCall.BufferSends | src/call.rs:632-653 | anything else is buffered, and dispatched at once if it half-closes |
| CallObject.GrpcCall.DispatchSends | src/call.rs:610-656 | send-only batches: forward, open a bidi stream, or buffer and dispatch eagerly, as the route table says |
| CallObject.GrpcCall.SendHalf | src/call.rs:660-673 | the send half of a receive batch, which leaves an open stream ready to be received from |
| CallObject.GrpcCall.DispatchOnStream | src/call.rs:658-675 | a receive batch on the active stream, as the route table says |
| CallObject.GrpcCall.ResolveRequest | src/call.rs:685-702 | the request comes from the batch if it sends, otherwise out of the buffers; the plugin is asked only if it sends |
| CallObject.GrpcCall.RunUnary | src/call.rs:739-870 | the one-batch call, recorded with whether its request went out |
| CallObject.GrpcCall.DispatchOneShot | src/call.rs:704-713 | the unary route |
| CallObject.GrpcCall.StreamThenReceive | src/call.rs:716-731 | launch and receive in one batch |
| CallObject.GrpcCall.DispatchLazy | src/call.rs:715-731 | the late server-stream route of a half-closed call |
| CallObject.GrpcCall.DispatchBatch | src/call.rs:608-736 | the routing of every batch equals the route table, and always returns |
| CallObject.GrpcCall.CheckRefusal | src/call.rs:499-536 | closed channel, cancelled call, finished call and second initial metadata are refused, in that order; an empty batch is not |
| CallObject.GrpcCall.MarkFlags | src/call.rs:528-541 | flags set before dispatch |
| CallObject.GrpcCall.SettleBatch | src/call.rs:548-552 | a successful batch with RECV_STATUS finishes the call; a failed one does not |
| CallObject.GrpcCall.Submit | src/call.rs:498-570 | `startBatch` keeps the call valid and equals its specification for some schedule of driver and transport |
| CallTheorems.NoLooseRequests | src/call.rs:733-735 | disciplined receives never add a loose request |
| CallTheorems.AtMostOneRequest | src/call.rs:608-736 | over every run at most one request reaches the wire if each receive without a stream asks for the status or follows the half-close; any further one is a loose one-batch call |
| CallTheorems.LooseReadsRepeat | src/call.rs:733-735 | the hypothesis is needed: k loose reads put k requests on the wire, for every k |
| CallTheorems.ExpiredSendsNothing | src/call.rs:142-147 | a call whose deadline has passed puts nothing on the wire in any run |
| CallTheorems.RunEvolves | src/call.rs:519-541 | over every run a stream is never dropped or replaced, a closed sending half takes nothing more, initial metadata is accepted once, and a status is the last word |
| CallTheorems.RunIsTidy | src/call.rs:619-653 | in a run without a failed batch, half-closed implies a stream or a finished call, and no request message stays buffered |
| CallTheorems.AtMostOneStatus | src/call.rs:519-526 | at most one status per call; then every batch with an op is refused and changes nothing; before, an active stream can still report one |
| CallTheorems.SequencingExactly | src/call.rs:519-536 | over every run a batch is one operation too many if and only if the status was reported before, or it carries initial metadata after some was accepted |
| CallTheorems.CancelledForGood | src/call.rs:504-509 | a cancelled call stays so over every run: nothing more is sent or reported, and every batch is refused as cancelled |
| CallTheorems.CancelCancels | src/call.rs:594-596 | a cancel, and a one-batch call that loses its race to one, make the call cancelled |
| CallTheorems.ReceiveKind | src/call.rs:704-735 | a receive without a stream reads a new stream if and only if the call is half-closed and it does not ask for message and status together; otherwise it is a one-batch call |
| CallTheorems.SendKind | src/call.rs:610-653 | a send-only batch without a stream starts one if and only if it half-closes or has a message, open for more exactly if it does not half-close |
| CallTheorems.BuffersBounded | src/call.rs:32 | over every run at most 32 messages wait for PHP and at most 4 for the transport |
| HandOver.AcceptedExactlyHandedOver | src/call.rs:692-696 | over every run, failed batches included: the messages handed over to one-batch calls and the stream outnumber the accepted ones by the successful receive-only batches that found a message in the buffer; the two agree, each once and in batch order, if and only if there was none |
| HandOver.AcceptedIsHandedOver | src/call.rs:610-735 | so they agree in every run in which no half-closed batch without a stream fails in its plugin, in particular without a failed batch |
| CallInvariant.BufferExactly | src/call.rs:632-652 | what a dispatch leaves in the metadata and message buffers; from an empty buffer a message stays if and only if a half-closed batch without a stream failed in its plugin |
| HandOver.FailedBatchIsSent | src/call.rs:692-696 | a message so left is handed over by the next receive, for every message and every such receive |
| CallTheorems.RequestStreamOrder | src/call.rs:1314-1318 | over every run, failed batches included: the accepted messages are, in batch order, those of answered one-batch calls, then of the stream's request, then those queued for the transport; the transport has taken a prefix of the queue and takes none back; once it has seen the half-close it has taken all of them and no later batch adds one |
| RequestStream.RequestsArriveInOrder | src/call.rs:1314-1318 | over every run the transport takes a prefix of the accepted messages in order; when it sees the half-close it has taken all of them, and nothing is accepted afterwards |
| RequestStream.SendResult | src/call.rs:1499-1500 | a send is accepted exactly when the transport is still there at its end, and is then next in order |
| SendStall.OnlyTransportHelps | src/call.rs:1406-1414 | with PHP blocked in a send and the driver parked on a full response buffer, the only thing possible at any time is that the transport takes a request message or leaves |
| SendStall.StallEndsExactly | src/call.rs:1499-1500 | over everything that can happen meanwhile the send can end if and only if something happened, which begins with the transport taking a message or leaving; the response stream stays still, deadline and cancel unseen |
| SendStall.FullQueueSend | src/call.rs:1499-1500 | a send on a full queue ends by exactly the non-empty runs of the transport, and they begin with taking a message or leaving |
| SendStall.StalledBatch | src/call.rs:611-615 | on a full queue a batch with a message returns only if the transport first takes a message or leaves |
| SendStall.JointWaitIsReached | src/call.rs:1489-1502 | every new bidi call with time left, against every response longer than the buffer, reaches the joint wait by a run in which PHP only sends, with exactly 32 messages waiting for it and 4 for the transport |
| SendStall.ParkingIsReached | src/call.rs:1406-1414 | every response longer than the buffer parks its driver if PHP does not read |
| SendStall.QueueFills | src/call.rs:1314-1316 | on every call with an open sending half the queue fills up if PHP keeps sending and the transport does nothing |
| RequestStream.Send | src/call.rs:1487-1503 | a send ends against any behaviour of a transport that keeps taking or leaves; it fails exactly when the transport has left, and otherwise its message is next in order |
| CallTheorems.HalfCloseFollowsMessage | src/call.rs:661-673 | a half-close in the same batch comes after the message and ends the request stream for every later run |
| CallTheorems.ExpiredBidiRefusesSends | src/call.rs:627-630 | opening a bidi call after its deadline fails the first send and keeps the deadline status |
| CallReports.FirstRequestMetadata | src/call.rs:619-652 | the first request starts with the accepted initial metadata if it was buffered before a bidi start, or comes in the batch that dispatches any other way, or is empty; otherwise the request carries plugin entries only; without a plugin an equivalence; the plugin's answer to a batch that sends comes last |
| CallReports.MetadataWithMessageIsLost | src/call.rs:619-631 | for every new call, metadata and message: sent in one batch without half-close, the metadata is accepted and the request carries none |
| CallReports.MetadataBeforeMessageIsLost | src/call.rs:632-652 | for every new call, metadata and message: metadata in an earlier batch than the half-closed send is accepted and the request carries none |
| CallReports.CallDeadlineSound | src/call.rs:1057-1107 | on every path of every run, a DEADLINE_EXCEEDED no server sent means a real deadline that has passed |
| MetadataGroups.FindGroup | src/call.rs:332-337 | the first group of a key |
| MetadataGroups.AddEntry | src/call.rs:303-338 | one more entry keeps the grouping |
| MetadataGroups.CollectMetadata | src/call.rs:301-340 | one group per key with a decodable value, in order of first decodable appearance, holding exactly its decodable values in order |
| MetadataGroups.DecodedInOrder | src/call.rs:303-331 | the values of a group stand in the order of the entries, one for each that decodes |
| MetadataGroups.GroupingIsUnique | src/call.rs:285-300 | these conditions fix the result: no value is lost, duplicated or moved |
| MetadataGroups.MetadataToPhp | src/call.rs:363-385 | PHP sees exactly the groups of keys that are not transport headers, in the same order |
| MetadataGroups.DetailsShownOnce | src/call.rs:394-403 | non-empty status details reach PHP in exactly one place, under their key; every other group is shown exactly when it would be without them, and in the same order |
| MetadataGroups.StatusIsShown | src/call.rs:394-403 | the metadata of a status is its own, with non-empty details as the only value of their key |
| MetadataGroups.InsertAll | src/call.rs:782-795 | a header loop: the last parsable writer of each name wins |
| MetadataGroups.RequestHeaders | src/call.rs:1041-1055 | headers are the last-writer fold over sent, then plugin entries |
| MetadataGroups.HeadersAreDetermined | src/call.rs:633-652 | the headers depend only on the concatenated entries, so buffering plugin entries first changes nothing |
| MetadataGroups.PluginTwice | src/call.rs:621-640 | whatever a plugin asked twice answers, the second answer wins for each name it writes; a header is as if only the second had been added if and only if the second writes it, the first does not, or the first wrote what was sent anyway |
| CallReports.PluginAskedTwice | src/call.rs:619-640 | for every new call: buffering metadata and then opening a bidi stream asks twice, the request carries the metadata and both answers, and the headers are as stated above |
| Deadline.DeadlineSitesAgree | src/call.rs:123-147 | all sites agree on what a real deadline is; the race instant is max(now, deadline) without overflow; the sent timeout is at least 1; expired at entry means the race is over |
| Timeval.ShiftsKeepOrder | src/timeval.rs:94-128 | add and subtract are monotone in their receiver, infinite receivers included |
| Timeval.CompareOrders | src/timeval.rs:94-100 | comparison orders times as their microseconds |
| Timeval.SubtractUndoesAdd | src/timeval.rs:102-128 | subtract undoes add if and only if the receiver is infinite, or the sum stays finite and the kinds agree |
| Timeval.SimilarIsDistance | src/timeval.rs:89-92 | similar compares exact distances cut off at the largest value, and is symmetric |
| Timeval.SpanDeadline | src/timeval.rs:42-52 | now plus a span and the bare span are the same deadline, except exactly at the ends of the range |
| ChannelKey.SortCorrect | src/channel.rs:97 | the parts are sorted and none is lost or added |
| ChannelKey.KeyIgnoresOrder | src/channel.rs:71-97 | the key is invariant under permuting the arguments |
| ChannelKey.DecimalRoundTrip | src/channel.rs:145-149 | the decimal text of a number reads back as that number |
| ChannelKey.KeySeparates | src/channel.rs:145-149 | equal keys force equal targets, credential ids and argument texts, unless one target is forged from the other |
| ChannelKey.TargetsCollideExactly | src/channel.rs:145-149 | two different targets can meet under one key if and only if one is forged from the other |
| ChannelKey.ForgedCollides | src/channel.rs:146-149 | a forged target meets its source under one key, whatever its credentials and arguments |
| ChannelKey.ForgeryIsExact | src/channel.rs:146-149 | the key of a channel also belongs to a shorter target if and only if its target forges |
| ChannelKey.KeyIsCanonical | src/channel.rs:141-152 | for plain arguments, and targets not forged from each other, keys are equal if and only if target, credentials and arguments are |
| ChannelKey.EqualsInNameCollides | src/channel.rs:95-97 | a '=' in an argument name always collides: the part reads as a shorter name |
| ChannelKey.SeveralArgsCollide | src/channel.rs:95-97 | two or more arguments always collide: the last two parts read as one argument with a ',' in its value |
| ChannelKey.ArgsAreAmbiguousExactly | src/channel.rs:95-97 | other arguments give the same key if and only if there are two or more, or one with a '=' in its name or value |
| Registry.ReadArgsExact | src/channel.rs:67-96 | args are accepted exactly when legal, and force_new is noticed exactly when asked for |
| Registry.PairsExactly | src/channel.rs:71-96 | the pairs read are exactly the arguments other than credentials and force_new, each once and in order, under its key and with its text |
| Registry.IntTextRoundTrip | src/channel.rs:86-87 | the text of an int argument reads back as that int, sign included |
| Registry.ConstructsExactly | src/channel.rs:62-288 | a construction succeeds exactly for legal arguments and proper credentials with a good endpoint or a stored transport; a failed one changes nothing |
| Registry.ChannelRegistry.ParseArgs | src/channel.rs:70-96 | the argument loop, stopping at the first illegal one |
| Registry.ChannelRegistry.NextCredentialsId | src/credentials.rs:32-35 | a fresh id per credentials object |
| Registry.IdsAreFresh | src/credentials.rs:32-35 | over every run each credentials object gets an id of its own |
| Registry.ChannelRegistry.Open | src/channel.rs:62-288 | constructing a channel: refuse, reuse the stored transport, or make one and store it if it has a key |
| Registry.ChannelRegistry.Close | src/channel.rs:374-378 | closes one wrapper |
| Registry.RegistryRuns | src/channel.rs:141-169 | over every sequence of constructions and closes a key keeps its transport and a wrapper keeps its own |
| Registry.SharingIsByKey | src/channel.rs:267-273 | two wrappers share a transport if and only if both are persistent with the same key |
| Registry.CredentialsNeverShare | src/credentials.rs:25-28 | channels of different credentials or targets never share, unless one target is forged from the other |
| Registry.ForgedTargetShares | src/channel.rs:154-169 | in every world, opening the source of a forged target and then the forged target gives both one transport, across credentials |
| Registry.PlainSharing | src/channel.rs:21-24 | plain persistent channels share exactly when target, credentials and arguments are the same |
| Registry.ConstructionsShareExactly | src/channel.rs:145-169 | two constructions from argument arrays, whatever happens in between, share a transport if and only if targets, credentials and the multisets of arguments agree, for plain arguments and unforged targets |
| Registry.UnkeyedStaysOut | src/channel.rs:141-152 | plugin and force_new channels get a transport of their own and leave the table alone |
| Session.CallsAreIndependent | src/call.rs:468-486 | over every interleaving of channel steps and acts on calls, each call makes exactly the run of its own acts |
| Session.CallsNeedTheirChannel | src/call.rs:453-461 | a call can be made on a channel object if and only if it was not closed, and is then new and bound to it |
| Session.NewCallIsReady | src/call.rs:468-486 | a new call takes any batch, has nothing buffered and is not half-closed |
| Session.OpenUntilClosed | src/channel.rs:374-378 | a channel object is open until it is closed itself, whatever happens to others, and keeps its transport |
| Session.RefusedExactlyWhenClosed | src/call.rs:499-503 | a batch is refused for its channel if and only if the channel object its call was made from was closed, whatever happened to others on the same transport |
| Session.ClosedForGood | src/call.rs:499-503 | after that no batch of any later run changes what the call has sent or reported |
| Session.SharersStayOpen | src/channel.rs:374-378 | closing one channel object leaves every other on the same transport open |
| Connectivity.SharedChannel.GetConnectivityState | src/channel.rs:318-338 | reports the state as it was; an idle channel asked to connect starts a probe |
| Connectivity.SharedChannel.FinishProbe | src/channel.rs:328-335 | a finished probe sets the state |
| Connectivity.SharedChannel.RecordUnary | src/call.rs:858-867 | a unary outcome sets the state |
| Connectivity.SharedChannel.RecordResponse | src/call.rs:1179-1187 | a stream response sets the state |
| Connectivity.ConnectivityRuns | src/channel.rs:320-338 | over every interleaving the state is legal, IDLE never comes back, and at most one probe is ever started |
| Connectivity.LastNewsDecides | src/channel.rs:330-334 | after every run the state is READY or TRANSIENT_FAILURE by the last probe or call outcome |
| Connectivity.WaitFor | src/channel.rs:366 | each pause is 1 to 10000 microseconds and never passes the deadline |
| Connectivity.WatchConnectivityState | src/channel.rs:345-371 | the watch ends; true only on an observed different state, false only at or after the deadline with every observed state equal |

## Left out

- The transport library, TLS, name resolution (`getPeer`) and the runtime: replaced by scripts, schedules and a clock.
- PHP binding details: conversion of values, exception classes, property order, return types, constants and ini entries.
- The identity codec, endpoint tuning arguments, default root certificates and composite call credentials: only easy members.
- Base64 of binary metadata values and header name and value syntax: an entry carries its decoded value or none, and a header parser is a parameter.
- Message size limits: a message over the limit is an error status of the script.
- Dropping a call object while its driver runs: the driver's send to a vanished reader is not modelled.
- Plugin callbacks that re-enter the call, and threads.
- Wrap-around of the 64-bit credential id counter: ids are unbounded.
- The link from call outcomes to the connectivity state of their transport: `Connectivity` takes the outcomes as given.
- CallObject.GrpcCall.RunUnary: the races of the one-batch call are one choice record on values, not a loop.
- Connectivity.WatchConnectivityState: the shared state is an arbitrary function of the poll number, and a sleep may be longer than asked.
