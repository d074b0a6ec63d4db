# A verified model of the Electrum client

The client talks to an Electrum server over connections that come and go; the end of one may overlap with the beginning of the next. Any number of tasks share the client: callers draw request ids from an atomic counter, record each request in an inventory behind a mutex, and push events into a bounded queue; one sender task per connection drains the queue onto the wire; one receiver task per connection reads lines, matches responses to the inventory, broadcasts them with the type that the request asks for, and retires the id; callers scan the broadcast for their own id. The counter, the inventory and the queue outlive every connection.

This project models that core and proves what it guarantees against any server, any interleaving of tasks and any sequence of reconnects.

## How it is built

| files | content |
|---|---|
| `Base`, `Methods`, `Messages`, `Headers`, `Responses` | the message layer: JSON-RPC messages and their untagged encoding, method names, hexadecimal text, 80-byte block headers, the typed reading of a response against the stored request |
| `Readings` | what documents, results and notifications mean, as relations apart from the readers, and that the client reads exactly that |
| `Server` | the other side of the wire: a server written against the Electrum protocol, which reads requests and writes answers and notifications in every form the protocol leaves open |
| `Lines`, `Framing`, `JsonText` | newline framing, the text of a request, batches and their buffer; a reader of compact JSON text written apart from the printer |
| `Machine` | the client as a step machine: one step is one atomic operation, one lock region without an await in it, or one channel operation; history variables record draws, insertions, retirements, received lines, enqueued and taken messages |
| `Frames`, `Ids`, `Publishing`, `Queues`, `Transmission`, `Acknowledgements`, `Liveness`, `Losses`, `Growth` | the invariants, one concern a file, each kept by every step; which requests are lost; and what only grows along a run |
| `Endings`, `Replies`, `Announcing`, `Understanding`, `Progress` | over whole runs: how receivers and senders end, that awaited messages are answered truly, that notifications are passed on, what servers make of the wires, and what can always still happen |
| `RpcTable`, `Refinement`, `Runs`, `Guarantees`, `Agreement`, `PartialBatch` | the simple view (a table in which every request is answered at most once, with a response of its own type), the refinement of whole runs, what follows from it, and a short run in which a batch is sent in part |
| `Waiters`, `Subscriptions`, `Calls`, `Client` | the two waiting loops over the broadcast channel, the set of active subscriptions, how a call ends, and the client object with the methods that callers and tasks execute |

The class `Client` has the fields that the tasks share. Each of its methods takes as inputs what the outside decides: the steps other tasks take while this one is suspended, how often a waiting task is resumed before its time runs out, whether a write succeeds. Every change to a shared field is a step of the machine, so `Valid()` says that the state is one that a run of the machine reaches, and the results about runs hold in every method. `Extends(old(View()), View())` says in every contract that the method goes on from where it began: no record is taken back, and calls that have returned stay as they are. `world` is everything outside those fields: the suspended calls, the connections and the history.

Where a result is stated with `InBound`, the run draws at most 2^64 ids in all. `Runs.DrawRepeatsIff` proves, without that bound, that this is exactly the point at which an id is handed out a second time.

## What the code does where one might expect something else

The model follows the code. These points come out of it as theorems.

- A null result, which servers send for a script without history, reads as no result at all (an explicit null of an optional member is the same as a missing one). The receiver then removes the id and publishes nothing, so the caller waits until its timeout. A ping, whose answer is null, is an example. The arm for a null response in the script subscription (src/client.rs:764) is never taken, and a published script status is never empty. See `Responses.NullResultIsSilent`, `Runs.NullResultSilences`, `Readings.SilenceIsExact` and `Server.AnswerIsPublished`; `Responses.PublishedAnswers` has the positive half.
- An error, or a result of the wrong shape, retires its id just as silently (`Runs.FirstLineDecides`): the first line that answers an id decides for the rest of the run.
- A header list that claims more headers than it carries makes the slicing panic, exactly when 80 times the count exceeds the number of bytes (`Responses.PanicsExactly`, with an input in `Server.ShortListPanics`). The receiver task dies, and the entry stays pending (`Endings.RunCrashesIff`: a receiver is dead if and only if it was given such a line). A receiver that dies this way asks for no Close, so the status stays as it was.
- A receiver that reaches the end of its stream enqueues a Close unless the connection is given up already, but a full queue refuses it, and it is not tried again (`Endings.RunClosesTruly`); the status then stays as it was.
- A write that fails leaves the status Connected. This is the exception in `Liveness.ConnectedOk` and `Guarantees.RunServesConnected`, and `PartialBatch.FailedIsConnected` is a run that ends so.
- A waiter that falls out of the channel's window of 1024 gets no response, and a batch waiter then returns what it has so far as a success. `Waiters.ScanFailsIff` and `Waiters.GatherCutsIff` say exactly when; a collection that was cut off is always short (`Waiters.CutIsShort`), so a batch of histories has one for each script if and only if the waiter never lagged (`Guarantees.RunGatherFinds`, `ClientTasks.Client.BatchGetHistory`). `Waiters.LaggingWaiterLoses` is an input at which both lose a response that was there.
- The emptiness test of a batch waiter is inside its loop: with no ids to wait for it still waits for some response (`Waiters.CollectingHasLooked`, `Waiters.GatherFinds`).
- Batch results come in the order of arrival.
- The parameter of a transaction broadcast is the array of the transaction's bytes (src/types/mod.rs:133-136), where `blockchain.transaction.broadcast` of the Electrum protocol has its hexadecimal text. Every request but this one is understood by a server, from the characters of its line on (`Server.RequestIsUnderstood`, `Understanding.RunIsHeard`); of a broadcast exactly the bytes arrive (`Server.BroadcastIsMisread`).
- A notification that a script has no status any more is dropped, since the field cannot be null (src/types/mod.rs:563-570); every other notification is passed on (`Server.NotificationIsPublished`).
- A call that is told MessageNotSent may have had some of its requests sent: the last one is on no wire (`Guarantees.RunRefusesTruly`), but a batch whose write failed may have sent those before it, as in the run of `PartialBatch.RefusedBatchIsPartlySent`. A call with a single request that is told so has sent nothing (`Guarantees.RunRefusesSingle`).
- A batch subscription that meets a script already in the set sends nothing, but leaves the scripts before that one in the set (`ClientTasks.Client.BatchScriptSubscribe`).
- After a connect with the headers subscribed, the batch of scripts is not begun before the header request was refused or answered (`ClientTasks.Client.Resubscribe`), and that wait has no timeout.

## Model

| member | source | states |
|---|---|---|
| Methods.MethodNameReadsBack | src/types/method.rs:37-98 | the two tables agree: a string is read as a method if and only if it is that method's printed name |
| Base.HexReadsBack | src/types/mod.rs:414-421 | reading hexadecimal text undoes writing it |
| Base.DecimalReadsBack | src/types/mod.rs:233-237 | the decimal text of an integer is digits only and has its value |
| Messages.ParamReadsBack | src/types/mod.rs:61-77 | a parameter reads back in the narrowest of the integer forms that fits, every other form unchanged |
| Messages.ReadsBack | src/types/mod.rs:172-225 | every message reads back as the same kind of message, in canonical form, although reading tries the three kinds in turn |
| Messages.CanonIsStable | src/types/mod.rs:61-77 | the canonical form is a fixed point and is written exactly as the message itself |
| Messages.CanonicalIffRead | src/types/mod.rs:172-225 | reading yields the canonical messages and no others |
| Headers.HeaderReadsBack | src/types/mod.rs:443-449 | decoding an encoded 80-byte header gives the header back |
| Headers.HeaderBytesReadBack | src/types/mod.rs:443-449 | every 80 bytes are the encoding of the header they decode to |
| Headers.SlicesAreTheBytes | src/types/mod.rs:269-280 | the sliced headers re-encode to the first 80 bytes times the count |
| Headers.SliceHeaders | src/types/mod.rs:269-280 | the loop, on 64-bit indices that would wrap around, panics if and only if the bytes run out, and otherwise returns exactly the headers whose encoding is the leading bytes |
| Headers.FirstHeaderIsRead | src/types/mod.rs:443-449 | an input from the chain: the eighty bytes of the first block's header are read as that header, field by field |
| JsonText.TextIsRead | src/types/mod.rs:233-237 | the text written for any request is read, by a reader of JSON apart from the printer, as exactly the document the request encodes to: every member with its name and value, in order, and nothing else |
| Understanding.RequestIsHeard | src/types/mod.rs:97-145 | the text of a request is heard by a server as that request under its own id if and only if it is not a broadcast; of a broadcast exactly the transaction's bytes are heard |
| Server.RequestIsNamed | src/types/method.rs:37-66 | every request goes out as version 2.0, with its id, under the name the protocol has for it |
| Server.RequestIsUnderstood | src/types/mod.rs:97-145 | a request is read by a server as the request it is, with its arguments in their places and under its own id, if and only if it is not the broadcast of a transaction; a broadcast is not read at all |
| Server.BroadcastIsMisread | src/types/mod.rs:133-136 | the one parameter of every broadcast is the array of exactly the transaction's bytes, one number a byte, and no server reads it |
| Server.TxidReadsBack | src/types/mod.rs:137-137 | a transaction id is read back from the reversed text it is written as |
| Server.HeadersReadBack | src/types/mod.rs:269-280 | slicing the concatenation of any encoded headers gives those headers back |
| Server.EntryReadsBack | src/types/mod.rs:452-461 | a history entry is read back field by field, whether a missing fee is left out or written as null |
| Server.FeaturesReadBack | src/types/mod.rs:487-491 | server features are read back field by field, whichever of the optional ones are left out or written as null |
| Server.ResultReadsBack | src/types/mod.rs:259-331 | every response of the variant a request asks for, except to a ping, is read back field by field from the result that a server writes for it, in whichever style, and that result is not null |
| Server.AnswerIsPublished | src/client.rs:341-368 | a server's answer to a pending id, in any document with that id, a version and the result, in any order and among any other members, retires it and publishes exactly the response the server meant, unless that is the answer to a ping or the absent status of a script, and then nothing |
| Server.SilentAnswer | src/client.rs:344-368 | an answer without a result or with null, with or without an error, to anything pending retires the id and publishes nothing |
| Server.WrittenAnswerIsPublished | src/client.rs:341-368 | the same for the documents servers write, a result without an error member |
| Server.WrittenErrorIsSilent | src/client.rs:341-368 | a document with an error and no result member retires the id and publishes nothing |
| Server.NotificationIsPublished | src/types/mod.rs:333-354 | a server's notification is read as it was meant, whatever is pending, if and only if it is not about a script without status; then it is dropped |
| Announcing.RunAnnounces | src/client.rs:370-382 | at every moment of every run, bounded or not, the notices broadcast so far are, in order, exactly what the lines given to the receivers announce |
| Readings.OnceIsFound | src/types/mod.rs:172-217 | a member is found with a value if and only if the document has its name once, with that value |
| Readings.DecodeIsExact | src/types/mod.rs:172-225 | every document, whatever the order of its members and whatever else it holds, is read as the message it means: a request if it is one, otherwise a response, otherwise a notification, and as nothing else; a missing optional member is a null one |
| Readings.HexIsExact | src/types/mod.rs:414-421 | bytes are read from exactly the texts that spell them, in either case of letters |
| Readings.ResultIsExact | src/types/mod.rs:259-331 | every result, in answer to every request, is read as a response if and only if it means that response: records by name or by position, optional fields missing or null, header lists as the leading bytes |
| Readings.PanicIsExact | src/types/mod.rs:269-280 | reading panics if and only if the request is for headers and the list claims more than it has bytes for |
| Readings.NotificationContentIsExact | src/types/mod.rs:333-353 | every notification is read as the notice it means, and as no other |
| Readings.PublicationIsExact | src/client.rs:341-368 | a line retires an id and publishes a response if and only if the id is pending and the line responds to it with a result that means this response to its request |
| Readings.SilenceIsExact | src/client.rs:341-368 | a line retires an id in silence if and only if the id is pending and the line responds to it without a result, or with one that means nothing to its request and does not panic |
| Readings.AnnouncementIsExact | src/client.rs:370-382 | a line announces a notice if and only if it is a notification that means it |
| Readings.MissAndPanicAreExact | src/client.rs:363-366 | a line misses the inventory if and only if it responds to an id that is not pending, and panics if and only if it responds to a pending request for headers with a list that claims too many |
| Responses.DecodedHasNoNull | src/types/mod.rs:186-196 | no message that was read carries an explicit null result |
| Responses.PublishedAnswers | src/types/mod.rs:259-331 | what is published for a request has the variant its caller expects, a header list is complete with its raw bytes emptied, a script status is never empty |
| Responses.NullResultIsSilent | src/client.rs:346-361 | a null or missing result publishes nothing |
| Responses.PanicsExactly | src/types/mod.rs:269-280 | reading a response panics if and only if a header list claims more than it holds |
| Server.ShortListPanics | src/types/mod.rs:271-275 | an input: a list that claims one header and holds none panics, and the id stays pending |
| Responses.PublishedHeadersAreTheBytes | src/types/mod.rs:269-280 | a published header list re-encodes to the leading bytes of the text it came from |
| Lines.LinesOfStream | src/types/mod.rs:233-237 | splitting a stream at its newlines recovers exactly the texts, whatever unfinished piece follows |
| Lines.CutStream | src/client.rs:420-441 | a write that stops early leaves whole lines and a piece of one more |
| Framing.TextIsOneLine | src/types/mod.rs:233-237 | the text of a request holds no raw newline |
| Framing.TextShowsId | src/types/mod.rs:172-217 | the id can be read off the head of the text of a request |
| Framing.TextsDiffer | src/types/mod.rs:172-217 | requests with different ids have different texts |
| Framing.AsBytes | src/types/mod.rs:233-237 | the bytes of any message are its text and a newline, and for a request they are its line on the wire |
| Framing.FillBatch | src/client.rs:454-462 | the buffer of a batch is the stream of its requests' lines, anything but a request left out |
| Framing.FillBuffer | src/client.rs:415-462 | the buffer of an event is the stream of its requests' lines |
| Framing.GroupingIsInvisible | src/client.rs:413-482 | however messages are grouped into single sends and batches, the lines on the wire are their texts in order |
| Framing.BatchIsSingles | src/client.rs:449-464 | a batch of n requests is written exactly as n single sends |
| Ids.StepKeepsIds | src/client.rs:341-369 | every step keeps: each unrecorded id is held by the call that drew it, inventory and retired ids are disjoint and together are the recorded ones, each call's ids increase, the inventory lock has one holder |
| Publishing.StepKeepsPublish | src/client.rs:341-369 | every step keeps: a retired id was retired by a received line that answers its recorded request, and the log holds exactly what those lines read as |
| Publishing.AtMostOnce | src/client.rs:342-368 | in a state with that invariant no two published responses share an id |
| Publishing.PublishedIsTyped | src/client.rs:345-360 | a published response is the typed reading of a received line with that id against the request recorded under it |
| Publishing.PublishedIff | src/client.rs:346-361 | a retired id has a published response if and only if the line that retired it reads as a typed response other than null |
| Queues.StepKeepsQueue | src/client.rs:530-538 | every step keeps: the queue is first in, first out within its capacity, each call and each receiver enqueues at most once, and each message says what its source had to say |
| Queues.EventPayload | src/client.rs:559-639 | the requests of an enqueued event are those of its call, id by id and in order |
| Transmission.WireLines | src/client.rs:415-464 | the complete lines of a wire are the texts of the requests sent there |
| Transmission.StepKeepsTransmission | src/client.rs:410-509 | every step keeps: one sender at a time owns the queue, each connection has at most one turn, and what was sent is a subsequence of what was taken |
| Transmission.CutShortOk | src/client.rs:431-441 | a failed write leaves whole requests and a piece on a wire that nobody writes to again |
| Acknowledgements.StepKeepsAcks | src/client.rs:415-482 | every step keeps: an acknowledgement of success is backed by a complete write, a result of success by an acknowledgement or, without waiting, by a place in the queue |
| Acknowledgements.NothingIsSkipped | src/client.rs:416-447 | no message that a caller enqueues is dropped without an answer |
| Acknowledgements.SuccessWasWritten | src/client.rs:568-585 | a waited send that returned successfully has all of its requests side by side on one wire |
| Replies.StepKeepsReplied | src/client.rs:464-482 | every step keeps: each message that a call waits for and that has been dealt with has its acknowledgement |
| Replies.RunReplies | src/client.rs:464-482 | at every moment of every run, a taken message that a call waits for is in its sender's hands or acknowledged, with success if and only if all of its requests are lines on the wires |
| Replies.RunReplyDecides | src/client.rs:571-585 | whenever a call takes its acknowledgement it returns success if its requests are whole on one wire, and MessageNotSent if not |
| Losses.StepKeepsLoss | src/client.rs:413-504 | every step keeps: each message a sender has dealt with is on the wires request by request or its write failed, a failed connection fails one message and its last request is on no wire, and a call is told of a failure only if its own write failed |
| Losses.PresentIffNotFailed | src/client.rs:413-504 | a message that was dealt with is on the wires, every request of it, if and only if its write did not fail |
| Losses.StepKeepsRefused | src/client.rs:530-590 | every step keeps: a call that was told MessageNotSent was refused by the queue or got the negative acknowledgement |
| Losses.RefusedIsUnsent | src/client.rs:571-585 | the last request of a call that was told MessageNotSent is on no wire |
| Growth.StepExtends | src/client.rs:147-158 | no step takes back a record or changes a call that has returned, and nothing is enqueued for one |
| Growth.RunKeepsSources | src/client.rs:530-538 | on any run, bounded or not, whoever drew an id is a call of the run, and each message says what its source had to say |
| Liveness.StepKeepsConnected | src/client.rs:304-310 | every step keeps: while the status is Connected the latest connection is served or its write failed |
| Endings.RunClosesTruly | src/client.rs:541-547 | over every run, a receiver that is gone was aborted and enqueued nothing, or it looked at the status: if that was Disconnected or Stopped it enqueued nothing, and otherwise exactly one Close, unless it found the queue full |
| Endings.RunLooksOnce | src/client.rs:404-407 | over every run, a receiver looks at the status at most once |
| Endings.RunHonoursClose | src/client.rs:483-488 | over every run, a sender that has taken a Close has it in hand or has recorded Disconnected and left its loop for good |
| Endings.RunHonoursStop | src/client.rs:489-501 | over every run, a sender that acts on a Stop with the flag set records Stopped, clears the flag, broadcasts the stop and leaves its loop, in this order |
| Endings.RunIgnoresStop | src/client.rs:489-501 | without the flag a Stop changes no status and the sender goes on draining the queue |
| Endings.RunEndsThus | src/client.rs:410-509 | over every run, a sender that has left its loop had a write fail, honoured a Close, or went through with a Stop |
| Endings.RunCrashesIff | src/types/mod.rs:269-280 | over every run, a receiver is dead if and only if it was given a line that responds to a pending request for headers with a list that claims too many |
| Liveness.ClosesAreBounded | src/client.rs:540-547 | no more Close events are ever enqueued than connections were made |
| RpcTable.TableRunSafe | src/client.rs:341-369 | every run of the table publishes at most once per id |
| RpcTable.TableRunForward | src/client.rs:341-369 | along every run of the table ids only move forward, pending requests do not change, and publications stand |
| Refinement.StepKeepsInv | src/client.rs:295-528 | every step keeps the whole invariant |
| Refinement.RunKeepsInv | src/client.rs:295-528 | every state of a bounded run has the whole invariant |
| Refinement.StepRefines | src/client.rs:341-369 | every step of the machine is one operation of the table, allowed there, or leaves the table as it is |
| Runs.RunRefinesTable | src/client.rs:341-369 | every bounded run, with any callers, connections and server lines, is a run of the table in which ids go from fresh to reserved to pending to retired and only the last move publishes, an answer to the pending request |
| Runs.OneResponsePerId | src/client.rs:342-368 | over a whole run at most one response is broadcast per id, however often servers repeat, reorder or invent ids |
| Runs.IdsMoveForward | src/client.rs:559-610 | between any two moments of a run ids only move forward and nothing published is taken back |
| Runs.FirstLineDecides | src/client.rs:344-368 | the first line that answers a pending id decides for good whether and with what it is answered |
| Runs.NullResultSilences | src/client.rs:346-368 | after a null result nothing is ever published under that id |
| Runs.RunConservesIds | src/client.rs:342-368 | at every reachable state the ids drawn are held, pending or retired, and their numbers add up |
| Runs.IdsAreConserved | src/client.rs:560-610 | held, pending and retired ids are disjoint and together are all ids drawn; insertions equal pending plus retired |
| Runs.DrawRepeatsIff | src/client.rs:560-560 | on any run, the next id was drawn before if and only if 2^64 ids have been drawn |
| Runs.RunKeepsLocked | src/client.rs:601-610 | on any run, only a batch that is filling the inventory holds its lock |
| Runs.BatchesAreSeenWhole | src/client.rs:601-610 | whenever a response can be looked up, no batch is half recorded |
| Runs.QueueSurvives | src/client.rs:410-413 | only the owner of the queue takes from it, oldest first; every other step, disconnects included, leaves the queued messages in place |
| Agreement.EnqueuedAgrees | src/client.rs:559-618 | every enqueued request is the one recorded under its id, by the call that drew the id |
| Agreement.WireAgrees | src/client.rs:415-464 | every complete line on every wire is the text of the request recorded under the id it shows |
| Understanding.RunIsHeard | src/client.rs:415-464 | at every moment of every run, each complete line of each wire is heard by a server as the request recorded under an id, with that id, if and only if it is not a broadcast; of a broadcast exactly its bytes are heard |
| Understanding.RunSuccessIsHeard | src/client.rs:568-631 | at every moment of every run, all requests of a waited and successful send have been heard by one server, one after the other |
| Progress.RunReleasesLock | src/client.rs:601-610 | at every moment of every run, the batch that holds the inventory lock can release it by its own steps alone |
| Progress.RunOwnerMoves | src/client.rs:410-509 | at every moment of every run, the sender that owns the queue can take a step or waits for a message, and having left its loop it can release the queue |
| Progress.RunCanDeliver | src/client.rs:410-482 | in every state of a run, an awaited message with only callers' messages before it can be delivered by a sender that has or can have the queue, by its own steps alone, and is then acknowledged with success |
| Progress.RunCanAnswer | src/client.rs:341-368 | in every state of a run, a server's answer to a pending id can be received while no batch holds the lock: the response meant is broadcast, the id is done, and a waiter that subscribed before, within the window, returns exactly that response |
| Agreement.MissIsRepeat | src/client.rs:363-365 | a response whose id had been on a wire misses the inventory only when an earlier line answered that id |
| Agreement.TransmissionInOrder | src/client.rs:410-504 | over all connections the lines are a subsequence of the requests in the order they were enqueued, without repetition |
| Guarantees.RunAcknowledgesTruly | src/client.rs:568-631 | at every moment of every run, a waited and successful send has all of its requests on one wire |
| Guarantees.RunTransmitsInOrder | src/client.rs:410-504 | at every moment of every run, the lines on all wires are the enqueued requests in order, some missing, none twice |
| Guarantees.RunAccountsForTaken | src/client.rs:413-482 | at every moment of every run, a taken message is in its sender's hands, or all its requests are lines on the wires if and only if its write did not fail |
| Guarantees.RunFailsOnce | src/client.rs:431-509 | along every run, the entry for a connection that has failed a message stands, and its sender has left the loop |
| Guarantees.RunFailsApart | src/client.rs:431-509 | at every moment of every run, no two connections have failed the same message |
| Guarantees.RunRefusesTruly | src/client.rs:571-585 | at every moment of every run, a call that was told MessageNotSent has its last request on no wire, so that its requests are not all there |
| Guarantees.RunRefusesSingle | src/client.rs:571-585 | a call with one request that was told MessageNotSent has nothing on a wire |
| PartialBatch.RefusedBatchIsPartlySent | src/client.rs:464-480 | a run of a batch of two, whose write fails after the first line: the first request is on the wire, the second is not, and the call is told MessageNotSent |
| PartialBatch.FailedIsConnected | src/client.rs:431-441 | a run after which the status is Connected and the only sender has left its loop |
| Guarantees.RunDropsNoReply | src/client.rs:581-581 | in no run is OneShotRecvError returned |
| Guarantees.RunMissIsRepeat | src/client.rs:341-366 | in a run, an id that had been on a wire is not found only if an earlier line answered it |
| Guarantees.RunServesConnected | src/client.rs:304-310 | in a run, Connected means that some connection is served or its write failed, and Close events are at most as many as connections |
| Guarantees.RunScanFinds | src/client.rs:641-660 | in a run, a waiter whose response is broadcast after it subscribed, and which polls often enough, ends with exactly that response if it never lags behind the channel and fails if it does; it never lags while everything since fits into the channel |
| Guarantees.RunScanMisses | src/client.rs:646-657 | in a run, a response broadcast before the subscription is never returned |
| Guarantees.RunScanFindsIff | src/client.rs:646-657 | in a run, a waiter that polls often enough and never lags gets its response if and only if it was broadcast at or after the subscription |
| Guarantees.RunGathersAll | src/client.rs:662-687 | in a run, a completed batch collection holds, for each requested id, exactly the response ever published under it |
| Guarantees.RunGatherFinds | src/client.rs:662-687 | in a run, a batch waiter that polls often enough after the last of its responses has collected exactly the published ones if it never lags, and is cut off, short of some, if it does |
| Waiters.ScanIsExact | src/client.rs:646-657 | what the waiter returns is the first response to its id since it subscribed, and while it waits there was none before its cursor |
| Waiters.ScanFinds | src/client.rs:646-657 | a waiter that polls often enough after its response ends with it or with a failure |
| Waiters.ScanFailsIff | src/client.rs:646-657 | the waiter fails if and only if at some poll more than 1024 notifications lay between its cursor and the end |
| Waiters.LaggingWaiterLoses | src/client.rs:646-682 | an input: with a response and 1024 other notifications since the subscription, the single waiter fails and the batch waiter is cut off with nothing; with one less both get the response |
| Waiters.GatherIsExact | src/client.rs:667-686 | collected and missing ids partition the requested ones, the collection follows the order of arrival without repetition, a completed one misses none and a cut one is a part |
| Waiters.GatherCutsIff | src/client.rs:671-682 | a batch waiter is cut off if and only if at some poll that still collects it lags by more than the window |
| Waiters.CutIsShort | src/client.rs:671-686 | a collection that was cut off has not all of the requested ids |
| Waiters.CollectingHasLooked | src/client.rs:671-682 | a waiter still collecting has passed no response it still misses, and none at all if it misses nothing |
| Waiters.GatherFinds | src/client.rs:667-686 | a waiter that polls often enough after the last of its responses is done |
| Subscriptions.AcceptedIsExact | src/client.rs:834-841 | a batch is accepted whole if and only if its scripts are distinct and new, otherwise up to its first conflict |
| Subscriptions.ConflictLeaves | src/client.rs:834-841 | after a conflict the set has grown by exactly the scripts before it |
| Subscriptions.ActiveIffLastAdded | src/client.rs:769-843 | over any history of calls a script is active if and only if some call added it and no later one removed it |
| Subscriptions.ActiveSubscriptions.Insert | src/client.rs:777-783 | the single subscription refuses a script in the set and otherwise adds it and nothing else |
| Subscriptions.ActiveSubscriptions.Remove | src/client.rs:795-801 | the unsubscription refuses a script not in the set and otherwise removes it and nothing else |
| Subscriptions.ActiveSubscriptions.InsertUntilConflict | src/client.rs:834-841 | the loop stops at the first conflict, having added the scripts before it |
| Subscriptions.ActiveSubscriptions.InsertAll | src/client.rs:834-842 | success if and only if there is no conflict; on failure the first conflict is named and the prefix stays |
| Subscriptions.ActiveSubscriptions.Snapshot | src/client.rs:122-125 | the snapshot lists every active script once and nothing else, in any order |
| Calls.ReachedIsOk | src/client.rs:147-158 | every state the client object can be in has the whole invariant, within the bound |
| Calls.OtherStep | src/client.rs:147-158 | no step of another task touches a call's own state, takes back a broadcast, or releases a lock the call holds |
| Calls.GotInCall | src/client.rs:689-696 | a response found under a call's id answers that call's request and was read from a received line with that id |
| Calls.AnswerIsOwn | src/client.rs:689-696 | a call that is over drew its id since it began, and what it got is the reading of a line with that id against its own request |
| Calls.HeadersFirst | src/client.rs:512-521 | when one call is over before another begins, its id is lower and its message comes first in the queue |
| Calls.UnwrapAccepts | src/client.rs:706-807 | each wrapper accepts every response of its own kind as it is, so InvalidResponse means that there was none |
| Calls.CollectedAreHistories | src/client.rs:909-930 | each item collected for a batch of history requests is a history read from a line under one of its ids, against the script of that id, and a complete collection has one for each script |
| Calls.RecordedAtEnd | src/client.rs:598-610 | a batch's ids increase, were drawn by it since it began, and are recorded index by index with its requests |
| ClientTasks.Client.constructor | src/client.rs:162-190 | a new client is in the initial state |
| ClientTasks.Client.Interleave | src/client.rs:147-158 | the other tasks take exactly those of the given steps that are enabled in their turn; the object stays valid and the caller's own call untouched |
| ClientTasks.Client.FetchAdd | src/client.rs:560-560 | the draw is the reserving step and returns the old counter |
| ClientTasks.Client.InsertEntry | src/client.rs:563-566 | the insertion is the recording step, taken only while no batch holds the lock |
| ClientTasks.Client.TrySend | src/client.rs:530-538 | the queue takes the event if it has room, otherwise the call returns MessageNotSent |
| ClientTasks.Client.Deliver | src/client.rs:568-590 | the call ends with the result it returns; with an acknowledgement, success means that its requests are on a wire |
| ClientTasks.Client.SendMsg | src/client.rs:559-591 | a send ends with one id drawn since it began and its request recorded under it; success with a wait means the line is on a wire; it is suspended or gives up only when all polls have found the lock held, or no acknowledgement |
| ClientTasks.Client.RecordBatch | src/client.rs:598-610 | with other tasks drawing ids at any point, ids, requests and messages stay aligned, and all of them are recorded before the lock is released |
| ClientTasks.Client.SendBatchMsg | src/client.rs:593-639 | a batch send has strictly increasing ids of its own, drawn since it began and recorded index by index; success with a wait means that all lines are side by side on one wire; it is suspended or gives up only when all polls have found the lock held, or no acknowledgement |
| ClientTasks.Client.HandleLine | src/client.rs:336-389 | the receiver's code on one line is the receiving step: look-up, reading, publication and removal |
| ClientTasks.Client.TakeMessage | src/client.rs:412-413 | the sender takes the oldest message |
| ClientTasks.Client.WriteHeld | src/client.rs:415-471 | filling the buffer and writing it is the writing step, acknowledged with success |
| ClientTasks.Client.WriteHeldInPart | src/client.rs:431-480 | a failed write is the failing step: a prefix is on the wire, the acknowledgement is negative, the sender leaves |
| ClientTasks.Client.GetResponse | src/client.rs:641-660 | the waiting loop computes `Scan` of what the given polls see, one after the other, since the subscription, and makes no more of them than it needs |
| ClientTasks.Client.GetBatchResponse | src/client.rs:662-687 | the batch waiting loop computes `Gather` of what the given polls see, one after the other, since the subscription, and makes no more of them than it needs |
| ClientTasks.Client.Call | src/client.rs:689-696 | a call is over with the result of its own send, or with exactly what its waiter, subscribed after the send and resumed at the given polls, found under its own id: the response, read from a line with that id against this request, or none if and only if it fell behind the channel; it times out only when the schedule is used up |
| ClientTasks.Client.CallTyped | src/client.rs:706-807 | a wrapper's call was sent and recorded, and it returns exactly the response that its waiter found at the given polls, or InvalidResponse if and only if the waiter fell behind the channel at one of them |
| ClientTasks.Client.BatchGetHistory | src/client.rs:909-930 | never returns InvalidResponse; the histories are those that the waiter collected, at the given polls, under the ids of its own batch, each read from a line with that id for that script; there is one for every script if and only if the collection was not cut off |
| ClientTasks.Client.TakeHistories | src/client.rs:922-929 | the loop succeeds if and only if every item is a history, and keeps them in order |
| ClientTasks.Client.BlockHeadersSubscribe | src/client.rs:745-751 | the flag is set, and the call is a typed one |
| ClientTasks.Client.SubscribeScript | src/client.rs:769-785 | an active script is refused and nothing is sent; otherwise it becomes active and the call is a typed one |
| ClientTasks.Client.UnsubscribeScript | src/client.rs:787-808 | a script that is not active is refused and nothing is sent; otherwise it is no longer active and the call is a typed one |
| ClientTasks.Client.BatchScriptSubscribe | src/client.rs:826-844 | success of the insertion if and only if there is no conflict; then one subscription request for each script, in order; otherwise nothing is sent and the prefix stays |
| ClientTasks.Client.Resubscribe | src/client.rs:512-521 | after a connect the batch has exactly one subscription request for each active script; with the headers subscribed, a call of its own has asked for them and is over, with a lower id and an earlier place in the queue; no batch only if that call still waits or the lock is held |

## Left out

- TCP, TLS, SOCKS, DNS and addresses (src/net): a connect is a step that may happen at any time, a stream is a text with writes that may fail at any point.
- `change_address`, `ping`'s timer and the keep-alive receiver of `new`: a ping is a call like any other. The keep-alive receiver (src/client.rs:182-187) ends at its first lag, after which a broadcast that nobody is subscribed to fails; here it is logged all the same. No waiter can observe the difference, since it sees only what is broadcast after its own subscription.
- The control plane: when to connect, to retry, to stop and to clear the stop flag is left open, so every result holds whatever it decides; no claim is made about how many connect loops run or that a stop closes the socket. Recording Connected and starting the connection's tasks is one step.
- The grammar of JSON on the receiving side: a received line is a JSON object, as a list of named members in which names may repeat, or anything else. Of the writing side the text of requests is written out, with its escapes, over characters, and read by `JsonText`; the text of other messages, which the client never sends, is left uninterpreted (`OtherText`), and UTF-8 is not modelled.
- Numbers with a fraction are reals, without rounding, and the version of a version request is its text.
- Transactions are their bytes; which bytes the Bitcoin library accepts is left uninterpreted (`TxAccepted`). SHA-256 and the reversal that makes a script hash are not modelled: a script hash is any 32 bytes.
- The result types that no request uses (`ListUnspentRes`, `GetMerkleRes`), `Display` of hexadecimal bytes, logging and `as_json`.
- Clocks: a timeout is the end of the schedule of polls that a method is given, or the step `Expire`.
- Unconditional completeness of `call`: it subscribes after it has sent, so a reply may come too early; `Guarantees.RunScanFindsIff` makes that the exact condition.
- The endless loops of the sender and receiver tasks are modelled one iteration, and one step, at a time; the frame of the other suspended tasks is kept in `world`.
- ClientTasks.Client.Resubscribe: the set of active subscriptions is not changed by other tasks during the call, since each of its methods runs as one step.
- ClientTasks.Client.BatchScriptSubscribe: the lock on the set is held for the insertion only, as in the source; other changes to the set during the send are not modelled.
- Ids.StepKeepsIds: stated for runs that draw at most 2^64 ids, because ids repeat after that; `DrawRepeatsIff` says so for every run.
