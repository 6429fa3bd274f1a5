# zrp, verified

zrp is a reverse tunnel. A client keeps a pool of idle connections to the server; when a
visitor connects, the server takes one of them, does a small handshake on it, and then uses
the same TCP stream as a raw pipe to a service at the client's side. One stream therefore
carries framed control messages first and user bytes afterwards, and three coroutines at each
end have to agree on where the one ends and the other begins. This project models that in
Dafny, layer by layer, and proves what the layers promise, up to the whole tunnel.

| module | what it is |
|---|---|
| `WaitQueue`, `Matching` | the rendezvous queue: deques changed by posted tasks, run in any order; and waiters that skip values whose owner has died |
| `Codec`, `Framing` | 64-bit integers as signed characters; length-prefixed frames over a socket that returns fragments of any size |
| `Json`, `JsonReader`, `JsonErase`, `Printer` | JSON values and their two layouts, a reader after sections 2 to 7 of RFC 8259, the configuration printer |
| `Messages` | the typed messages, as JSON objects and as bytes |
| `SendPath`, `Session`, `Wire`, `KeepAlive` | one connection: both workers' coroutines as steps of a transition system, on messages and on bytes, with a clock |
| `Progress`, `Stopping` | the workers' own steps complete every visit that has begun; how a stop or a visit ends the server's sender |
| `Workers` | the two workers as classes updated in place, and the two loops that read up to the switch |
| `Pipe`, `Tunnel`, `HandOff` | copying with half-close, the tunnel from end to end over the bytes of the connection, and runs that carry or lose any bytes |
| `Unguarded`, `Transparency` | the first hypothesis below is exact: what happens without it, on messages and on bytes |
| `Forwarder`, `Sharing`, `World`, `Arrival` | pairing sockets into pipes; one share from its visitors to its local service; all its tunnels with their bytes; and what arrives at the users |
| `Registry`, `Lifetimes` | the server's registries with their weak references; how long the outcome of a greeting, and of entering a worker, lasts |
| `Pool`, `Refilling` | the client's worker pool with overlapping refills; what a look at a low pool brings |

Objects and algorithms that the program updates in place are classes and loops (`Queue`,
`Socket`, `Stream`, `Pipe`, `ClientWorker`, `ServerWorker`, `Forwarder`, `Server`, `TcpShare`,
the printer); their methods are proved equal to functions on values, and the theorems are about
runs of those functions. Protocols are transition systems whose step is what one coroutine does
between two suspensions.

## What the code relies on

The theorems about a connection hold under these hypotheses, which the code does not enforce:

- A visit begins while the receiving coroutine is parked in a read at a frame boundary
  (`Session.Orderly`, `Wire.Wellbehaved`). `visit()` cancels that read, but `recv_msgs()` does
  not look at `visited_` between two reads. The guard is exact: `Unguarded.GuardIsExact` shows
  that the other coroutine can take the confirmation of a visit if and only if it was not parked
  when the visit began, and `Transparency.TransparentExactlyWhenParked` that otherwise the visit
  can take the first bytes of the local service for its confirmation and deliver only the rest.
- Sending a frame is one step: a cancellation never cuts a frame that is half written.
- The control `io_context` is run by one thread, so what happens between two suspensions is atomic.
- Messages that carry strings fit a frame of 8192 bytes and consist of one-byte characters
  (`Messages.Sendable`); the sender does not check the length (include/zrp/msg.hpp:120-124).
- For `KeepAlive`, frames arrive in less than twenty seconds and processing takes no time. Twenty
  seconds is exact: `KeepAlive.TwentySecondsExactly`.

Where documentation or a name suggests more than the code does, the model follows the code: a
deadline that passes during a visit only sets `stopping_` and leaves the connection up
(include/zrp/server.hpp:343-347); the deadline of a controller connection is never watched
(include/zrp/server.hpp:529-538); a reset of one end, and a reset of the tunnel itself, reach the
other end as a clean end of file (include/zrp/pipe.hpp:82-90); a rejected greeting leaves the
shares before the duplicate registered (include/zrp/server.hpp:767-778), and then blocks its uuid
as long as one of them lives; a worker names only a share id, so one that is late for a dead
client serves whoever holds the id by then (include/zrp/server.hpp:784-803); and a worker whose id
a live worker of the same share has is not in the share's map, and not reached when that is
stopped (include/zrp/server.hpp:316-327).

## Model

The theorems first, then the methods that are proved against the functions the theorems are about.

| member | source | states |
|---|---|---|
| Tunnel.Transparent | include/zrp/pipe.hpp:63-95 | in every run, in both directions, the bytes delivered are a prefix of the bytes sent at the other end, with no control byte among them |
| World.EveryoneGetsTheirOwn | include/zrp/pipe.hpp:63-95 | in every run of a whole share with all its tunnels, a local connection gets a prefix of what the one visitor that reaches it sent, and conversely, and nobody gets a byte from anybody else |
| Arrival.AllOfItArrives | include/zrp/pipe.hpp:63-95 | in every run of a whole share, a visitor that reaches a local connection does so through one tunnel; and if that has both pipes and, in a direction, a source at its end, no lost peer and no end of file withheld, copying inside that tunnel alone brings the one user all that the other sent |
| Arrival.AnyBytesReachTheUser | include/zrp/forwarder.hpp:112-147 | from nothing, for any visitor, any worker, either direction and any bytes, a run in which the visitor reaches a local connection and the user at the other end gets exactly those bytes |
| Tunnel.EverythingArrives | include/zrp/pipe.hpp:63-95 | from every reachable state with both pipes up, the source ended, no peer lost and no end of file that could not be forwarded, the copying coroutines alone bring every sent byte and the end of file to the destination |
| Tunnel.QuietMeansDelivered | include/zrp/pipe.hpp:73-95 | a run without a lost peer that has come to rest after the source's end of file has delivered everything, and the end of file, if every end of file could be forwarded |
| Tunnel.EofMeansAll | include/zrp/pipe.hpp:82-90 | in every run, whatever was lost, a destination that has its pipe got everything if and only if no byte is in a hand, on the stream or unread; an end of file in a direction that lost no peer comes behind everything; the next three rows say exactly when it does behind a loss |
| Tunnel.ResetLooksLikeEof | include/zrp/pipe.hpp:82-90 | in every run, after the source side of a direction is lost, by its half or with its whole pipe, while the other pipe is at work, copying alone brings a clean end of file; everything sent was delivered if and only if the lost half had nothing in hand and nothing unread |
| Tunnel.EofBehindLoss | include/zrp/pipe.hpp:82-90 | in every continuation of such a loss, a clean end of file at a side that lost nothing means that all sent but what was in hand or unread at the loss, or sent later, was delivered, and so exactly when it means everything |
| Tunnel.LostTunnelLooksLikeEof | include/zrp/pipe.hpp:82-90 | in every run and every continuation, after the destination side of a direction loses the tunnel, by its half or with its whole pipe, the destination has a clean end of file and gets nothing more; everything was delivered if and only if nothing was in a hand, on the stream or unread, and nothing was sent later |
| Tunnel.StepSound | include/zrp/pipe.hpp:73-95 | every step keeps every sent byte in exactly one place, in order: delivered, in a hand, in the tunnel, unread |
| Tunnel.CopyingEnds | include/zrp/pipe.hpp:73-95 | no run of copying steps alone is longer than the bytes on their way allow |
| HandOff.AnyBytesArrive | include/zrp/pipe.hpp:63-95 | for any bytes and either direction there is a run, from the greeting on, that delivers exactly those bytes and the end of file |
| HandOff.AnyBytesCanBeLost | include/zrp/pipe.hpp:82-90 | for any bytes and either direction there is a run in which the destination sees a clean end of file and none of them |
| HandOff.BytesOnTheStreamCanBeLost | include/zrp/pipe.hpp:82-90 | for any chunk of bytes and either direction there is a run in which all of it is on the stream between the pipes, and the destination sees a clean end of file and none of it |
| HandOff.HandsOver | include/zrp/server.hpp:452-483 | an orderly run exists in which both ends hand their sockets over with nothing left on the lines |
| Transparency.TransparentExactlyWhenParked | include/zrp/server.hpp:452-483 | the guard of a visit, on bytes: in every state of every run in which a visit can begin, the client is up and nothing was sent towards the visitor yet, the receiving coroutine is parked if and only if every continuation delivers, in both directions, a prefix of what was sent |
| Transparency.UnparkedHappens | include/zrp/server.hpp:445-450 | a run in which a visit can begin while a ping is being answered |
| Unguarded.GuardIsExact | include/zrp/server.hpp:384-396 | in every state of every orderly run in which a visit can begin and the client is up, the receiving coroutine is parked if and only if no continuation lets it take the confirmation of that visit |
| Unguarded.UnparkedStrands | include/zrp/server.hpp:384-396 | from every reachable state in which it is not parked, the steps of the workers alone give the confirmation to the wrong coroutine and leave the visit reading |
| Session.CleanHandOff | include/zrp/server.hpp:452-483 | in every orderly run, when visit() has returned the socket nothing but raw bytes is unread, and raw bytes are sent down only after the confirmation was read |
| Session.StreamsInOrder | include/zrp/client.hpp:467-528 | in every orderly run the client sends its hello, then pings, then at most one confirmation, then raw bytes; the server pongs, then at most one visit, then raw bytes |
| Session.SingleToken | include/zrp/client.hpp:467-512 | from the hello to the visit exactly one of armed timer, ping in flight and pong in flight; at most one afterwards; and the lines hold just those pings and pongs, and the confirmation or the visit behind them when it is due |
| Session.VisitReadsAtMostTwo | include/zrp/server.hpp:470-475 | in every orderly run the retry loop of a visit reads at most two messages |
| Session.AnnouncementIsWritten | include/zrp/server.hpp:467-468 | closing the queue right behind the announcement never drops it: the sender can still write it, and it stays last on the line to the client |
| Session.StepInv | include/zrp/server.hpp:384-483 | every step of both workers keeps what is on the two lines: hello, at most one ping, confirmation, raw bytes; at most one pong, visit, raw bytes |
| Progress.EveryVisitCompletes | include/zrp/server.hpp:452-483 | from every state of every orderly run with both ends up and a visit begun, steps of the workers themselves lead to both ends handing their sockets over |
| Progress.OwnStepsEnd | include/zrp/server.hpp:384-483 | in whatever order they come, the workers' own steps during a visit are bounded in number and stop nothing |
| Progress.EveryOrderCompletes | include/zrp/server.hpp:384-483 | from every state of every orderly run with both ends up and a visit begun, in whatever order the workers' own steps come, they end, and when none can be taken any more the visit is complete at both ends |
| Wire.StepAgrees | include/zrp/msg.hpp:81-125 | on the bytes of the two streams exactly the same steps are possible as on messages and raw bytes, with the same effect |
| Wire.ByteRunsAreRuns | include/zrp/server.hpp:384-483 | every run on bytes is an orderly run on messages, and ends in the same bytes |
| Wire.RunsAreByteRuns | include/zrp/server.hpp:384-483 | every orderly run of messages that fit is a run on bytes, so the two systems have the same runs |
| Wire.NothingSpoiled | include/zrp/msg.hpp:81-112 | in every run on bytes, a coroutine that waits for a message never has a frame in front of it that is too big or does not decode |
| KeepAlive.DeadlineNeverExpires | include/zrp/server.hpp:384-443 | when frames arrive in under twenty seconds, the sixty-second deadline of an unvisited worker lies ahead in every state of every run |
| KeepAlive.TwentySecondsExactly | include/zrp/server.hpp:384-443 | frames that take less than a given time keep every unvisited worker alive in every run if and only if that time is at most twenty seconds |
| KeepAlive.PingMeansSilence | include/zrp/client.hpp:467-512 | after the client's timer was armed, and until it is armed again or a ping is sent, a client that is up, not stopping and not visited can send a ping exactly when twenty seconds have passed, however long ago they passed |
| KeepAlive.DeadlineMeansSilence | include/zrp/server.hpp:419-443 | the deadline expires exactly sixty seconds, during a visit twenty seconds, after it was last set, however often its timer wakes up in between |
| KeepAlive.VisitDeadlineKeepsConnection | include/zrp/server.hpp:343-347 | in every orderly run a deadline that passes during a visit leaves the connection up, and the workers' own steps still complete the visit |
| Workers.VisitEndsAtTheRawBytes | include/zrp/server.hpp:452-483 | in every orderly run, once the client has confirmed, the retry loop succeeds within two reads and leaves exactly the client's raw bytes |
| Workers.ClientConfirmsAtOnce | include/zrp/client.hpp:514-528 | in every orderly run a written announcement is confirmed within two reads, with nothing left unread |
| Workers.EndsExactly | include/zrp/client.hpp:447-487 | whatever comes on the stream: the client hands its socket over exactly if the stream starts with frames of pongs and then one visit, byte for byte, and has then confirmed it and left the rest; in every other case it is stopped and has sent nothing |
| Workers.SucceedsExactly | include/zrp/server.hpp:470-482 | whatever comes on the stream: the visit succeeds exactly if the stream starts with frames of pings and then the confirmation, and leaves the rest; in every other case it fails |
| Workers.VisitLeavesTheRest | include/zrp/client.hpp:473-528 | behind any number of pongs a visit is confirmed, and every byte behind it is left on the stream |
| Workers.OnlyAVisitHandsOver | include/zrp/client.hpp:473-528 | the socket is given away only behind frames that are pongs and then one visit, byte for byte |
| Workers.ConfirmationLeavesTheRest | include/zrp/server.hpp:470-482 | behind any number of pings the confirmation ends the visit, and every byte behind it is left on the stream |
| Workers.OnlyAConfirmationEnds | include/zrp/server.hpp:470-482 | the visit succeeds only behind frames that are pings and then one confirmation, byte for byte |
| Stopping.StopEndsTheSender | include/zrp/server.hpp:343-407 | in every run, whatever stops an unvisited worker (its share, its deadline, a message it does not expect, its sender's end): socket and queue are closed and nothing is handed over any more; running what was posted leaves nobody waiting and aborts the sender's wait, unless it had got a message, which it cannot write any more |
| Stopping.StopSparesAVisit | include/zrp/server.hpp:343-347 | in every run a stop leaves a visited worker its socket, its queue and its visit |
| Stopping.AnnouncementEndsTheSender | include/zrp/server.hpp:467-468 | in every orderly run, once the announcement of a visit was taken, the executor and the sender alone write everything handed over, and then the sender's wait is aborted |
| Stopping.DownIsSilent | include/zrp/server.hpp:343-396 | in every run an end that failed or was stopped neither reads nor writes its socket any more |
| SendPath.AbortedSenderLeavesNothing | include/zrp/server.hpp:398-407 | when the sender's wait is aborted, every message whose provide() succeeded has been written |
| SendPath.ServedIsWritten | include/zrp/server.hpp:467-468 | once all provide() calls have succeeded, the sender can write until nothing is left, closed or not |
| WaitQueue.KthValueToKthWaiter | include/zrp/waitqueue.hpp:28-74 | in every run, in any order of tasks, the k-th waiter gets the k-th provided value; while open, the deques are the unmatched suffixes of the arrivals, and one of them is empty |
| WaitQueue.KthCallToKthCall | include/zrp/waitqueue.hpp:28-74 | with a first-in first-out executor the same holds between the calls of wait() and provide() |
| WaitQueue.CompletesExactlyOnce | include/zrp/waitqueue.hpp:28-88 | the queue is closed exactly if close() was called; once closed and with no task left, every call of wait() and provide() has completed exactly once, with a value or aborted, however often and whenever close() was called |
| WaitQueue.StaysDrained | include/zrp/waitqueue.hpp:76-88 | after the drain the queues stay empty and nothing is handed over any more |
| WaitQueue.RunAll | include/zrp/waitqueue.hpp:32-88 | posted tasks can all be run, one each |
| Matching.EachOfferOneTaker | include/zrp/server.hpp:237-243 | in every run, whatever dies meanwhile, no two visitors end up with the same worker |
| Matching.NothingIsLost | include/zrp/server.hpp:316-327 | a worker is in one place; a worker handed over alive goes to the visitor that got it; a visitor still seeking has exactly one wait pending or aborted |
| Matching.TakesFirstLive | include/zrp/server.hpp:237-243 | in every run a visitor takes the last worker it was given, and every one before it was dead when the visitor was resumed with it |
| Matching.ResumeDecides | include/zrp/server.hpp:237-243 | in every run a visitor that is resumed with a worker takes it exactly if that worker has not died by then, and asks again otherwise |
| Matching.UnresumedSeeks | include/zrp/server.hpp:237-243 | a completed wait belongs to a visitor that has no worker yet |
| Sharing.NothingShared | include/zrp/forwarder.hpp:112-147 | in every run of a whole share, pipes share no visitor, no worker, no tunnel and no local connection: a visitor reaches at most one local connection, and no two visitors the same |
| Sharing.FailedIsNeverPiped | include/zrp/forwarder.hpp:132-146 | in every run a visitor whose visit failed, or a tunnel whose connection to the local service failed, is closed for good: it is in no pipe then or ever after |
| Registry.OneHolder | include/zrp/server.hpp:753-803 | in every run of greetings and deaths: one live share for an id, one live controller for a uuid, every live share in the map of its live registered controller |
| Registry.HelloRegistersPrefix | include/zrp/server.hpp:753-782 | a greeting past the uuid check registers exactly the longest prefix of its shares whose ids are neither held nor repeated; on rejection the prefix stays and keeps the controller alive if it is not empty |
| Registry.OneLongestPrefix | include/zrp/server.hpp:767-778 | that prefix is determined by its description |
| Registry.RejectionBlocksUuid | include/zrp/server.hpp:757-765 | right after a rejection the same uuid is turned away exactly when the first share of the rejected greeting had been free |
| Lifetimes.RejectionLasts | include/zrp/server.hpp:757-778 | in every run after a rejection, whoever greets or dies, the uuid is turned away as long as one of the shares lives that were registered on the way; and while nobody else greets with it, exactly as long as the controller of the rejected greeting lives |
| Lifetimes.WorkerServesItsClient | include/zrp/server.hpp:784-803 | in every run, a worker that names the id of a client's share serves that client if and only if the share still lives; otherwise it is turned away or serves a client that came later |
| Lifetimes.LateWorkerChangesClient | include/zrp/server.hpp:784-803 | the second happens: for any two clients and any share, a run after which a worker meant for the first serves the second |
| Lifetimes.EnteredUntilDeath | include/zrp/server.hpp:267-278 | in every run of greetings, deaths and entering workers, a live worker that is entered is reached by a stop of its share from then on for as long as it lives, unless a live worker of that share has its id |
| Registry.LiveOnlyInOrder | include/zrp/server.hpp:664-668 | cleaning the list of sockets leaves exactly the live ones, in their order |
| Registry.ApplyKept | include/zrp/server.hpp:753-803 | every greeting and every death keeps the registries in place |
| Pool.Counted | include/zrp/client.hpp:423-431 | in every run nr_workers_ is the number of live workers, all of them are in the map, and the next id is new |
| Pool.IdsIncrease | include/zrp/client.hpp:208-210 | in every run the ids given out are strictly increasing, and every live worker has one of them |
| Pool.PoolIsBounded | include/zrp/client.hpp:255-279 | with at most k overlapping refills, live and promised workers stay within low - 1 (or none) plus initial plus k times more |
| Pool.UnboundedExactly | include/zrp/client.hpp:255-279 | promised workers are unbounded over all runs if and only if low and initial are at least one and more is at least two |
| Pool.OtherwiseWithinInitial | include/zrp/client.hpp:255-279 | in any other configuration promised workers never exceed the initial ones, however refills overlap |
| Refilling.LowPoolIsRefilled | include/zrp/client.hpp:255-279 | in every run, when a tunnel of an open share was taken and the pool is low, the look at it, the refill and its connections bring exactly as many new workers as configured, with new ids, and keep all others |
| Refilling.StepPromises | include/zrp/client.hpp:237-279 | what every step does to the number of promised workers: only a look at a pool that is low and open promises more, exactly the configured number, and leaves only live workers in the map; a connection keeps one promise |
| Refilling.FirstVisitedFirstTaken | include/zrp/client.hpp:170-175 | in every run the accept loop takes tunnels in the order of the visits, and while the share was not closed every visited tunnel was taken or waits, in that order |
| Refilling.ClosingPromisesNothing | include/zrp/client.hpp:184-196 | in every run, once a started share is closing no tunnel waits to be taken and there are never more promises than at that moment |
| Framing.StreamRoundTrip | include/zrp/msg.hpp:81-125 | any list of payloads within the limit followed by any raw tail is received as that list, and exactly the tail is left unread |
| Framing.ReceiveFrame | include/zrp/msg.hpp:92-124 | a sent payload is received, and the stream behind it untouched, if and only if it has at most 8192 bytes |
| Framing.ReceiveOnlyFrames | include/zrp/msg.hpp:81-112 | whatever is received as a payload was exactly one frame on the stream |
| Framing.ReceiveFailsExactly | include/zrp/msg.hpp:86-112 | the end of the stream is reported exactly in front of or inside a frame that would be taken; a frame is refused exactly when its header spells more than 8192, with that length, and its payload left unread |
| Codec.ExtractPut | include/zrp/msg.hpp:15-66 | extract_uint64 inverts put_uint64 for every 64-bit value, in both byte orders |
| Codec.PutExtract | include/zrp/msg.hpp:15-66 | put_uint64 inverts extract_uint64 for every eight signed characters, in both byte orders |
| Codec.LittleRoundTrip | include/zrp/msg.hpp:21-29 | eight characters extract to x if and only if they are what x is put as |
| Codec.ExtractIsWeighted | include/zrp/msg.hpp:15-40 | shifting and or-ing unsigned characters gives the base-256 number they spell, so no sign bit leaks in |
| Codec.BigIsReversedLittle | include/zrp/msg.hpp:56-65 | big-endian output is the reversal of little-endian output |
| Messages.TypedRoundTrip | include/zrp/msg.hpp:323-350 | for every message and every list of expected types, unmarshalling what was marshalled gives the message if its type is expected and the unexpected-type error otherwise |
| Messages.UnmarshalExactly | include/zrp/msg.hpp:323-342 | a value is accepted as a message if and only if it is an object whose msg_type names the type of the message, that type is expected, and every field is there with its kind, range and value; an object with another msg_type is refused for that |
| Messages.DecodeEncode | include/zrp/msg.hpp:117-125 | serialized to bytes, parsed and unmarshalled, a message is itself if its type is expected, and refused otherwise |
| Messages.TypeIdsDistinct | include/zrp/msg.hpp:239-241 | type ids are pairwise distinct |
| Messages.AtAssign | include/zrp/msg.hpp:344-350 | tagging sets msg_type and leaves every other field as it was |
| Messages.UnmarshalCanonical | include/zrp/msg.hpp:337-342 | unmarshalling does not depend on whether a parsed number is of the signed or the unsigned kind |
| Messages.BareSendable | include/zrp/msg.hpp:203-211 | messages without fields always fit a frame |
| Printer.PrintedReadsBack | include/zrp/json_misc.hpp:72-154 | for every value without doubles the printed text is read as JSON back to the value, non-negative numbers that fit being of the signed kind |
| JsonErase.PrintedErasesToCompact | include/zrp/json_misc.hpp:72-154 | dropping the insignificant whitespace of the printed text leaves the compact serialization |
| JsonReader.ReadsBack | include/zrp/json_misc.hpp:156-172 | both layouts of every value, with any whitespace behind them, read back to the value |
| WaitQueue.Queue.Wait | include/zrp/waitqueue.hpp:28-51 | wait() posts a task and changes nothing else at once |
| WaitQueue.Queue.Provide | include/zrp/waitqueue.hpp:53-74 | provide() posts a task that holds the value |
| WaitQueue.Queue.CloseQueue | include/zrp/waitqueue.hpp:76-88 | the flag is set at once, the drain is posted |
| WaitQueue.Queue.TryWait | include/zrp/waitqueue.hpp:32-47 | what wait() posts, when it runs: aborted when closed, else matched with the oldest value or queued |
| WaitQueue.Queue.TryProvide | include/zrp/waitqueue.hpp:58-71 | what provide() posts, when it runs: aborted when closed, else matched with the oldest waiter or queued |
| WaitQueue.Queue.Drain | include/zrp/waitqueue.hpp:78-87 | both deques are aborted in order and emptied, by the two loops |
| WaitQueue.Queue.RunFirst | include/zrp/completion_handler.hpp:24-30 | the executor runs one posted task; completions are recorded, never run inside it |
| Codec.PutUint64 | include/zrp/msg.hpp:42-66 | the eight assignments fill the buffer with the encoding |
| Framing.SendMsg | include/zrp/msg.hpp:117-125 | writes the big-endian length and then the payload, whatever its length |
| Framing.RecvMsg | include/zrp/msg.hpp:81-112 | for every fragmentation of the stream the loop terminates and takes one frame and nothing behind it; too long a frame is refused after its header, end of file is reported |
| Printer.PrettyPrint | include/zrp/json_misc.hpp:72-154 | appends the indented layout of the value at the depth of the indent stack, with a line feed at the top level only |
| Printer.PrintItems | include/zrp/json_misc.hpp:104-116 | the loop over an array, with the indent stack one deeper than its brackets |
| Printer.PrintMembers | include/zrp/json_misc.hpp:81-94 | the loop over an object, with the indent stack one deeper than its brackets |
| Printer.Indent.PushValid | include/zrp/json_misc.hpp:45-70 | pushing adds one level and four spaces, and popping undoes it |
| Workers.ClientWorker.OnMessage | include/zrp/client.hpp:473-533 | one turn of the client's receiving loop, for every message |
| Workers.ClientWorker.PingActorWakes | include/zrp/client.hpp:489-512 | whatever woke the ping actor, and however late, it sends a ping exactly when the timer's time has come on a worker neither stopping nor visited, and disarms the timer |
| Workers.ClientWorker.SendAndRecvMsgs | include/zrp/client.hpp:467-512 | the receiving coroutine on real bytes, with the ping actor waking up between its reads: it ends visited, with the confirmation sent, exactly when the stream starts with pongs and one visit, and stopped in every other case; what it leaves unread; and that pings go out behind the hello but never behind the confirmation |
| Workers.ServerWorker.OnMessage | include/zrp/server.hpp:384-396 | a ping hands a pong to the sender; anything else ends the coroutine, and stops the worker unless it is visited |
| Workers.ServerWorker.TryStop | include/zrp/server.hpp:343-356 | closes the socket and the queue of an unvisited worker, and only takes note in a visited one |
| Workers.ServerWorker.SendNext | include/zrp/server.hpp:398-407 | writes the oldest message handed over and waits again |
| Workers.ServerWorker.OnAborted | include/zrp/server.hpp:358-368 | an aborted wait, or a write that failed, ends the sender, and stops the worker unless it is visited or stopping |
| Workers.ServerWorker.BeginVisit | include/zrp/server.hpp:452-467 | sets the flag and the deadline, cancels a parked read, hands over the announcement |
| Workers.ServerWorker.AwaitConfirmation | include/zrp/server.hpp:470-478 | the retry loop on real bytes: confirmed exactly when the stream starts with pings and the confirmation, and failed otherwise; what it leaves unread, and how many messages it read |
| Workers.ServerWorker.DeadlineActorWakes | include/zrp/server.hpp:419-443 | whatever woke the deadline actor, it stops the worker exactly when the deadline has passed on a worker that is neither stopping nor confirmed |
| Pipe.Pipe.HalfPipe | include/zrp/pipe.hpp:73-95 | what was read is what was written plus the chunk in hand, of at most 8192 bytes; the one failure that ended the loop decides: end of file, behind everything written, not_connected and connection_reset shut down sending and leave the pipe and the other direction alone; any other failure closes both sockets |
| Pipe.Pipe.TryStop | include/zrp/pipe.hpp:42-52 | closes both sockets |
| Forwarder.Forwarder.Accept | include/zrp/forwarder.hpp:112-130 | a new socket starts to be handled, and no pipe changes |
| Forwarder.Forwarder.OnUpstreamError | include/zrp/forwarder.hpp:132-146 | a socket whose upstream fails is closed and gets no pipe |
| Forwarder.Forwarder.Register | include/zrp/forwarder.hpp:136-143 | the pipe of a pair gets a number that no pipe had |
| Registry.Server.HandleClientHello | include/zrp/server.hpp:753-782 | the handler with its loop, all three outcomes |
| Registry.Server.HandleWorkerHello | include/zrp/server.hpp:784-803 | the handler: an unknown id, a dead share, or a new worker that keeps the share alive |
| Registry.Server.AddTcpShare | include/zrp/server.hpp:495-501 | the new share refers to the controller, and the controller's map keeps an entry it has |
| Registry.Server.StopController | include/zrp/server.hpp:503-518 | reaches exactly the controller, the live shares in its map, and the live workers in the maps of those |
| Registry.Server.StopShare | include/zrp/server.hpp:267-278 | reaches exactly the share and the live workers in its map |
| Registry.Server.GotWorker | include/zrp/server.hpp:316-327 | a live worker is entered under the id it greeted with, unless a live worker has that id; live workers keep their entries, dead ones lose theirs, no other share is touched, and a dead worker is not entered |
| Registry.Server.HandleSocket | include/zrp/server.hpp:664-675 | dead sockets leave the list, the live ones keep their order, and the new one comes last |
| Registry.Server.TryStop | include/zrp/server.hpp:617-630 | reaches exactly the live controllers, the live shares, the live workers in the maps of the shares, and the live sockets in the list, by the nested loops |
| Pool.TcpShare.AddWorker | include/zrp/client.hpp:237-243 | the new worker has a fresh id, is counted, and is in the map |
| Pool.TcpShare.CleanupWorkers | include/zrp/client.hpp:245-253 | the loop drops exactly the entries of dead workers |
| Pool.TcpShare.ChkNeedWorkersCoro | include/zrp/client.hpp:264-279 | a spawned refill looks at the pool again, and does nothing when closing or when there are enough |

## Left out

- Sockets, DNS, accept, connect and re-binding a socket to another io_context: a connection is two streams of bytes, and a newly connected socket is a new name.
- Scheduling inside Boost.Asio, and data races between the threads of the forwarder pool: a step is atomic.
- Boost.JSON: its parser is represented by a reader after RFC 8259, without duplicate names, depth limits, escapes of characters beyond the basic multilingual plane or UTF-8; `jv = {}` in the conversions of empty messages is taken as the empty object.
- Doubles, colours and text styles in the printer.
- Wrap-around of worker ids and pipe ids, which are 32-bit integers in the source.
- Configuration files and their defaults, logging, arguments, the environment, signals, resource limits and thread pools: plumbing without a hard property.
- Complete shutdown: a pipe can be registered after the sweep that stops all pipes (include/zrp/forwarder.hpp:67-84 and 132-143), and a visited worker ignores its stop, so no theorem says that stopping closes everything.
- The controller connection: its ping exchange has no watched deadline, so nothing is claimed about its time-outs.
- Registry.Server.HandleClientHello: is one step; a port that cannot be bound fails later, in the coroutine of the share, and is not part of it.
- Tunnel.Transparent: streams are finite, and a socket that was closed delivers what was written before.
- The failing write of a sender whose connection broke during a visit: the visit fails on its own read.
- Visits to a worker that was stopped but is not destroyed yet: its queue is closed, so they fail at once.
- Transparency.TransparentExactlyWhenParked: takes a state in which nothing was sent towards the visitor, as the connection to the local service is opened only after the client has given its socket away (include/zrp/forwarder.hpp:132-143).
- World.EveryoneGetsTheirOwn: a user ends its stream only after it was joined to a tunnel.
