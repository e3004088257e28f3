# Xerock: a verified model of the message daemon

Xerock is a daemon that connects browsers, through WebSockets, with TCP, UDP and serial endpoints and
with a monitor of its own process. Its handlers are callbacks of an asynchronous I/O library; every
connection has a chain of reads and a queue of writes, and what happens to the daemon as a whole is
decided by how these chains end, in which order, and what they send each other while ending. This
project states what the daemon promises about that and proves it, for every run.

`dafny verify dfyconfig.toml` checks the whole project.

## How the daemon is modelled

An operation that has been started is *outstanding*; the environment decides which one completes
next, with which error and how many bytes. `post` appends to a list of tasks, each of which runs
later as a step of its own. A run is any sequence of enabled steps. Where the code changes objects,
there is a class with the same fields and handlers, and each handler is proved to be one step, or the
stated sequence of steps, of the transition system about which the theorems are.

| file | what it is about |
|---|---|
| Basics.dfy | bytes and options |
| WriteQueue.dfy | the write queue that every kind of connection has |
| Stream.dfy | the read loop, and a client, a byte pipe and a server put together |
| Datagrams.dfy, Serial.dfy | the variants of the queue for UDP and for the serial port |
| Broadcast.dfy | the hub of WebSocket sessions and its handlers, as functions |
| BroadcastObjects.dfy | the same as objects, each handler proved to be one step |
| BroadcastFrame.dfy | what a handler leaves alone |
| BroadcastOrder.dfy | order, completeness and counters of what each client receives |
| BroadcastCascade.dfy | termination of the cascade of disconnections |
| BroadcastHistory.dfy | what every handler sends to whom, user ids, and each session told by its history |
| BroadcastStatus.dfy | the announced number of members against the members there are |
| StaticShare.dfy | `exec_to_all` and the shared set with any number of threads |
| ShareLedger.dfy | who is a member, who is reached, and what is left when all threads rest |
| ShareProgress.dfy | the same threads never deadlock and always finish |
| TcpServer.dfy | sessions of the TCP server, their membership and what they announce |
| TcpRequests.dfy | what the container reaches of them, and what closing a listener comes to |
| TcpHistory.dfy | such a session told by its history: what requests and failures lead to |
| Monitor.dfy, MonitorObject.dfy | the monitor's executor: all interleavings, and the object on one thread as an automaton |
| ClientRegistry.dfy, ClientContainer.dfy | the registry of TCP clients: its runs, and the objects |
| ClientHistory.dfy | the clients told by what was asked of them and what has failed |
| Listeners.dfy | routing to the sessions of a listener |
| ConfigText.dfy, ConfigReader.dfy, ConfigRoundTrip.dfy | the configuration file: meaning, the loop over the stream, printing and reading back |
| ByteArray.dfy, Delimiters.dfy | the hexadecimal and escape printers, and which delimiters are unambiguous |
| Json.dfy, Dispatcher.dfy, Envelope.dfy | JSON members, the registry of apps, and the message envelope |

Assumptions about execution: the sessions of the WebSocket and TCP servers run on a strand each. The
theorems of `BroadcastOrder`, `BroadcastHistory`, `BroadcastCascade` and `BroadcastStatus` are about
one thread, the default (`src/arguments.hpp:8`); `StaticShare`, `ShareLedger`, `ShareProgress` and
`Monitor` are about any number of threads with sequentially consistent memory. TCP clients, UDP servers
and the serial port have no strand, so theirs too are about one thread.

## Where the code surprises

Each of these is proved below; the code is modelled as it is.

- A cancelled monitor can send more than one further report. With one thread it cannot; with two, a
  start that has passed its store of `keep_reading_` races the cancel (`Monitor.CancelCanRaceAStart`).
  `Monitor.AfterCancel` says exactly when. On one thread the only report that can still follow is that
  of a timer which has fired already (`Monitor.CancelSilencesIff`).
- A failed second sample leaves `is_running_` set (`src/apps/monitor/executor.cpp:77-81`), and the
  monitor never runs again (`Monitor.LeakIsForever`, with a run in `Monitor.LeakHappens`).
- The close callback of a TCP client closes whatever is registered under the endpoint it once had. It
  is harmless only while endpoints are not handed out before their old owner has drained
  (`ClientRegistry.StaleCloseEvicts`, `ClientRegistry.EarlyReuseEvictsNewOwner`).
- The serial port pops a message after a partial write, and the rest of it is lost
  (`Serial.ShortWriteLosesBytes`).
- A session of the TCP server whose write failed is no longer a member but goes on reading, also after
  the `closing` that its failure posts, if that does not end the read (`TcpServer.ReadsAfterLeaving`);
  these are exactly the readers that are no members (`TcpServer.MemberUntilFirstEnd`).
- A session of the TCP server that was accepted before its listener was closed and opens after that is
  an orphan: a member of a set that nobody can find. Closing asks only the sessions that are members
  when it copies the set (`TcpRequests.ClosingAsksIff`). The orphan reads, is never listed in a status, not
  even its own (`TcpServer.OpeningStatusListsIff`), and can be neither written to nor closed
  (`TcpRequests.ErasedIsForever`; the run is `TcpRequests.OrphanOpens`).
- The member count that is announced can be wrong for good. A close announces the members less one
  before anybody has left, so an aborted handshake of somebody who never joined tells every member one
  user too few (`BroadcastStatus.StrangerIsSubtracted`; exactly then, by
  `BroadcastStatus.FailureAnnouncesTruthIff`). Leaving itself is not announced: the last count is right
  exactly under the condition of `BroadcastStatus.StatusIsCurrentIff`, and a session that ends with any
  other error leaves the old count standing (`BroadcastStatus.SilentEndLeavesOldCount`). With no members
  the unsigned difference wraps around, which reaches nobody (`BroadcastStatus.EmptyHubReachesNobody`).
- A TCP client one of whose chains ends with a refused connection stays registered and is dead
  (`ClientRegistry.RefusedStaysRegistered`); the status that clients are sent does not tell of a close
  on request until the next one (`ClientRegistry.StatusIsCurrentIff`).
- Two of these runs are as real as the codes that they start from. `BroadcastStatus.StrangerIsSubtracted`
  needs the transport to report an aborted handshake, which nothing in the daemon cancels, and
  `ClientRegistry.RefusedStaysRegistered` a refused connection on one that was established. The code
  has a branch for each of these codes and no guarantee that they cannot occur there.
- A message from a browser without a `time` member stops the program: `operator[]` asserts that there is
  one, and the flags of both build types leave assertions on (`CMakeLists.txt:166-173`;
  `Envelope.Receive`).
- A configuration file with a malformed number before its end is read for ever
  (`ConfigReader.ReadingEndsIff`, `ConfigRoundTrip.WordForPortNeverEnds`), and an address with white
  space, or in a build with SSL an empty key, does not survive printing and reading
  (`ConfigRoundTrip.RoundTripIff`).
- A line of the configuration file without an equals sign, be it a comment or empty, hides the assignment
  on the next line (`ConfigRoundTrip.CommentSwallowsNextLine`).
- A carriage return and a line feed have the same escape (`src/libs/byte_array/byte_array.cpp:45-50`),
  which is the only confusion with the default delimiters (`ByteArray.PrintsAlikeIff`), and with all
  delimiters but those made only of characters that are copied (`Delimiters.UnambiguousIff`).
- A message with a `smid` or `echoed` member of its own keeps it in front of the server's, and a time
  of the wrong type is mended by the stamp before the header is checked (`Envelope.StampedLookup`,
  `Envelope.StampingKeepsMeaning`). The answer that an app was not found is never given
  (`Envelope.Receive`).

## Model

| member | source | states |
|---|---|---|
| `WriteQueue.Writer.Write` | src/libs/my_async/include/my_async/tcp_server/impl/session_base_impl.hpp:272-281 | the message joins the posted tasks and nothing else changes: nothing is queued or written until `writing` runs |
| `WriteQueue.Writer.DoWrite` | src/libs/my_async/include/my_async/tcp_server/impl/session_base_impl.hpp:301-311 | a write of the front message, and of no other, becomes outstanding |
| `WriteQueue.Writer.Writing` | src/libs/my_async/include/my_async/tcp_server/impl/session_base_impl.hpp:320-327 | the oldest posted message moves to the back of the queue, and a write starts exactly when it is alone there |
| `WriteQueue.Writer.OnWrite` | src/libs/my_async/include/my_async/tcp_server/impl/session_base_impl.hpp:336-345 | a success pops the front and starts the next write if there is one; a failure leaves the queue as it is and starts nothing |
| `WriteQueue.CompletionHasFront` | src/libs/my_async/include/my_async/tcp_server/impl/session_base_impl.hpp:336-345 | in every run, a completing write is the write of the message at the front, so `erase(begin())` never meets an empty queue and always drops the message that was written |
| `WriteQueue.Conservation` | src/libs/my_async/include/my_async/tcp_server/impl/session_base_impl.hpp:272-345 | in every run with any failures, written ++ queued ++ posted is the submitted sequence; a write is in flight exactly while the queue is non-empty and no write has failed; there are never two, and at most one failure |
| `WriteQueue.FailStop` | src/libs/my_async/include/my_async/tcp_server/impl/session_base_impl.hpp:336-345 | from a failed write on nothing is ever written again, whatever is submitted, and the failed message stays at the front |
| `WriteQueue.WorkDecreases` | src/libs/my_async/include/my_async/tcp_server/impl/session_base_impl.hpp:301-345 | every handler of the queue lowers a measure, so without new submissions it comes to rest |
| `WriteQueue.QuiescentIsDelivered` | src/libs/my_async/include/my_async/tcp_server/impl/session_base_impl.hpp:301-345 | at rest everything submitted was written, or a write failed and the queue holds everything from the failed message on |
| `WriteQueue.DrainRun` | src/libs/my_async/include/my_async/tcp_server/impl/session_base_impl.hpp:301-345 | from every state without a failed write some run of exactly the measured length puts everything submitted on the wire |
| `Stream.ReadLoop.DoRead` | src/libs/my_async/include/my_async/tcp_server/impl/session_base_impl.hpp:234-244 | the outstanding read owns the whole buffer from its start, `ReadBufferSize` bytes of it |
| `Stream.ReadLoop.OnRead` | src/libs/my_async/include/my_async/tcp_server/impl/session_base_impl.hpp:253-263 | the handler is given exactly the bytes that arrived and the next read starts from an empty buffer; after an error no read is outstanding |
| `Stream.ReadPassesExactly` | src/libs/my_async/include/my_async/tcp_server/impl/session_base_impl.hpp:253-263 | one completed read adds exactly the arrived bytes as one chunk and restores the reader invariant |
| `Stream.BufferEmptyAtEveryRead` | src/libs/my_async/include/my_async/tcp_server/impl/session_base_impl.hpp:234-263 | in every run of client, pipe and server the outstanding read starts at offset zero of a buffer of the full size |
| `Stream.EndToEndPrefix` | src/libs/my_async/include/my_async/tcp_client/impl/client_base_impl.hpp:187-261 | what the server's handler has been given is at all times a prefix of what the client submitted, in chunks no longer than the buffer, whatever fails on either side |
| `Stream.EndToEndComplete` | src/libs/my_async/include/my_async/tcp_client/impl/client_base_impl.hpp:187-261 | once a client without a failed write has drained and the pipe is empty, the server has been given all of it |
| `Stream.OneChunkForEachRead` | src/libs/my_async/include/my_async/tcp_server/impl/session_base_impl.hpp:253-263 | in every run the server reads until a read fails, and its handler is called once for each completed read, with as many bytes as it brought |
| `Datagrams.EachDestinationInOrder` | src/libs/my_async/include/my_async/udp_server/impl/server_base_impl.hpp:171-215 | in every run each destination is sent a prefix of its own datagrams, in the order they were submitted |
| `Datagrams.EachDestinationGetsItsData` | src/libs/my_async/include/my_async/udp_server/impl/simple_container_impl.hpp:59-74 | in every run a destination is sent the data of the requests that list it, as often as each lists it, in order and without a gap, and all of it once the server has drained without a failure |
| `Datagrams.Container.Open` | src/libs/my_async/include/my_async/udp_server/impl/simple_container_impl.hpp:11-18 | a server that binds is entered, empty, under the endpoint it is bound to and all others stay; one that does not changes nothing |
| `Datagrams.Container.Close` | src/libs/my_async/include/my_async/udp_server/impl/simple_container_impl.hpp:22-34 | the endpoint is forgotten, also when the socket reports an error on closing; an unknown one is an error and changes nothing |
| `Datagrams.Container.Write` | src/libs/my_async/include/my_async/udp_server/impl/simple_container_impl.hpp:59-74 | the data is posted once for every listed destination, in the order listed, to the server named, of which nothing else changes, and to no other |
| `Serial.LineIsPrefixOfEachMessage` | src/libs/my_async/include/my_async/serial/impl/serial_base_impl.hpp:220-265 | in every run the line is one prefix of each popped message, in order, and is their concatenation if and only if every completion wrote its whole message |
| `Serial.LineIsToldByCounts` | src/libs/my_async/include/my_async/serial/impl/serial_base_impl.hpp:220-265 | in every run the line is told by the submissions and the reported byte counts alone: the first messages, as many as there are counts, each cut to its count |
| `Serial.ShortWriteLosesBytes` | src/libs/my_async/include/my_async/serial/impl/serial_base_impl.hpp:255-265 | a run in which a byte is never sent although its message counts as written, because the byte count is discarded |
| `BroadcastObjects.Session.Write` | src/libs/my_async/include/my_async/websocket/impl/session_base_impl.hpp:190-199 | only the posted tasks of this session grow, by this message at the end |
| `BroadcastObjects.Session.Writing` | src/libs/my_async/include/my_async/websocket/impl/session_base_impl.hpp:266-273 | as `WriteQueue` prescribes: the oldest task is queued, and a write starts only if the queue was empty |
| `BroadcastObjects.Session.DoWrite` | src/libs/my_async/include/my_async/websocket/impl/session_base_impl.hpp:246-257 | a write of the front message becomes outstanding |
| `BroadcastObjects.Session.OnWrite` | src/libs/my_async/include/my_async/websocket/impl/session_base_impl.hpp:282-291 | as `WriteQueue` prescribes for a success: the front is popped and the next one written |
| `BroadcastObjects.Propagator.ExecToAll` | src/libs/utility/include/util/static_shareable.hpp:37-58 | the loop over the copied pointers gives the message to exactly the members that are still referenced, once each, and to no one else |
| `BroadcastObjects.Propagator.WriteAll` | src/libs/my_async/include/my_async/websocket/impl/session_static_callback_static_share_impl.hpp:57-78 | the hub becomes the one with the broadcast in the log, stamped with the next counter, and posted to every referenced member |
| `BroadcastObjects.Propagator.WriteOne` | src/core/json/websocket_session.cpp:101-114 | one session gets the stamped message and no other session changes |
| `BroadcastObjects.Propagator.Join` | src/libs/utility/include/util/static_shareable.hpp:17-20 | the session is a member from this point of the broadcast log on |
| `BroadcastObjects.Propagator.OnOpen` | src/core/json/websocket_session.cpp:46-52 | join, user id and app list to the newcomer, then the member count to all, the newcomer among them |
| `BroadcastObjects.Propagator.Fail` | src/libs/my_async/include/my_async/websocket/impl/session_static_callback_static_share_impl.hpp:183-193 | an aborted operation or a closed WebSocket broadcasts the count less one to every member, the failing one too; any other error sends nothing and removes nobody |
| `BroadcastObjects.Propagator.OnMessage` | src/core/json/websocket_session.cpp:59-86 | a message is echoed to all before the sender is answered or the app runs; one that is not an object is answered only |
| `BroadcastObjects.Propagator.OnAccept` | src/libs/my_async/include/my_async/websocket/impl/session_base_impl.hpp:137-143 | the handler takes the hub where the transition system says: the read is outstanding before `on_open` runs, or `fail` alone runs |
| `BroadcastObjects.Propagator.OnReadFailed` | src/libs/my_async/include/my_async/websocket/impl/session_base_impl.hpp:171-181 | the read chain ends, the membership stays and `fail` runs: one step of the transition system |
| `BroadcastObjects.Propagator.OnReadData` | src/libs/my_async/include/my_async/websocket/impl/session_base_impl.hpp:171-181 | the message is handled before the next read is outstanding |
| `BroadcastObjects.Propagator.OnRead` | src/libs/my_async/include/my_async/websocket/impl/session_base_impl.hpp:171-181 | both outcomes of a read take the hub exactly one step of the transition system |
| `BroadcastObjects.Propagator.RunTask` | src/libs/my_async/include/my_async/websocket/impl/session_base_impl.hpp:266-273 | a posted task changes its own session only |
| `BroadcastObjects.Propagator.OnWriteFailed` | src/libs/my_async/include/my_async/websocket/impl/session_base_impl.hpp:282-291 | a failed write keeps its message at the front, starts nothing and runs `fail` |
| `BroadcastObjects.Propagator.OnWrite` | src/libs/my_async/include/my_async/websocket/impl/session_base_impl.hpp:282-291 | both outcomes of a write take the hub exactly one step of the transition system |
| `BroadcastObjects.Propagator.Free` | src/libs/my_async/include/my_async/websocket/impl/session_static_callback_static_share_impl.hpp:45-49 | the destructor takes the session out of the set, which nothing else does |
| `BroadcastObjects.Propagator.Perform` | src/core/json/websocket_session.cpp:46-114 | whatever an enabled action of the transition system is, the handlers make it of the objects, and no session object is replaced |
| `BroadcastObjects.RunIsInOrder` | src/libs/my_async/include/my_async/websocket/impl/session_base_impl.hpp:137-291 | after any run each session object has been given one stretch of the log, has written the front of it, its counters increase on its wire and it has closed at most twice |
| `BroadcastObjects.Serve` | src/libs/my_async/include/my_async/websocket/impl/session_base_impl.hpp:137-291 | the handlers, performed one after the other on fresh objects, bring them to the end of any run, with all of that true of their fields |
| `BroadcastFrame.StepFrame` | src/core/json/websocket_session.cpp:46-114 | whatever a handler does, every other session is only written to: its queue gains posted tasks and nothing else of it changes |
| `BroadcastFrame.StepGrowsLog` | src/libs/my_async/include/my_async/websocket/impl/session_static_callback_static_share_impl.hpp:57-78 | the log of broadcasts is append-only |
| `BroadcastFrame.StepSkipsDead` | src/libs/utility/include/util/static_shareable.hpp:52-56 | a session that nothing refers to is never written to again: the weak pointer to it is not promoted |
| `BroadcastOrder.StepKeepsInv` | src/libs/my_async/include/my_async/websocket/impl/session_base_impl.hpp:137-291 | every handler keeps the invariant that ties each session's broadcasts to one stretch of the log, its queue to what was submitted, and the counters to their order |
| `BroadcastOrder.SessionGetsSegment` | src/libs/utility/include/util/static_shareable.hpp:37-58 | in every single-threaded run the broadcasts submitted to a session are one gapless, duplicate-free stretch of the global log from its join on, reaching the end of the log while anything refers to it; what is on its wire is a prefix |
| `BroadcastOrder.SegmentEndsAtLeave` | src/libs/my_async/include/my_async/websocket/impl/session_static_callback_static_share_impl.hpp:45-49 | once nothing refers to a session its stretch is final, in every continuation, and it does not come back |
| `BroadcastOrder.SessionsAgree` | src/libs/my_async/include/my_async/websocket/impl/session_static_callback_static_share_impl.hpp:57-78 | two broadcasts that two clients have both received reached both in the same order |
| `BroadcastOrder.WireBroadcastsIncrease` | src/core/functions.cpp:13-18 | the counters of the broadcasts on one wire strictly increase |
| `BroadcastOrder.WireCountersIncrease` | src/core/functions.cpp:13-18 | the server's counters on each wire, private messages included, strictly increase in every single-threaded run |
| `BroadcastHistory.StepSends` | src/core/json/websocket_session.cpp:46-114 | from every reachable state a handler sends exactly this, in this order: an opening the user id and the app list to its client and the count to all; a message its echo to all and then the refusal to its sender, or what the app sends; a message that is no object a refusal alone; a closing failure the count; and each session is given exactly its part of it, a private message only the handler's own |
| `BroadcastHistory.EverythingSent` | src/core/json/websocket_session.cpp:46-114 | in every run the log, and what each session is given, are the concatenation of these, and what is on its wire is the front of that |
| `BroadcastHistory.UserIdsAreUnique` | src/core/functions.cpp:6-11 | in every run the first message a session is given is its user id, which is the number of its opening; it is given no other, and no two sessions have the same one |
| `BroadcastHistory.SessionIsItsHistory` | src/libs/my_async/include/my_async/websocket/impl/session_base_impl.hpp:137-291 | in every run a session has joined if its handshake has succeeded, reads from then until a read fails, is a member until it is destroyed, closes once for each failure that closes, and has one message on its wire for each finished write |
| `BroadcastCascade.ClosesAtMostTwice` | src/libs/my_async/include/my_async/websocket/impl/session_static_callback_static_share_impl.hpp:183-193 | in every run the close callback runs at most twice for a session, once for each of its chains |
| `BroadcastCascade.StepWeights` | src/core/json/websocket_session.cpp:54-57 | a handler that brings no new input raises the weight of any session by at most two for each message it posts there |
| `BroadcastCascade.PotentialDecreases` | src/core/json/websocket_session.cpp:54-57 | every handler that brings no new input lowers the potential of the hub, even one whose failure broadcasts to everybody |
| `BroadcastCascade.CascadeTerminates` | src/core/json/websocket_session.cpp:54-57 | after any past, a run without new input is no longer than the potential then, so the disconnect cascade ends, whatever fails in whatever order |
| `BroadcastCascade.QuiescentState` | src/libs/my_async/include/my_async/websocket/impl/session_static_callback_static_share_impl.hpp:183-193 | where it ends, the members are exactly the sessions still reading, and each without a failed write has on its wire everything broadcast since it joined |
| `BroadcastStatus.EmptyHubReachesNobody` | src/core/json/websocket_session.cpp:96-99 | a close with no members announces the largest unsigned number, and no session is given it |
| `BroadcastStatus.CloseAnnouncesTruthIff` | src/core/json/websocket_session.cpp:54-57 | in any state, the count announced for a close is the number of members besides the closing session if and only if that is a member |
| `BroadcastStatus.FailureAnnouncesTruthIff` | src/libs/my_async/include/my_async/websocket/impl/session_static_callback_static_share_impl.hpp:183-193 | in every run a member is a session that has joined and is not destroyed, and a failure that runs the close callback announces the members that remain if and only if it is not the handshake that failed |
| `BroadcastStatus.StrangerIsSubtracted` | src/core/json/websocket_session.cpp:54-57 | a run in which the aborted handshake of a session that never joined tells the only member that there are no members |
| `BroadcastStatus.StatusIsCurrentIff` | src/core/json/websocket_session.cpp:46-57 | in every run the last announced count is the number of members if and only if nobody was destroyed since, when it announced a join, or exactly one member was, when it announced a close |
| `BroadcastStatus.QuiescentStatusIff` | src/core/json/websocket_session.cpp:46-57 | when all has come to rest it is the number of sessions still reading under exactly that condition |
| `BroadcastStatus.Drain` | src/libs/my_async/include/my_async/websocket/impl/session_base_impl.hpp:246-291 | from any reachable state a session without a failed write can write all it was given, and nothing else of the hub changes |
| `BroadcastStatus.SilentEndLeavesOldCount` | src/libs/my_async/include/my_async/websocket/impl/session_static_callback_static_share_impl.hpp:183-193 | a run that comes to rest with one member, last told that there are two, because the other ended with an error that runs no close callback |
| `StaticShare.StepKeepsInv` | src/libs/utility/include/util/static_shareable.hpp:17-58 | every atomic step of every thread keeps the ownership invariant |
| `StaticShare.SharedPointersAreValid` | src/libs/utility/include/util/static_shareable.hpp:17-25 | under any interleaving each pointer in `share_` is to an object not yet freed, and at most one thread is in a critical section |
| `StaticShare.CopyIsTheLockedSet` | src/libs/utility/include/util/static_shareable.hpp:44-50 | the copy made under the lock is the set, whole, as it stands while the lock is held |
| `StaticShare.PromotedStaysAlive` | src/libs/utility/include/util/static_shareable.hpp:52-56 | an object a thread has promoted stays alive until that thread lets go, whatever the others do |
| `StaticShare.DeadForever` | src/libs/utility/include/util/static_shareable.hpp:52-56 | an object whose count has reached zero never gets an owner again |
| `StaticShare.ExecAppliesExactlyOnce` | src/libs/utility/include/util/static_shareable.hpp:37-58 | under any interleaving a finished `exec_to_all` has applied its function exactly once to each member of the locked set but those whose count had reached zero, never to one of those, never to one that joined later |
| `ShareLedger.MembersAreTheJoined` | src/libs/utility/include/util/static_shareable.hpp:17-25 | in every run of any number of threads the members are exactly the objects that a join has inserted and their destructor has not yet erased; so one that has joined is a member as long as it has an owner |
| `ShareLedger.JoinedIsApplied` | src/libs/utility/include/util/static_shareable.hpp:17-58 | end to end under any interleaving: an object whose join was done before an `exec_to_all` took the lock, and that has an owner when the call ends, has had the function applied exactly once |
| `ShareLedger.StepOwns` | src/libs/utility/include/util/static_shareable.hpp:52-56 | every step keeps it that an object is owned by its handles, by the threads that keep it, and by nothing else, and that whatever is dying is being destroyed by some thread |
| `ShareLedger.NothingLeaks` | src/libs/utility/include/util/static_shareable.hpp:17-58 | when all threads rest, the objects alive are exactly those with a handle created or copied and not dropped, all others are freed, and the members are the living ones that have joined |
| `ShareProgress.NoDeadlock` | src/libs/utility/include/util/static_shareable.hpp:17-58 | in every reachable state of any number of threads in which some thread has something to finish, such a thread can take a step; so no destructor inside `exec_to_all` waits for a lock its own thread holds |
| `ShareProgress.WorkDecreases` | src/libs/utility/include/util/static_shareable.hpp:17-58 | every step of a thread that begins nothing new lowers a measure of what all threads have left to do, destructors that are yet to start included |
| `ShareProgress.QuietRunsEnd` | src/libs/utility/include/util/static_shareable.hpp:17-58 | from every reachable state, whatever the order of the threads, they take at most as many steps as that measure without new work |
| `ShareProgress.ThreadsComeToRest` | src/libs/utility/include/util/static_shareable.hpp:17-58 | from every reachable state some run without new work lets every thread finish |
| `TcpServer.Share.Join` | src/libs/utility/include/util/shareable.hpp:18-21 | the session is added to the set and no other membership changes |
| `TcpServer.Share.Leave` | src/libs/utility/include/util/shareable.hpp:23-26 | the session is removed, if it is there, and no other membership changes |
| `TcpServer.Session.JoinShare` | src/apps/tcp_server/tcp_server_type.hpp:64 | first the session is added to its listener's set, and no other membership changes |
| `TcpServer.Session.OnOpen` | src/apps/tcp_server/tcp_server_type.hpp:62-71 | the session is a member before the status is sent, which lists it if and only if its listener is still registered; all before a read is outstanding, and no other membership changes |
| `TcpServer.Session.OnClose` | src/apps/tcp_server/tcp_server_type.hpp:79-83 | the session is no member, whether or not it was, when the status is sent, which therefore does not list it; no other membership changes |
| `TcpServer.Session.DoRead` | src/libs/my_async/include/my_async/tcp_server/impl/session_base_impl.hpp:234-244 | a read is outstanding |
| `TcpServer.Session.DoAccept` | src/libs/my_async/include/my_async/tcp_server/impl/session_base_impl.hpp:193-197 | membership, the status and then the read: the three atomic steps in that order |
| `TcpServer.Session.Fail` | src/libs/my_async/include/my_async/tcp_server/impl/session_base_impl.hpp:206-225 | every branch removes the session; only the last one reports the error and posts a close, after the removal |
| `TcpServer.Session.OnHandshake` | src/libs/my_async/include/my_async/tcp_server/impl/session_base_impl.hpp:70-77 | a failed handshake closes without ever joining; a successful one joins |
| `TcpServer.Session.OnReadFailed` | src/libs/my_async/include/my_async/tcp_server/impl/session_base_impl.hpp:253-256 | an error ends the read chain through `fail` |
| `TcpServer.Session.OnReadData` | src/libs/my_async/include/my_async/tcp_server/impl/session_base_impl.hpp:258-262 | `read_handler` gets the bytes that arrived, once, and the read is re-armed in the same handler |
| `TcpServer.Session.OnRead` | src/libs/my_async/include/my_async/tcp_server/impl/session_base_impl.hpp:253-263 | both outcomes of a read are the stated steps, and no other membership changes |
| `TcpServer.Session.SendStatus` | src/apps/tcp_server/tcp_server.cpp:82-85 | one more status, that lists the session if and only if it is a member now and its listener is registered now |
| `TcpServer.Servers.Status` | src/apps/tcp_server/json/make.cpp:18-46 | the loop over the registered listeners collects exactly the sessions that are members of some registered listener |
| `TcpServer.Servers.Erase` | src/libs/my_async/include/my_async/listener/impl/container_impl.hpp:104 | this listener is no longer registered and all others are as before |
| `TcpServer.Session.ReadHandler` | src/apps/tcp_server/tcp_server_type.hpp:57-60 | the handler is called with exactly these bytes |
| `TcpServer.Session.OnWrite` | src/libs/my_async/include/my_async/tcp_server/impl/session_base_impl.hpp:336-345 | a failure runs `fail` with the queue left as it is; a success is the queue's |
| `TcpServer.Session.Write` | src/libs/my_async/include/my_async/listener/listener_base.hpp:122-131 | when the container comes to a session it has copied and that is still referenced, the message is posted to it and nothing else of it changes |
| `TcpServer.Session.Close` | src/libs/my_async/include/my_async/listener/listener_base.hpp:94-120 | one more `closing` is posted for the request, membership does not change; when the whole listener is being closed, it is erased next |
| `TcpServer.NoDanglingMember` | src/apps/tcp_server/tcp_server_type.hpp:62-83 | at every point of every run a member is not freed and is referenced, by its outstanding read whenever no handler is running on it, although no destructor leaves the set |
| `TcpServer.MemberUntilFirstEnd` | src/apps/tcp_server/tcp_server_type.hpp:62-83 | a session is a member exactly from its opening to the end of its first chain; between handlers that is when it is reading and no write has failed, so a reading session is out of the set if and only if one of its writes has failed |
| `TcpServer.StatusesSent` | src/apps/tcp_server/tcp_server_type.hpp:62-83 | in every run each opening and each close is announced by one status, and no close by one that lists the session |
| `TcpServer.OpeningStatusListsIff` | src/apps/tcp_server/json/make.cpp:18-46 | in every run the status sent when a session opens lists it if and only if its listener had not been erased by then |
| `TcpRequests.ClosingAsksIff` | src/libs/my_async/include/my_async/listener/listener_base.hpp:94-105 | in every run, with any steps of the session in between, the closing of a listener reaches a session if and only if it was a member when the set was copied and is still referenced when its turn comes; with nothing in between, if and only if it was a member; what reaches it posts a `closing`, by `TcpHistory.RequestsAreServed` |
| `TcpRequests.RequestArrivesIff` | src/libs/my_async/include/my_async/listener/listener_base.hpp:94-131 | in every run a request of the container, of any kind, arrives at a session if and only if it was a member when the set was copied and is still referenced when its turn comes |
| `TcpRequests.ErasedIsForever` | src/libs/my_async/include/my_async/listener/impl/container_impl.hpp:91-105 | once its listener is erased no status lists the session and no operation of the container comes to it, in any continuation |
| `TcpRequests.OrphanOpens` | src/libs/my_async/include/my_async/listener/impl/container_impl.hpp:91-105 | a run in which a session opens after its listener was closed: it is a member, reads, was never asked to close and was not listed by the status it sent |
| `TcpServer.ClosesAtMostTwice` | src/libs/my_async/include/my_async/tcp_server/impl/session_base_impl.hpp:206-225 | `on_close` runs at most twice for a session |
| `TcpServer.SessionConserves` | src/libs/my_async/include/my_async/tcp_server/impl/session_base_impl.hpp:272-345 | the queue laws hold for the session as a whole, across failures, closes and membership changes |
| `TcpServer.ReadsAfterLeaving` | src/libs/my_async/include/my_async/tcp_server/impl/session_base_impl.hpp:336-345 | a run in which a failed write has removed the session, and after its posted `closing` has run it still reads bytes and reads on |
| `TcpHistory.RequestsAreServed` | src/libs/my_async/include/my_async/listener/listener_base.hpp:94-131 | in every run each request to close that has arrived, and each reported failure, posts one `closing`, and nothing else does; what is submitted is the data of the write requests, in order; and the handler is given what the reads brought, in order |
| `TcpHistory.SessionIsItsHistory` | src/libs/my_async/include/my_async/tcp_server/impl/session_base_impl.hpp:70-261 | in every run the handshake is outstanding until it succeeds or fails, an open session reads, or is about to, until a read fails, and every failure runs `on_close` once and is reported unless it only ends the connection |
| `Monitor.MutualExclusion` | src/apps/monitor/executor.cpp:31-111 | in every interleaving at most one activation exists: no two threads are between taking and returning the token, none is while a wait or callback is pending, and there is at most one of those |
| `Monitor.FlagMeansActivation` | src/apps/monitor/executor.cpp:31-111 | `is_running_` is set if and only if there is an activation or a second sample has failed, and never both |
| `Monitor.LeakIsForever` | src/apps/monitor/executor.cpp:77-81 | after a failed second sample, which returns without clearing the flag, the executor never samples or reports again, whatever is requested |
| `Monitor.LeakHappens` | src/apps/monitor/executor.cpp:77-81 | a run on one thread after which the executor is in that state, and finds the token taken at the next request |
| `Monitor.ReportsBounded` | src/apps/monitor/executor.cpp:100-110 | until some request stores `keep_reading_`, at most `MaxReports` more reports follow in any interleaving |
| `Monitor.AttainMaxReports` | src/apps/monitor/executor.cpp:100-110 | and some interleaving makes exactly that many |
| `Monitor.AfterCancel` | src/apps/monitor/executor.cpp:19-24 | at the store of `cancel`: at most one more report follows in every interleaving if and only if the activation and the requests about to start are together at most one |
| `Monitor.AfterCancelSingleThread` | src/apps/monitor/executor.cpp:19-24 | on one thread, the default, at most one more report follows every cancel |
| `Monitor.CancelCanRaceAStart` | src/apps/monitor/monitor.cpp:43-51 | on two threads already, two more reports can follow a cancel |
| `Monitor.CancelSilencesIff` | src/apps/monitor/executor.cpp:19-24 | on one thread a whole cancel, that of the timer included, lets nothing more be reported, whatever happens without a new request, if and only if the timer had not fired yet; no wait is pending then, and only the callback of the cancelled one holds the token |
| `Monitor.OneRequestReportsOften` | src/apps/monitor/executor.cpp:107-110 | for every n some run with a single request, that asks to go on, makes n reports and leaves a wait pending |
| `MonitorObject.CancelStops` | src/apps/monitor/executor.cpp:19-24 | from a state that is not about to report, no sequence of timer events reports anything, and once the cancelled callback has run the executor is free |
| `MonitorObject.GoesOn` | src/apps/monitor/executor.cpp:107-110 | with `cont`, n periods make n reports and the executor is waiting again; without, one period makes one report and it is free |
| `MonitorObject.LostIsForever` | src/apps/monitor/executor.cpp:77-81 | after a failed second sample no event makes it report or start again |
| `MonitorObject.Executor.Continuos` | src/apps/monitor/executor.cpp:26-29 | only the wish to go on changes |
| `MonitorObject.Executor.Cancel` | src/apps/monitor/executor.cpp:19-24 | the wish is stored and the pending waits become aborted callbacks, as the two atomic steps say; the token is untouched |
| `MonitorObject.Executor.Calculate` | src/apps/monitor/executor.cpp:46-67 | a failed sample gives the token back; otherwise exactly one wait is pending afterwards |
| `MonitorObject.Executor.Init` | src/apps/monitor/executor.cpp:31-39 | samples only if the token was free, and says whether it is taken now |
| `MonitorObject.Executor.Continue` | src/apps/monitor/executor.cpp:107-110 | goes on with the token or gives it back |
| `MonitorObject.Executor.Sample` | src/apps/monitor/executor.cpp:77-110 | the four ways through the rest of the callback, as sequences of atomic steps, the one that keeps the token for ever among them |
| `MonitorObject.Executor.DoWait` | src/apps/monitor/executor.cpp:69-111 | an aborted wait gives the token back; an expired one samples with it |
| `MonitorObject.Executor.SendMonitorData` | src/apps/monitor/monitor.cpp:32-52 | the flag is stored before `init` or `cancel`; the sample time changes only on a start |
| `MonitorObject.Executor.SendReport` | src/apps/monitor/executor.cpp:105-110 | the report is counted once before the executor goes on or stops |
| `MonitorObject.Executor.Perform` | src/apps/monitor/monitor.cpp:32-52 | every request and every timer event is some run of the transition system, only a request stores `keep_reading_`, and the fields move as an automaton of five phases says |
| `MonitorObject.Executor.Serve` | src/apps/monitor/executor.cpp:31-111 | after any sequence of requests and timer events the fields are what the automaton comes to: free, waiting, fired, aborted or lost, with the wish to go on, the sample time and the number of reports; and while nobody asks and the wish is not to go on, at most one report is sent |
| `ClientContainer.Container.Opened` | src/libs/my_async/include/my_async/tcp_client/impl/container_impl.hpp:41-46 | the client is entered under its local endpoint, in the place of any other, the status names it, and it reads |
| `ClientContainer.Container.Close` | src/libs/my_async/include/my_async/tcp_client/impl/container_impl.hpp:65-77 | the client found is asked to close and its entry erased; an unknown endpoint is an error and changes nothing |
| `ClientContainer.Container.RequestClose` | src/apps/tcp_client/tcp_client.cpp:100-106 | a close on request removes the entry and marks no failure |
| `ClientContainer.Container.RequestWrite` | src/libs/my_async/include/my_async/tcp_client/impl/container_impl.hpp:83-95 | these data are posted to the client registered there and no other; an unknown endpoint is an error and changes nothing |
| `ClientContainer.Container.OnClose` | src/apps/tcp_client/tcp_client_type.hpp:56-60 | whatever is registered under the endpoint the client saved is closed and erased, whoever it is, and then the status is sent |
| `ClientContainer.Container.Fail` | src/libs/my_async/include/my_async/tcp_client/impl/client_base_impl.hpp:391-414 | a refused connection removes nothing; every other error removes the entry, the unexpected ones posting one more close |
| `ClientContainer.Container.OnReadFailed` | src/libs/my_async/include/my_async/tcp_client/impl/client_base_impl.hpp:168-178 | the read chain ends and `fail` runs: one step of the transition system |
| `ClientContainer.Container.OnWriteFailed` | src/libs/my_async/include/my_async/tcp_client/impl/client_base_impl.hpp:252-261 | the write chain ends with its message kept and `fail` runs: one step of the transition system |
| `ClientContainer.Container.OnRead` | src/libs/my_async/include/my_async/tcp_client/impl/client_base_impl.hpp:168-178 | `read_handler` gets the bytes that arrived and the read is outstanding again |
| `ClientContainer.Container.Writing` | src/libs/my_async/include/my_async/tcp_client/impl/client_base_impl.hpp:236-243 | a posted write of this client moves on and no other client changes |
| `ClientContainer.Container.OnWrite` | src/libs/my_async/include/my_async/tcp_client/impl/client_base_impl.hpp:252-261 | a finished write of this client moves on and no other client changes |
| `ClientContainer.Container.SendStatus` | src/apps/tcp_client/tcp_client.cpp:83-86 | the status names exactly the endpoints registered now |
| `ClientContainer.Container.Perform` | src/libs/my_async/include/my_async/tcp_client/impl/client_base_impl.hpp:66-261 | whatever an enabled action of the transition system is, the handlers make it of the objects |
| `ClientContainer.RunHoldsOpenClients` | src/libs/my_async/include/my_async/tcp_client/impl/container_impl.hpp:41-77 | after a run without early reuse the map holds exactly the client objects not closed on request of which no chain ended but by a refused connection, each under its own endpoint |
| `ClientContainer.Serve` | src/libs/my_async/include/my_async/tcp_client/impl/client_base_impl.hpp:66-261 | the handlers, performed one after the other on fresh objects, bring them to the end of any run, with that true of their fields |
| `ClientRegistry.OnCloseKeepsInv` | src/apps/tcp_client/tcp_client_type.hpp:56-60 | a client with something outstanding that closes removes its own entry if it has one, and touches no other client |
| `ClientRegistry.StepKeepsInv` | src/libs/my_async/include/my_async/tcp_client/impl/container_impl.hpp:65-77 | every step that does not hand out an endpoint early keeps the registry invariant |
| `ClientRegistry.RegistryIsOpenClients` | src/libs/my_async/include/my_async/tcp_client/impl/container_impl.hpp:41-77 | with endpoints not reused before their old owner has drained, in every reachable state each entry is keyed by its client's saved endpoint, and a client has an entry if and only if it was not closed on request and no chain of it has ended with any code but a refused connection; every ended chain is accounted for |
| `ClientRegistry.RefusedStaysRegistered` | src/libs/my_async/include/my_async/tcp_client/impl/client_base_impl.hpp:409-411 | a run after which a client reads no more and is still registered, because its read ended with a refused connection |
| `ClientRegistry.StatusIsCurrentIff` | src/apps/tcp_client/tcp_client.cpp:83-86 | whatever happens, the last status names the endpoints registered now and those closed on request since, so it is up to date if and only if there are none of these |
| `ClientRegistry.RepeatedCloseIsHarmless` | src/apps/tcp_client/tcp_client.cpp:115-119 | under the same assumption a further failure of a client that is gone changes neither the registry nor any other client |
| `ClientRegistry.StaleCloseEvicts` | src/apps/tcp_client/tcp_client.cpp:115-119 | in any state, the close callback changes the registry if and only if somebody is registered under the saved endpoint |
| `ClientRegistry.EarlyReuseEvictsNewOwner` | src/apps/tcp_client/tcp_client.cpp:115-119 | a run in which an endpoint reused too early lets the failure of its old owner remove and close the new one |
| `ClientHistory.ClientIsItsHistory` | src/libs/my_async/include/my_async/tcp_client/impl/container_impl.hpp:83-95 | in every run a client is given to write exactly the data of the requests that named its endpoint while it was registered there, in order; its handler is given what its reads brought; it reads until a read fails; its close callback runs once for every failure but a refused connection |
| `ClientHistory.ClientsAreTheOpenings` | src/libs/my_async/include/my_async/tcp_client/impl/container_impl.hpp:41-46 | in every run the clients are those that opened, each with the endpoint and the kind it opened with |
| `ClientHistory.StatusForEachChange` | src/apps/tcp_client/tcp_client.cpp:83-119 | in every run one status is sent for each opening and each failure but a refused connection, and none for a close on request |
| `ClientHistory.ClosedWhenGone` | src/libs/my_async/include/my_async/tcp_client/impl/client_base_impl.hpp:391-414 | with endpoints not reused early, a client is asked to close once when it goes, once more for each error of its own, and never by another client |
| `Listeners.Listener.Write` | src/libs/my_async/include/my_async/listener/listener_base.hpp:125-131 | exactly the sessions with that remote endpoint get the data, once each |
| `Listeners.Listener.CloseClients` | src/libs/my_async/include/my_async/listener/listener_base.hpp:110-120 | exactly the sessions whose endpoint is listed are asked to close, once each |
| `Listeners.Listener.Close` | src/libs/my_async/include/my_async/listener/listener_base.hpp:97-105 | every session is asked to close once, and the acceptor once |
| `Listeners.Listener.Clients` | src/libs/my_async/include/my_async/listener/listener_base.hpp:75-83 | the list holds each endpoint as often as a session has it |
| `Listeners.Container.Open` | src/libs/my_async/include/my_async/listener/impl/container_impl.hpp:13-53 | a listener is entered only if the address is free, the protocol is built in and listening works; each error leaves the registry as it was, and the first of them to apply is the one reported |
| `Listeners.Container.Write` | src/libs/my_async/include/my_async/listener/impl/container_impl.hpp:58-72 | each session of the listener gets the data as many times as its endpoint is listed, and no session of another listener gets any |
| `Listeners.Container.CloseClients` | src/libs/my_async/include/my_async/listener/impl/container_impl.hpp:125-135 | each listed session of the listener is asked to close exactly once, however often it is listed, and no other |
| `Listeners.Container.Close` | src/libs/my_async/include/my_async/listener/impl/container_impl.hpp:91-105 | all sessions of the listener are asked to close once and the listener is forgotten; the others are untouched; an unknown endpoint changes nothing |
| `Listeners.Container.Clients` | src/libs/my_async/include/my_async/listener/impl/container_impl.hpp:110-120 | the endpoints of the listener's sessions with multiplicity, or an error and none |
| `ConfigText.DecimalRoundTrip` | src/arguments.cpp:74-76 | every printed `int` is read back whole when no digit follows |
| `ConfigText.LastAssignmentWins` | src/arguments.cpp:97-117 | each argument ends with the value of the last assignment to its key, and keeps its old value if there is none |
| `ConfigText.ScanIsSensible` | src/arguments.cpp:97-117 | only the known keys are assigned, only tokens to words, only machine integers to numbers |
| `ConfigReader.InStream.Getline` | src/arguments.cpp:99 | the loop over the characters stops at the first delimiter, and takes it; the end of the text sets the end bit, and the failure bit too if nothing was there; a stream that is not good keeps the old name |
| `ConfigReader.InStream.ExtractInt` | src/arguments.cpp:103-108 | spaces are skipped, a malformed number is stored as zero or the nearest integer and fails the stream |
| `ConfigReader.InStream.ExtractWord` | src/arguments.cpp:105-113 | spaces are skipped and the word taken; nothing left is a failure that changes nothing |
| `ConfigReader.InStream.IgnoreLine` | src/arguments.cpp:115 | the rest of the line goes |
| `ConfigReader.IterateKeepsOutcome` | src/arguments.cpp:97-117 | an iteration on a good stream shortens the text, or ends it, or fails it, and the arguments still to come out are the same as before |
| `ConfigReader.ReadingEndsIff` | src/arguments.cpp:97-117 | the loop ends if and only if no number before the end of the text is malformed |
| `ConfigReader.StuckNeverEnds` | src/arguments.cpp:97-117 | after a malformed number the end is not seen after any number of iterations |
| `ConfigReader.EndsWithOutcome` | src/arguments.cpp:97-117 | otherwise it is seen, and the arguments are then those the text says |
| `ConfigReader.ReadConfigFile` | src/arguments.cpp:86-120 | the loop over the stream object makes exactly the assignments of the text, in order, from any initial arguments |
| `ConfigReader.ReadAttribute` | src/arguments.cpp:99-116 | the body of the loop is one iteration |
| `ConfigReader.ReadForRounds` | src/arguments.cpp:97-117 | on any text at all, malformed or not, the loop is after any number of rounds where the iteration is, and has left if and only if that has seen the end |
| `ConfigRoundTrip.ScanPrintedInt` | src/arguments.cpp:74-76 | a printed number line is one assignment of that number, whatever follows |
| `ConfigRoundTrip.ScanPrintedToken` | src/arguments.cpp:74-76 | a printed word line is one assignment of that word if it is not empty and has no white space |
| `ConfigRoundTrip.ReadPrintedWord` | src/arguments.cpp:105-106 | a word that is no such token never comes back, as long as anything visible follows in the file |
| `ConfigRoundTrip.RoundTripIff` | src/arguments.cpp:70-84 | reading the printed arguments ends and restores them, for all integers, if and only if the address, and with SSL the key and the certificate, are not empty and without white space; a certificate of nothing but spaces also counts when it was there before |
| `ConfigRoundTrip.AddressIsCutAtASpace` | src/arguments.cpp:70-84 | an address with a space in it comes back as the part before the space, with the numbers intact |
| `ConfigRoundTrip.MalformedIsStuck` | src/arguments.cpp:103-108 | a value that does not begin like a number, where a number is expected, stores zero and is where reading gets stuck, whatever follows |
| `ConfigRoundTrip.TooLargeIsStuck` | src/arguments.cpp:103-108 | a number that does not fit is stored as the nearest one that does, and is where reading gets stuck too |
| `ConfigRoundTrip.ScanCutInt` | src/arguments.cpp:103-115 | what follows a number on its line is dropped |
| `ConfigRoundTrip.OtherLineIsSkipped` | src/arguments.cpp:99-116 | a line with another key is skipped, to its end and no further; an empty key is skipped alone |
| `ConfigRoundTrip.CommentSwallowsNextLine` | src/arguments.cpp:99-116 | a line without an equals sign, be it empty, makes the assignment on the next line be skipped |
| `ConfigRoundTrip.PrintedAssignments` | src/arguments.cpp:70-84 | a printed file assigns every argument once, in the order of printing, when its words are tokens |
| `ConfigRoundTrip.WordForPortNeverEnds` | src/arguments.cpp:97-117 | the loop never ends on a file that gives a word for the port |
| `ByteArray.HexIsRead` | src/libs/byte_array/byte_array.cpp:74-85 | the two digits of a byte, in either case, denote it |
| `ByteArray.OctoIsRead` | src/libs/byte_array/byte_array.cpp:87-97 | the three octal digits of a byte denote it |
| `ByteArray.HexIsOneCase` | src/libs/byte_array/byte_array.cpp:74-85 | the digits of a byte are upper-case or lower-case as asked |
| `ByteArray.HexLength` | src/libs/byte_array/byte_array.cpp:6-20 | for n > 0 bytes the text has 2n + length of the separator * ((n - 1) / spacing) characters |
| `ByteArray.HexAt` | src/libs/byte_array/byte_array.cpp:6-20 | the digits of each byte stand at a stated place, and the separator right in front of every byte whose index is a positive multiple of the spacing |
| `ByteArray.HexRoundTrip` | src/libs/byte_array/byte_array.cpp:6-20 | dropping what is no hexadecimal digit and pairing the rest gives back any bytes, for either case, every spacing and every separator without such a digit |
| `ByteArray.Bytes.ToHex` | src/libs/byte_array/byte_array.cpp:6-20 | the loop, with the separator after every full group but the last, prints what the specification does with the separator in front |
| `ByteArray.BodyIsRead` | src/libs/byte_array/byte_array.cpp:39-68 | no escape is a prefix of another one's: what stands between the delimiters is read back whatever follows |
| `ByteArray.EscapeRoundTrip` | src/libs/byte_array/byte_array.cpp:29-72 | for every format and all delimiters of which the first starts with a character never copied, decoding gives back the bytes, but for 0x0D read as 0x0A in the first format |
| `ByteArray.UnchangedIff` | src/libs/byte_array/byte_array.cpp:35-38 | an array is printed as it is if and only if all bytes are between space and tilde and none is a backslash, except that without delimiters the first format prints a backslash as it is too |
| `ByteArray.BodyIsPrintable` | src/libs/byte_array/byte_array.cpp:40-67 | between the delimiters stand upper-case digits and no letters but the four of the escapes |
| `ByteArray.TextIsPrintable` | src/libs/byte_array/byte_array.cpp:29-72 | whatever the bytes, the text is printable if the delimiters are |
| `ByteArray.PrintsAlikeIff` | src/libs/byte_array/byte_array.cpp:29-72 | two arrays are escaped alike if and only if they are equal, up to that one confusion in the first format |
| `ByteArray.DefaultDelimitersMark` | src/libs/byte_array/byte_array.cpp:29-30 | the default delimiters are of that kind |
| `ByteArray.RawDelimitersAreAmbiguous` | src/libs/byte_array/byte_array.cpp:29-72 | delimiters made only of copied characters make different arrays print alike, in every format |
| `Delimiters.FirstEscape` | src/libs/byte_array/byte_array.cpp:34-69 | the first character of a text that is never copied stands at a fixed offset in its first escape |
| `Delimiters.NeverMeets` | src/libs/byte_array/byte_array.cpp:41-46 | a reading of a text that takes a backslash of the second delimiter for an escaped one never comes together with the right reading |
| `Delimiters.EqualTextsLookAlike` | src/libs/byte_array/byte_array.cpp:29-72 | equal texts are of arrays that look alike, for every format and all delimiters with some character that is never copied |
| `Delimiters.UnambiguousIff` | src/libs/byte_array/byte_array.cpp:29-72 | texts tell all arrays apart, up to the one confusion of the first format, if and only if some character of the two delimiters is never copied |
| `ByteArray.Bytes.ToEscapedString` | src/libs/byte_array/byte_array.cpp:29-72 | the loop over the bytes prints the escapes of all of them in order |
| `ByteArray.Bytes.Append` | src/libs/byte_array/byte_array.cpp:35-68 | one round of the loop: the byte itself, or delimiter, body and delimiter |
| `Json.LookupAppended` | src/core/include/core/json/factory.hpp:49-50 | an added member is found if and only if its key was not there before |
| `Json.LookupOverwritten` | src/core/include/core/json/factory.hpp:57 | an assignment through `operator[]` is seen through its own key only and moves no member |
| `Json.MakeDataArray` | src/core/json/factory.cpp:327-334 | the array holds each byte as a number, in order |
| `Json.ToByteArray` | src/libs/utility/src/json_helper.cpp:30-45 | the low bytes of the elements of an array, or of the values of an object, are appended in order; anything else adds nothing and is refused |
| `Json.BytesRoundTrip` | src/libs/utility/src/json_helper.cpp:30-45 | `json_2_byte_array` inverts `make_data_array` |
| `Json.LowBytesAreRemainders` | src/libs/utility/src/json_helper.cpp:33 | of each number the remainder by 256 is kept |
| `Json.LowBytesLoseNothingIff` | src/libs/utility/src/json_helper.cpp:33 | an array of unsigned numbers survives the way through bytes if and only if all of them are below 256 |
| `Dispatcher.FirstRegistrationStands` | src/core/app.cpp:31-37 | after any registrations each app has its first one |
| `Dispatcher.Apps.Register` | src/core/app.cpp:31-37 | a known app is left as it is; another is entered under itself |
| `Dispatcher.Apps.Find` | src/core/app.cpp:39-46 | the registration of the app, or none |
| `Dispatcher.Apps.FindName` | src/core/app.cpp:48-57 | some app of that name, or none if there is no such app |
| `Dispatcher.Apps.Exec` | src/core/app.cpp:59-70 | whether the app is registered, and that its own handler is the only one to run, if it has one |
| `Envelope.ControlNamesAgree` | src/apps/main/json/parser.cpp:44-57 | the table the parser reads and the one the factory writes from are inverse to each other, with these names |
| `Envelope.Counters.GetMid` | src/core/functions.cpp:13-18 | every call returns the next number |
| `Envelope.Counters.UserId` | src/core/functions.cpp:6-11 | every call returns the next number |
| `Envelope.Writer.WriteHeader` | src/core/json/factory.cpp:279-325 | the four members every message begins with are added in order, with a fresh counter |
| `Envelope.Create` | src/core/json/factory.cpp:24-343 | the written object has the name of the app, one fresh counter, the server's user id, the time, the kind and the payload, in this order, for every overload |
| `Envelope.MakeStringArray` | src/core/json/factory.cpp:336-343 | the texts, each as far as its first zero character |
| `Envelope.CheckMessage` | src/apps/main/json/parser.cpp:71-76 | true if and only if it is an object whose first app, time and type members have the right types |
| `Envelope.GetType` | src/apps/main/json/parser.cpp:29-60 | the kind is read if and only if the type is data, or control with a known name; the control of a data message is left alone |
| `Envelope.ParserMain` | src/apps/main/json/parser.cpp:16-23 | succeeds if and only if there is a header and an app of its name, and then stores what the header says |
| `Envelope.MessageLookups` | src/core/json/factory.cpp:279-325 | the first member of each key of a built message is the one the factory meant |
| `Envelope.MessageOrder` | src/core/json/factory.cpp:279-325 | the members stand in the order in which they are written |
| `Envelope.MessageHeader` | src/apps/main/json/parser.cpp:16-60 | the header read from a built message is the one it was built with |
| `Envelope.HeaderIff` | src/apps/main/json/parser.cpp:16-76 | a header is read if and only if the members have it: a text for the app, a 64-bit number for the time, and for the type data, or control with the name of a control; texts count up to their first zero character |
| `Envelope.EnvelopeRoundTripIff` | src/apps/main/json/parser.cpp:16-76 | for every app, counter, time, kind and payload the parser recovers app, type, control and time, if and only if the registered names are distinct |
| `Envelope.BuiltIsAccepted` | src/apps/main/json/parser.cpp:16-76 | a message built for a registered app is always accepted |
| `Envelope.Document.AddMid` | src/core/include/core/json/factory.hpp:45-63 | the document in place: two members added, the first time overwritten, one counter used; without a time the program stops at the assertion of `operator[]` |
| `Envelope.StampedLookup` | src/core/include/core/json/factory.hpp:45-63 | every key but three is found as before; the time is the server's; a client's own `smid` or `echoed` hides the server's |
| `Envelope.StampedKeepsOrder` | src/core/include/core/json/factory.hpp:45-63 | no member is moved or renamed, and the two new ones come last |
| `Envelope.StampingKeepsMeaning` | src/core/json/websocket_session.cpp:71-79 | a message is accepted before stamping if and only if it is accepted after and its own time was an unsigned number; app, type and control are the same and the time is the server's |
| `Envelope.BytesSurvive` | src/libs/utility/src/json_helper.cpp:30-45 | bytes put in a message come out again after it was built, stamped and looked up |
| `Envelope.PayloadSurvivesIff` | src/core/json/factory.cpp:24-343 | every payload, number, bytes, value, text or texts, is found in the built message as it was meant, and still after stamping, if and only if none of its texts has a zero character |
| `Envelope.TextSurvivesIff` | src/core/json/factory.cpp:63 | a text payload is kept if and only if it has no zero character |
| `Envelope.Receive` | src/core/json/websocket_session.cpp:59-86 | for any object: without a time the program stops; otherwise what is parsed is the stamped message, the handler that runs is that of an app of the name in it, and the answer that there is no such app is never given |

## Left out

- BroadcastOrder.SessionGetsSegment: single-threaded only; with several threads a stamp and its submission are not one step, and the order of two broadcasts can differ between sessions.
- Monitor.AfterCancel: memory ordering of plain fields is not modelled; `keep_reading_` is read and written as one step each.
- ConfigReader.ReadConfigFile: texts with a malformed number before their end are excluded, because the loop does not end on them; `ConfigReader.ReadForRounds` is the same loop on any text, and `ConfigReader.ReadingEndsIff` says on which it ends.
- Json.ToByteArray: elements that are not unsigned numbers are excluded, because `GetUint` may not be asked of them; the parsers of the apps that call it do not check.
- BroadcastObjects.Propagator.OnMessage: a message without a time, which stops the program, is not one of its cases; `Envelope.Receive` has it.
- Envelope.Create: an app that is not registered is excluded, because its name would be a null pointer given to the writer; the moved-from state of a `Value` payload is not modelled.
- Envelope.Counters.GetMid: the counters do not wrap around at the width of `long`, and are stepped by one thread.
- ByteArray.Bytes.ToEscapedString: the 32-bit loop index does not wrap around.
- The C++ library, the sockets, TLS and the WebSocket protocol: an operation has an outcome and nothing more. Handshakes of TLS and of HTTP upgrade are one step with an outcome.
- `close` and `closed` of a WebSocket session, and its text or binary flag: no path of the daemon closes one from the server.
- The posted `closing` tasks only run; what shutting a socket down does to outstanding operations is part of their outcomes.
- `endpoint()` throwing on a socket that is no longer connected, and the keep-alive options.
- Text of JSON: members and their order are modelled, parsing and printing of characters are not.
- The read side of UDP and serial, whose loop is that of `Stream`, and their open, close and option calls but for the UDP container.
- Opening a TCP client that fails before its connection is established: it is never registered.
- `endpoints`, `size` and `count` of the containers, `to_string` and `copy` of the byte array: they only list or copy.
- The fields each app expects in its own messages, the UDP client, the dual listener, file locks and the command line.
- Figures of processor and memory use: sampling is an outcome.
- TcpServer.Session.OnOpen: the keep-alive options set on opening are socket options and not modelled; of a status only whether it lists the session itself.
- TcpRequests.ClosingAsksIff: the container's operations do not overlap each other; its map is not synchronised.
