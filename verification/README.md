# Quickshare transfer protocol: a verified model

Quickshare lets the clients of a session send files to each other through one server. This project
models that protocol from end to end (the clients' transfer slots, the server's tables and message
queues, the streams between them) together with the data structures that carry it, and proves what the
protocol is for: recipients end up with the host's file, nobody joins a transfer that has started, the
tables and the user lists stay right whatever connects, cancels and disconnects, and no byte or command is
lost, repeated or reordered on the way.

`dafny verify dfyconfig.toml` checks everything.

## How it is built

The protocol is modelled twice, and the two are tied together.

* **On values.** `Wire` (packets), `FileModel`, `Slots` (a client's Transfer_Manager), `ServerModel` (the
  tables and one function per packet handler) and `Network` (the whole system: one server, every client that
  ever connected, a FIFO stream in each direction, one action per handled packet, GUI command, produced
  packet, connect and disconnect). `Reachable` is what the system can get into by any run.
* **As it runs.** `FileManager`, `TransferManager`, `Database`, `ServerProcess`, `UserList`, `RingQueue`,
  `SessionNotices`, `FrameReader`, `Output` and the constructor in `Capacity` are classes and methods that
  update fields, arrays and queues in place, with the loops of the source. Each is proved to do what the
  functions say, or to meet a specification of its own.

The proof about all runs goes in three steps.

1. `WellTyped` and `Typing`: whatever refers to a transfer refers to one request of one host and to the file
   that host was asked to send. Table integrity is a part of this.
2. `Lanes`: everything that concerns one transfer and one of its recipients is a lane (two slots, one row, four
   streams summed up by `Flows`), with 23 moves and one invariant, `Sound`.
3. `Views`, `ClientMoves`, `ServerMoves`, `Simulation` and `Preservation`: every action of the system makes a
   move of every lane. So every lane of every reachable state is sound, and `EndToEnd` reads the theorems off.

`Requests`, `Transitions`, `Membership` and `Guarantees` hold what is not about one lane, `ManagerRuns` what a
manager keeps on its own, and `Delivery` a run for every file, so that none of this is about nothing.
`Joining` holds what a client is sent before it has joined, `Streams` joins the two ends of a connection.
`Shortcomings` and `Mishaps` say, in theorems and in runs, where the protocol leaves a recipient stranded.
`Decisions`, `Waiting`, `Logs` and `Sessions` say that what is asked for is done: the user's answers and cancels, the
server's answers, the log, and the sessions. `TicketQueue` is the lock-free queue as interleaved atomic steps, and
`TicketProgress` what its calls come to.

## What is assumed

* Client ids are distinct and not 0: the server takes them from the clock (qs_server/src/client.c:59), which is
  taken to advance between two accepts.
* Transfer ids are not used again: a counter stands for the row ids of SQLite.
* The tables start empty and SQL statements succeed; a select walks a snapshot of the rows it matches.
* A client sends transfer packets only after SERVER_OK, names distinct recipients, and does not name itself.
* A message queue with room is a condition for a packet to be enqueued by the handlers, and a free receive slot
  is one for a REQUEST to be delivered; the source asserts both. At most 32 clients connect at a time.
* A packet that do_work has produced is written out before it is called again. (src/network.cpp:465-473 tests
  only that none of it has been written, so a packet of which nothing has been written could be overwritten.)
* Every connection is a client process of its own, with an idle manager. A process that reconnects and keeps the
  Transfer_Manager singleton of its earlier connection is not modelled.
* fread fills its buffer unless the file ends, and writes to a file succeed.

## Where the code falls short of its intention

* A recipient that cancels one transfer is deleted from all of them (qs_server/src/net_packet.c:454,
  qs_server/src/database.c:33-34). `RecipientCancelTables` says exactly what is lost, and `Mishaps.CancelSpillsOver`
  is a run, for every file, in which a recipient loses a transfer that goes on. The theorems about the bytes hold
  all the same.
* A CANCEL that arrives while a recipient's slot is in ACCEPT or DENY is ignored (include/transfer_manager.hpp:35-41).
  `CancelFreesExactly` says when the slot is freed. A slot in DENY is freed when its reply is sent (`DecisionSent`). A
  slot in ACCEPT becomes ACTIVE at that turn, and `MissedCancelStrands` says what every further run makes of it;
  `Mishaps.CancelMissed` is such a run for every file.
* The spilt cancel, and the cancel missed in ACCEPT, leave the recipient with an ACTIVE slot that the server knows
  nothing of. `StrandedForever`: over every further run the slot stays ACTIVE and its file does not grow, unless the
  recipient's own user cancels.
* The batch of users in the message to a joiner is counted by incrementing a field of a queue slot that is not
  cleared (qs_server/src/net_packet.c:46). `Batch` says what the loop makes of any slot, and that the joiner reads
  the right users if and only if the count left in the slot is 0. In the system it always is: `Joining.JoinerIsSent`
  proves for every run that a client is put nothing but DENY, a header, in its queue from its connect until the OK
  and the batch, and `SessionNotices.Joiner` that after any header-only messages and any dequeues since the connect
  the batch is read right.
* The capacity assertion of secure_queue_write (qs_server/src/secure.c:50-53) is strict, and write_data encrypts the
  next packet even when the socket has just blocked. `AbortsIffCrowded`: some behaviour of the socket makes it fail if
  and only if, when write_data is called, what is in the buffer leaves no room for the first queued packet, or one
  queued packet leaves none for the next. `TwoFullPackets`: two packets of 1440 bytes and a socket that takes
  nothing are enough.
* A producer that loads the tail, is overtaken by a whole round of pushes and pops, and only then tests its node is turned
  away although there is room (include/LockFreeQueueCpp11.h:60-66). `CheckDecides` says exactly when.
* The queue's capacity is 0 for a requested capacity of 0 or of more than 2^63 (`Capacity.Round`).

## Model

| member | source | states |
|---|---|---|
| EndToEnd.ReceivedIsPrefix | src/transfer_manager.cpp:366-414 | in every reachable state, what any busy receive slot has written is a prefix of the file that the host was asked to send |
| EndToEnd.CompletedIsWhole | src/transfer_manager.cpp:380-394 | whenever recv_complete finds its slot and logs COMPLETE, what has been written equals the host's whole file |
| EndToEnd.BytesConserved | qs_server/src/net_packet.c:367-386 | for a recipient that has accepted: bytes written, bytes on the way to it and bytes on the way to the server are, in this order, what the host has read out of its file |
| EndToEnd.NobodyUndecided | src/transfer_manager.cpp:99-137 | while a host slot is ACTIVE no recipient's row is unanswered and no reply is in flight, to the server or to the host |
| EndToEnd.AcceptedOnlyShrinks | qs_server/src/net_packet.c:321-360 | from a state with an ACTIVE host slot on, over every further run, nobody enters the set of accepted recipients |
| EndToEnd.CancelFreesExactly | src/transfer_manager.cpp:171-201 | a CANCEL delivered to a recipient frees its slot if and only if the slot is ACTIVE or waits for the user |
| Decisions.DecisionNoted | src/transfer_manager.cpp:221-240 | in every reachable state the user's answer goes to the one slot of the offer, as ACCEPT or DENY, and changes nothing else |
| Decisions.DecisionTold | src/transfer_manager.cpp:546-574 | at its turn a decided slot sends exactly that decision; accepted it is ACTIVE with the same header, denied it is freed and logged |
| Decisions.AnswerIsTheUsers | src/transfer_manager.cpp:221-240 | both steps together: the reply that goes to the server is what the user has said |
| Decisions.NoMeansNo | src/transfer_manager.cpp:221-240 | after a user's no, over every further run: the row is never accepted and nothing is ever written for the transfer |
| Decisions.CancelNoted | src/transfer_manager.cpp:242-272 | in every reachable state the user's cancel reaches the receive slot of the transfer if it can be cancelled, or else the host slot, and no other |
| Decisions.CancelTold | src/transfer_manager.cpp:488-507 | at its turn a receive slot in CANCEL tells the server, is freed and logged under its name |
| Waiting.AnswerIsComing | src/transfer_manager.cpp:509-544 | in every reachable state, for every host slot in GET_RESPONSE exactly one packet about its request is under way: the REQUEST up, or its VALID or INVALID down |
| Waiting.AnswerTaken | src/transfer_manager.cpp:65-97 | that answer, when delivered, moves exactly the slot that waits for it: to PENDING with its id, or to CANCEL |
| Waiting.InvalidFreesSlot | src/transfer_manager.cpp:88-93 | after an INVALID and the slot's turn the slot is free and the log has one more entry, cancelled, under its name |
| Logs.ArrivalsLog | src/transfer_manager.cpp:171-201 | a packet frees a slot only if it is COMPLETE or CANCEL and finds one, exactly one, and the log says which and why |
| Logs.TurnsLog | src/transfer_manager.cpp:296-353 | a turn frees a slot exactly when it sends COMPLETE, CANCEL or a reply no, and the log says which and why |
| Logs.DataTold | src/transfer_manager.cpp:435-486 | the turn of an ACTIVE slot sends the next bytes while there are any, then COMPLETE, or CANCEL if the file broke |
| Logs.RequestTaken | src/transfer_manager.cpp:35-63 | a request takes a free slot whenever there is one, with all the user has named |
| Logs.RequestTold | src/transfer_manager.cpp:509-544 | the turn of a slot with a request sends it as the user has made it |
| Shortcomings.StrandedForever | src/transfer_manager.cpp:327-394 | an ACTIVE receive slot with no row at the server and nothing about it on its way stays ACTIVE, with the same bytes, over every further run in which its user does not cancel it |
| Shortcomings.MissedCancelStrands | include/transfer_manager.hpp:35-41 | whenever a CANCEL reaches a slot in ACCEPT, over every further run without the user's cancel the slot stays in ACCEPT until its reply is sent and is ACTIVE and stranded ever after, with nothing written |
| Shortcomings.DecisionSent | src/transfer_manager.cpp:546-574 | at its turn a slot in ACCEPT becomes ACTIVE and a slot in DENY is freed |
| Mishaps.CancelMissed | include/transfer_manager.hpp:35-41 | for every file a run in which a CANCEL reaches a slot in ACCEPT, is ignored, and the recipient ends up stranded while the server's tables are empty |
| Mishaps.CancelSpillsOver | qs_server/src/database.c:33-34 | for every file a run in which a recipient that has accepted two transfers cancels one: serving the cancel deletes its row in the other, which is still open, and strands the recipient there |
| Delivery.FileArrives | src/transfer_manager.cpp:355-394 | for every non-empty file there is a run after which the recipient has logged COMPLETE and holds the whole file, and the server's tables are empty again: the theorems about all runs are not vacuous |
| Preservation.NextMoves | qs_server/src/net_packet.c:528-561 | refinement: every action of the system makes one move of every lane, for all transfers and recipients |
| Preservation.ReachableInvariant | qs_server/src/net_packet.c:528-561 | every reachable state is well typed and all its lanes are sound |
| Lanes.MoveSound | src/transfer_manager.cpp:327-394 | each of the 23 moves of a lane keeps its invariant: order of the streams, one answer per recipient, where every byte is |
| ClientMoves.DeliverHeld | src/transfer_manager.cpp:139-201 | what each packet from the server does to the one slot a recipient has for a transfer, and that no packet about another transfer touches it |
| ClientMoves.ProduceHeld | src/transfer_manager.cpp:327-353 | a work step changes a recipient's slot only by sending the reply it has decided on or the cancel it owes |
| ClientMoves.DeliverSource | src/transfer_manager.cpp:65-137 | what each packet does to the host's slot: a recipient's answer counts for that recipient, another's never makes it counted |
| ClientMoves.ProduceSource | src/transfer_manager.cpp:435-486 | a work step sends the next bytes of the file from an ACTIVE slot only, COMPLETE only when all have been sent |
| ServerMoves.CloseGot | qs_server/src/net_close.c:27-93 | what a closing client makes the server send to either end of any transfer |
| Typing.NextTyped | qs_server/src/net_close.c:80-122 | every action keeps everything that names a transfer, tables included, referring to one request and its file |
| Requests.ReachableRequests | src/transfer_manager.cpp:509-544 | in every reachable state a request is unsent, or queued once, or accepted as one transfer, never two of these |
| Requests.ValidFirst | qs_server/src/net_packet.c:301-302 | in every host's incoming stream VALID(t) comes before every REPLY(t) and CANCEL(t) |
| Requests.NoEarlyAnswer | src/transfer_manager.cpp:203-219 | no reply or cancel reaches a host whose slot for that transfer is still in GET_RESPONSE |
| Transitions.SlotsFollowGraph | src/transfer_manager.cpp:296-353 | from one reachable state to the next each slot moves along its transition graph, CANCEL is left only to EMPTY, and percentages do not decrease while a slot serves one transfer |
| Transitions.PercentagesBounded | src/file_manager.cpp:162-165 | recipient's percentage <= host's percentage <= 100 while the host slot holds the transfer |
| Transitions.RecipientBounded | src/file_manager.cpp:200-206 | a recipient's percentage never exceeds 100, whatever has become of the host |
| ManagerRuns.SlotConservation | src/transfer_manager.cpp:416-574 | over all runs of a manager: transfers started = slots in use + entries of the backlog |
| ManagerRuns.LocalsDistinct | src/transfer_manager.cpp:35-63 | over all runs live host slots have distinct local ids, all given out before |
| ManagerRuns.ReplyOrder | src/transfer_manager.cpp:99-137 | for every list of recipients and every order of one answer (yes, no or a cancel) from each, the slot stays PENDING until the last and then is CANCEL if nobody said yes, ACTIVE otherwise; no other slot changes |
| Guarantees.TablesIntact | qs_server/src/database.c:181-200 | in every reachable state each row names an existing transfer, and every creator and recipient named is a live COMPLETE client of the same session |
| Guarantees.LookupsSucceed | qs_server/src/net_packet.c:332-342 | in every reachable state the client lookups that the handlers assert, or test, do succeed |
| Guarantees.TransferDecides | qs_server/src/net_packet.c:133-160 | a request is accepted iff it names somebody and everybody it names is connected and in the sender's session |
| Sessions.IntroDecides | qs_server/src/net_packet.c:73-123 | a client is admitted iff it is new and names a new session to create or an existing one to join, and then it is in that one; otherwise the only effect is DENY |
| Sessions.SessionHasOneName | qs_server/src/database.c:135-159 | in every reachable state a client's session has exactly one name |
| Sessions.SameSessionSameName | qs_server/src/net_packet.c:101-121 | over all runs two clients are in the same session iff they have named the same |
| Guarantees.TransferAllOrNothing | qs_server/src/net_packet.c:282-310 | VALID to the creator, one unanswered row and one REQUEST with the new id for each recipient, nothing to anybody else; or unchanged tables and INVALID only |
| Guarantees.ReplyReaches | qs_server/src/net_packet.c:321-360 | a reply changes the answering client's row only, if there is one, and goes to the creator only, under the sender's id |
| Guarantees.DataReaches | qs_server/src/net_packet.c:367-386 | data goes once to each client whose row says yes and to nobody else |
| Guarantees.CompleteReaches | qs_server/src/net_packet.c:492-526 | COMPLETE from the creator reaches each client whose row says yes and ends that transfer and no other; from anybody else it does nothing |
| Guarantees.CancelReaches | qs_server/src/net_packet.c:470-490 | whom a cancel reaches and when it ends the transfer, by what the tables say about sender and receiver |
| Guarantees.RecipientCancelTables | qs_server/src/net_packet.c:428-460 | a recipient's cancel deletes its rows in all transfers and no others; its row elsewhere survives iff there is none |
| Guarantees.ClosingNotices | qs_server/src/net_close.c:9-93 | for all tables: what any other client is sent when one closes, exactly one CANCEL per shared transfer (recipient with accepted != 0, or creator) and none else, all before the DEL_USERS |
| Guarantees.ClosedTables | qs_server/src/net_close.c:80-122 | after closing no row or transfer mentions the client, and all other rows and transfers are as before |
| Membership.ReplicasAgree | qs_server/src/net_packet.c:15-52 | in every reachable state, a COMPLETE client's user list with the queued NEW and DEL messages applied lists every other COMPLETE client of its session exactly once, by name, and nobody else |
| Membership.NextAgrees | qs_server/src/net_close.c:9-25 | every action keeps all the replicas in agreement with the server's client table |
| Membership.JoinerLists | qs_server/src/net_packet.c:24-51 | the batch sent to a joiner lists its fellows, each once |
| Membership.LeaverRemoved | src/users.cpp:38-60 | erasing the first entry with the id turns a right list into the right list without the leaver |
| TicketQueue.RefinesFifo | include/LockFreeQueueCpp11.h:57-100 | with any number of producers, under every interleaving of atomic steps: popped is a prefix of pushed in ticket order, and head <= tail <= head + capacity |
| TicketQueue.PopRemovesPeeked | include/LockFreeQueueCpp11.h:75-100 | from every state a run from a new queue can reach: the element a peek has copied is the one the next successful pop removes, whatever the producers do in between |
| TicketQueue.OneOwner | include/LockFreeQueueCpp11.h:57-100 | in every state a run from a new queue can reach, no two threads own the data of the same node |
| TicketQueue.RefusedExactly | include/LockFreeQueueCpp11.h:64-66 | in every state a run from a new queue can reach, the node of the current ticket is not free iff the queue is full, counting an element whose pop has not released its node |
| TicketProgress.CheckDecides | include/LockFreeQueueCpp11.h:64-66 | what the test in push decides, for every ticket: with the current one the producer is turned away iff there is no room; with an older one still in the queue it goes on to the compare-and-swap; with one that has been popped it is turned away whatever room there is |
| TicketProgress.ClaimDecides | include/LockFreeQueueCpp11.h:67-68 | the compare-and-swap succeeds with the current ticket, unless it fails spuriously; otherwise push starts over with the tail as it is now |
| TicketProgress.PopClaimDecides | include/LockFreeQueueCpp11.h:95-96 | the compare-and-swap of pop takes the oldest element, unless it fails spuriously; then pop starts over |
| TicketProgress.PushSucceeds | include/LockFreeQueueCpp11.h:57-73 | from every reachable state with room a whole push is possible, appends exactly its value, published, and changes nothing else |
| TicketProgress.PushRefused | include/LockFreeQueueCpp11.h:57-66 | without room push returns with the queue as it was |
| TicketProgress.PeekDecides | include/LockFreeQueueCpp11.h:75-85 | a whole peek copies the oldest element iff it has been published, and otherwise finds nothing |
| TicketProgress.PopDecides | include/LockFreeQueueCpp11.h:87-100 | a whole pop removes the oldest element iff it has been published, and otherwise changes nothing |
| TicketProgress.NothingForgotten | include/LockFreeQueueCpp11.h:70-72 | in every reachable state an element in the queue can be read iff no producer is still writing it |
| TicketProgress.EmptyExactly | include/LockFreeQueueCpp11.h:75-85 | while nobody is writing, the queue looks empty to the consumer only when it is |
| TicketQueue.CellIsModulo | include/LockFreeQueueCpp11.h:63 | the node of a ticket is the ticket modulo the capacity |
| TicketQueue.NextInv | include/LockFreeQueueCpp11.h:57-100 | each of the 13 atomic steps keeps the invariant of nodes, tickets and threads |
| Capacity.Round | include/LockFreeQueueCpp11.h:15-20 | for 1 <= n <= 2^63 the result is the least power of two >= n and the mask is one less; for every other n it is 0 |
| Capacity.SetBelow | include/LockFreeQueueCpp11.h:18-19 | the shift-or loop sets every bit below the highest and no other |
| Capacity.MaskIsModulo | include/LockFreeQueueCpp11.h:63 | masking with k ones is the remainder by the k-th power of two |
| Capacity.LengthTest | qs_server/src/queue.c:9-11 | n & (n - 1) is 0 exactly for powers of two |
| RingQueue.Init | qs_server/src/queue.c:7-23 | a queue is created iff its length passes the test, and it is empty |
| RingQueue.RingQueue.Reset | qs_server/src/queue.c:25-35 | every slot is blank and nothing is queued |
| RingQueue.RingQueue.Enqueue | qs_server/src/queue.c:47-65 | a slot is handed out iff there is room; the queue is the old one followed by whatever is in that slot |
| RingQueue.RingQueue.Fill | qs_server/src/network.c:97-127 | writing the slot replaces the last element and nothing else |
| RingQueue.RingQueue.Peek | qs_server/src/queue.c:67-73 | the oldest element, if any |
| RingQueue.RingQueue.Dequeue | qs_server/src/queue.c:75-91 | the oldest element is returned and removed |
| SessionNotices.Batch | qs_server/src/net_packet.c:28-47 | the loop on any slot: users found are written from the front, counted on top of the count k left in the slot; a client reads exactly the users found iff k is 0 |
| SessionNotices.Admit | qs_server/src/net_packet.c:54-59 | from a queue none of whose slots holds a count: the answer OK, and a batch that is read right |
| SessionNotices.Joiner | qs_server/src/client.c:56-73 | from the connect on, after any header-only messages and any dequeues: OK and a batch that tells exactly the users found, sent iff somebody was found and there is room |
| Joining.JoinerIsSent | qs_server/src/net_packet.c:73-123 | over every run a client is sent only DENY between its connect and its admission, and then OK followed at once by the batch of its peers |
| Joining.OnlyHeaders | qs_server/src/net_packet.c:82-107 | in every reachable state nothing but DENY is on its way to a connected client that is not COMPLETE |
| Joining.SentToNewcomer | qs_server/src/net_packet.c:528-561 | no action makes the server send anything else to a client that is not COMPLETE: no relayed packet, no request, no cancel, no notice |
| SessionNotices.Respond | qs_server/src/net_packet.c:54-59 | a header-only answer leaves the bodies of all slots alone |
| SessionNotices.Take | qs_server/src/queue.c:75-91 | the oldest message is taken and the bodies of all slots are left alone |
| SessionNotices.Announce | qs_server/src/network.c:97-127 | a single NEW_USERS message is right in a used slot as well |
| UserList.UserList.AddUsers | src/users.cpp:19-36 | the first users_len entries are appended in order |
| UserList.UserList.RemoveUser | src/users.cpp:38-60 | the first user with the id is erased, as the replica's specification says |
| Chunks.FileRoundTrip | src/file_manager.cpp:120-217 | a file of n > 0 bytes makes exactly 3*(n/3072) + ceil(n%3072 / 1416) packets of 1 to 1416 bytes, then COMPLETE; they concatenate to the file, and write_work on them rebuilds it and shows 100 |
| FileModel.ReadStep | src/file_manager.cpp:170-186 | one read_work hands out the next bytes of the file or finds its end, never anything else |
| FileManager.FileManager.Read | src/file_manager.cpp:120-186 | the buffered reader does what the specification says, to every field |
| FileManager.FileManager.Write | src/file_manager.cpp:188-217 | the writer appends the bytes and updates count and percentage |
| Framing.FramesOfEncoded | qs_server/src/net_write.c:52-56 | parsing serialised packets followed by anything gives back those packets first |
| Framing.EncodedFrames | qs_server/src/net_read.c:63-79 | serialising what was parsed, followed by what was left, gives back the stream |
| Framing.FramesAppend | qs_server/src/net_read.c:53-81 | how a stream is cut into pieces makes no difference |
| Framing.PrefixOfStream | src/network.cpp:331-373 | whoever has read a prefix of a stream of packets has been handed a prefix of the packets |
| FrameReader.FrameReader.DecryptData | qs_server/src/net_read.c:53-81 | reads all that has arrived, in pieces of any length; the packets handed over and the bytes retained are those of the stream read so far |
| FrameReader.FrameReader.ReadData | src/network.cpp:331-373 | the same for the client's loop, which stops only when no part of what has arrived is at hand |
| FrameReader.FrameReader.HandsOverExactly | qs_server/src/net_read.c:68-77 | over any number of calls: exactly the packets sent, in order, and exactly the unfinished remainder |
| Streams.ReaderFollowsWriter | qs_server/src/net_write.c:89-131 | writer and reader together: a reader of what has left the server has handed over the first of the packets that were queued, in order, and all of them once it has read everything |
| Output.Output.Enqueue | qs_server/src/net_packet.c:344-348 | the stream of a client grows by the packet iff its queue has room |
| Output.Output.WriteBytes | qs_server/src/net_write.c:15-50 | whatever the socket answers, bytes written and bytes buffered are together unchanged; the buffer is empty iff it neither blocked nor failed |
| Output.Output.Append | qs_server/src/secure.c:48-61 | bytes are appended iff the buffer stays strictly below its size |
| Output.Output.Encrypt | qs_server/src/net_write.c:52-87 | the packet is in the buffer, whole and in order, iff there was more room than it takes |
| Output.Output.WriteData | qs_server/src/net_write.c:89-131 | for whatever the socket answers: outcome and new state are those of the value-level write_data; sent ++ buffered ++ queued = everything ever enqueued; a call that does not block sends it all; no abort unless crowded |
| Output.AnswersDecide | qs_server/src/net_write.c:26-46 | why write_data stops, by the answers it has used: all but the last took bytes; it closes the client iff the last was a failure, and is blocked iff the socket would block with bytes left |
| Output.OutputConserves | qs_server/src/net_write.c:105-130 | for every buffer, queue and socket behaviour nothing is lost, repeated or reordered, and what has left only grows |
| Output.AbortsIffCrowded | qs_server/src/secure.c:50-53 | some socket behaviour makes the capacity assertion fail iff the buffer and the first packet, or two neighbouring packets, come to 2880 bytes when the call is made |
| Output.TwoFullPackets | qs_server/src/net_write.c:118-126 | two packets of 1440 bytes and a socket that would block make the assertion fail |
| TransferManager.TransferManager.CmdHostRequest | src/transfer_manager.cpp:35-63 | the first free slot, and no other, takes the request and the next local id; nothing changes when no slot is free or the file is empty |
| TransferManager.TransferManager.CmdRecvRequestReply | src/transfer_manager.cpp:221-240 | only the first slot that waits for the user on this transfer is decided |
| TransferManager.TransferManager.CmdCancel | src/transfer_manager.cpp:242-272 | at most one slot goes to CANCEL: a cancellable receive slot of the transfer, or else a host slot |
| TransferManager.TransferManager.ProcessCmds | src/transfer_manager.cpp:274-294 | the new state is that of the run of all queued commands, each once and in order; none is left |
| TransferManager.CommandsAreRun | src/transfer_manager.cpp:274-294 | draining the queue is a run of single commands, as the system takes them |
| TransferManager.TransferManager.HandleValid | src/transfer_manager.cpp:65-97 | only the slot waiting under that local id goes to PENDING with its transfer id, or to CANCEL |
| TransferManager.TransferManager.NoteAnswer | src/transfer_manager.cpp:99-137 | the two loops of set_request note the answer and decide the state by all answers |
| TransferManager.TransferManager.HandleReply | src/transfer_manager.cpp:203-219 | only a PENDING slot of the transfer takes the answer |
| TransferManager.TransferManager.HandleRequest | src/transfer_manager.cpp:139-169 | the first free receive slot takes the request with an empty file; refused iff no slot is free |
| TransferManager.TransferManager.HandleCancel | src/transfer_manager.cpp:171-201 | a receive slot of the transfer is freed and logged, or else a host slot counts a no; otherwise nothing changes |
| TransferManager.TransferManager.HandleData | src/transfer_manager.cpp:366-378 | the bytes go to the file of the ACTIVE slot of the transfer and to no other |
| TransferManager.TransferManager.HandleComplete | src/transfer_manager.cpp:380-394 | the ACTIVE slot of the transfer is closed, freed and logged as COMPLETE |
| TransferManager.TransferManager.ZeroTransfer | src/transfer_manager.cpp:416-433 | one slot is cleared, the others are untouched |
| TransferManager.TransferManager.PutData | src/transfer_manager.cpp:435-486 | data, COMPLETE or CANCEL, as the file has more, ends or breaks |
| TransferManager.TransferManager.PutCancel | src/transfer_manager.cpp:488-507 | the packet and the freed slot, for either array |
| TransferManager.TransferManager.PutRequest | src/transfer_manager.cpp:509-544 | the packet and the slot that waits for its answer |
| TransferManager.TransferManager.PutReply | src/transfer_manager.cpp:546-574 | the reply, and an ACTIVE slot or a freed one |
| TransferManager.TransferManager.HostTransferWork | src/transfer_manager.cpp:296-325 | the first busy slot is served, and no other |
| TransferManager.TransferManager.RecvTransferWork | src/transfer_manager.cpp:327-353 | the first slot with a reply or cancel to send is served, and no other |
| TransferManager.TransferManager.DoWork | src/transfer_manager.cpp:355-364 | a run of all queued commands and then one turn: the host side, then the receive side when the host side is idle; HAS_WORK exactly with a packet, WAIT_WORK only while the first busy slot waits for its time, NO_WORK iff both sides are idle |
| Database.Database.CreateSession | qs_server/src/database.c:135-159 | a new name gets a new id, a known one gets 0 |
| Database.Database.GetTransfer | qs_server/src/database.c:233-246 | the cursor stands on a snapshot of the creator's transfers |
| Database.Database.GetCreator | qs_server/src/database.c:293-306 | the cursor stands on a snapshot of the join for one client |
| Database.Database.CleanupTransfer | qs_server/src/database.c:181-200 | the transfer and all its rows are deleted |
| ServerProcess.ServerProcess.ClientInit | qs_server/src/client.c:75-89 | the first free slot is configured, unless all 32 are taken |
| ServerProcess.ServerProcess.FindById | qs_server/src/client.c:104-115 | finds a slot iff a client with the id is connected |
| ServerProcess.ServerProcess.FindByFd | qs_server/src/client.c:91-102 | the first connected slot with the descriptor |
| ServerProcess.ServerProcess.HandleIntro | qs_server/src/net_packet.c:73-123 | the client is admitted iff its session exists or is new; then every queue gets, packet by packet, what the model's handler sends |
| ServerProcess.ServerProcess.SendSessionUsers | qs_server/src/net_packet.c:15-52 | the joiner's growing batch and the fellows' notices |
| ServerProcess.ServerProcess.CheckRecipients | qs_server/src/net_packet.c:133-160 | succeeds iff somebody is named and all are connected and in the session; then one row each |
| ServerProcess.ServerProcess.EchoRequest | qs_server/src/net_packet.c:162-189 | one REQUEST to each recipient |
| ServerProcess.ServerProcess.HandleTransfer | qs_server/src/net_packet.c:282-310 | one transaction: VALID, rows and REQUESTs, or the tables as before and INVALID |
| ServerProcess.ServerProcess.HandleReply | qs_server/src/net_packet.c:321-360 | one row answered, one packet in the creator's queue, all other queues unchanged |
| ServerProcess.ServerProcess.RelayAccepted | qs_server/src/net_packet.c:371-385 | the cursor loop sends to each accepted recipient once, in table order |
| ServerProcess.ServerProcess.HandleData | qs_server/src/net_packet.c:367-386 | the packet is put once in the queue of each accepted recipient, tables and all other queues unchanged |
| ServerProcess.ServerProcess.CancelAsCreator | qs_server/src/net_packet.c:388-426 | whether the client created the transfer; if so, CANCELs and clean tables |
| ServerProcess.ServerProcess.CancelAsRecipient | qs_server/src/net_packet.c:428-460 | whether the client takes part; if so, one CANCEL to the creator and all rows of the client gone |
| ServerProcess.ServerProcess.HandleCancel | qs_server/src/net_packet.c:470-490 | tried as the creator and only then as a recipient; tables and every queue as the model's handler says |
| ServerProcess.ServerProcess.HandleComplete | qs_server/src/net_packet.c:492-526 | the search among the creator's transfers ends with the relayed packet and clean tables, or with nothing changed |
| ServerProcess.ServerProcess.Analize | qs_server/src/net_packet.c:528-561 | each packet has the effect of its handler on tables and queues |
| ServerProcess.ServerProcess.CancelTransactionCreator | qs_server/src/net_close.c:27-51 | the loop that deletes while it walks cancels every transfer of the client |
| ServerProcess.ServerProcess.CancelTransactionUser | qs_server/src/net_close.c:53-78 | every creator is told, then the rows go |
| ServerProcess.ServerProcess.CancelAll | qs_server/src/net_close.c:80-93 | both parts, in this order |
| ServerProcess.ServerProcess.SendUserDisconnect | qs_server/src/net_close.c:9-25 | DEL_USERS to the COMPLETE clients of the session, each once |
| ServerProcess.ServerProcess.Close | qs_server/src/net_close.c:95-122 | tables, every queue in order, and the client table after a disconnect; the slot is free and the count of clients is right |
| ServerProcess.ServerProcess.Disconnect | qs_server/src/net_close.c:102-107 | a known descriptor has the whole effect of Close, on tables, queues and slot; an unknown one changes nothing |

## Left out

- The user interface, sockets and polling, signals, logging, the memory pool, Thread_Manager, State_Manager and the Connection loops.
- The TLS handshake, certificates and BIO internals; TLS is an identity byte stream that may be read and written in pieces, and encryption does not fail.
- SQLite and its SQL text, and the clean-up of old sessions (`try_clean` is not called); the tables are sequences.
- The old client database src/database.cpp, t_client.c and the tests.
- Weak memory orders in the lock-free queue and the wrap-around of its 64-bit tickets: steps are sequentially consistent and tickets unbounded.
- Partial writes by the client, which add a byte count to a packet pointer (src/network.cpp:309); its write loop is not modelled, and neither is check_write.
- Timing (past_send) is a free choice at each step; there is no fairness between slots, so nothing is claimed to happen eventually.
- File names and paths, open failures and name clashes in Downloads, and the truncation of names to fixed-size arrays.
- The fields of a packet that no handler reads, and the padding behind a packet's payload.
- The reset of `time`-based ids, descriptors being reused, and the epoll bookkeeping of close_client.
- TransferManager.TransferManager: the File_Manager of a slot is a value inside the slot (`FileHandle`), not an object; the class FileManager is proved against the same functions. The command queue is a sequence there; the lock-free queue has its own module.
- ServerProcess.ServerProcess: a client's message queue is a sequence without the bound of 16; RingQueue, SessionNotices and Output treat the bounded queue. Clients are found by id or by slot.
- ServerProcess.ServerProcess.HandleReply: requires that a creator in the table is connected, which the source asserts and LookupsSucceed proves for reachable states.
- TicketQueue.PopRemovesPeeked: there is one consumer, as in process_cmds; two consumers could pop what the other has peeked.
- Network: the system serves a packet, or a whole disconnect, in one action; the server is a single thread. One client process has one manager, and one command is one action although process_cmds drains its queue before each produced packet.
