# A model of the socket playground's protocols

The program joins a console to a set of network sockets. Under the system calls it keeps five
pieces of state whose invariants are not obvious from any one function, and these are modelled
and verified here.

* **UDP peers** (`UdpEndpoint`, `UdpInvariants`, `UdpRuns`, `UdpOrphans`, `UdpNetwork`,
  `UdpReconnects`, `UdpExamples`, `UdpTightness`, `UdpLosses`, `UdpDraining`, `UdpProgress`, with the
  scheduler's contract in `Scheduling`). Every peer has a ping task (every
  second, three times) and a comm-lost task (after four seconds); a message restarts both, `ka` is
  answered by `kack`, `q` removes the peer, and a loss removes it and connects it again after five
  seconds. `SocketUdp` is the class; the functions beside it say what each call does to the state;
  runs, timed and with an arbitrary environment, are built from those functions.
* **TCP connections** (`FileDescriptors`, `FDSets`, `TcpTable`, `TcpRuns`, `TcpBatch`). A table of
  descriptor-owning entries, changed by handlers that run concurrently for all descriptors one
  `select` returned. Handlers are cut at their lock; the kernel may reuse any closed number.
* **SCTP associations** (`SctpTable`, `SctpBatch`). A table kept by association-change
  notifications, which handlers of one `receive()` work on concurrently.
* **The chat mailbox** (`Mailbox`, `MailboxProtocol`). One slot, exchanged atomically by one
  producer and any number of network tasks, with a quit message that is put back for the others.
* **Addresses and arguments** (`IPSockets`, `Arguments`). The packed array of variable-width socket
  addresses with the walk over it, and the command line's index loop.

Each class method is proved equal to a specification function of the old state, and the
properties are proved about those functions: over all runs, all interleavings, all inputs. The
mailbox protocol and the batches of concurrent handlers cut the code into steps; the protocol's steps
are tied to the code by `MailboxProtocol.ChatAsTask`, `PostLine`, `TwoStepsAreARound` and
`ExpiryIsTheEnd`, and the batches' steps change the tables by the same functions as the methods.

## What the proofs show about the code

* Connecting a remote that is already in the UDP table leaves a comm-lost task that nothing can
  stop (`UdpOrphans.KnownConnectDoomsPeer`): the remote is dropped four seconds later even if it is
  heard all the time. The tasks of a remote match the table throughout a run exactly when this never
  happens to it (`UdpRuns.OrphanFreeIff`). No user has to connect anything twice to get there: a peer
  that is lost and heard again before its reconnect is enough
  (`UdpOrphans.ReconnectCanMeetKnownPeer`). On a network that is fast enough it cannot happen to a
  live remote (`UdpNetwork.LiveRemotesMatchTables`), nor to a dead one if users connect remotes only
  while they are neither in the table nor waiting for their reconnect
  (`UdpReconnects.ReconnectsAreAlwaysGuarded`). Either half of that condition alone is not enough
  (`UdpExamples.ConnectedWhileKnown`, `UdpExamples.ConnectedWhileWaiting`).
* On a network that loses nothing, live peers are never given up exactly when one period and a round
  trip are shorter than four seconds; no less will do even if users connect only what they can type
  (`UdpTightness.TypedAreSafeIffFast`). The three keep-alives are for networks that do lose: if one of
  every two or three exchanges gets through, two or three periods and a round trip shorter than four
  seconds is exactly what it takes (`UdpLosses.LiveAreSafeIffTriesFast`).
* A decoded address keeps the NULs up to its fixed width. A remote connected under any other key, such
  as the text a user types, is never recognised in what it sends (`UdpRuns.UndecodedPeerIsNeverHeard`)
  and is lost within four seconds however lively it is, after exactly four if it is never connected
  while known (`UdpOrphans.UndecodedPeerIsLost`). Being a decoded address is exactly what it takes for
  an answer to be recognised (`UdpRuns.AnswerIsRecognisedIff`). Among decoded addresses the padding
  does no harm (`IPSockets.DecodedKeysEqualIff`).
* Assigning an owning descriptor onto a wrapper that is not empty, or has closed something before,
  leaks it (`FileDescriptors.AssignmentCanLeak`); moving from a spent wrapper makes a second owner
  (`FileDescriptors.SecondMoveMakesTwoOwners`; `FileDescriptors.StepBalanceIff` has the exact
  condition). The sockets do neither.
* Decoding and encoding an address array restores it except for flow label, scope id and padding
  (`IPSockets.EncodeOfWalkIff`).

## Assumptions

* The task scheduler, the buffer pool and the lock macro belong to a library that is not part of
  this model. `Scheduling` states the scheduler's contract: due tasks run one at a time, an
  exhausted task is dropped before its last closure runs, a disabled one never runs again and may
  be forgotten at any time, and time does not pass a due task. The pool hands out buffers that are
  not in use. A handler's outermost lock makes one atomic step; whether locking twice in one thread
  blocks is not modelled.
* The kernel hands out descriptor numbers that are not open, `recv` returns less than the buffer
  holds, and what `recv` gives a handler does not depend on the order of the other handlers.
  Notifications about a peeled-off association arrive on its own descriptor only (section 9.2 of
  RFC 6458).
* Times are whole milliseconds. In `UdpNetwork` the delay bound includes the time until a process
  gets round to receiving. The network may lose any datagram whose loss leaves, for every live peer in
  every live endpoint's table, one of the first `tries` exchanges since the peer was last heard that has
  not failed: its keep-alive is still to be sent, or it or word of the peer is on its way
  (`UdpNetwork.Spares`). With `tries` = 1 and no losses it is the lossless network.
* `inet_ntop` and `inet_pton` are known only by `IPSockets.Lawful`; `stoi` is a parameter. The
  family field is written in little-endian host order.
* Without `-p` the protocol is indeterminate in the code; here it is a parameter.

## Model
| member | source | states |
|---|---|---|
| UdpEndpoint.SocketUdp.Connect | src/SocketUdp.cpp:21-25 | connects the remotes one after another, each as `handleCommUp` does; what a list comes to is stated by the next three |
| UdpInvariants.ConnectAllKeeps | src/SocketUdp.cpp:21-25 | connecting a list adds each remote that is new, its tasks started now, leaves every known one as it was and adds no other; each element schedules two tasks and nothing is sent |
| UdpInvariants.ConnectAllInOrder | src/SocketUdp.cpp:21-25 | the remotes are taken in order: a new one has the two tasks of its first place in the list |
| UdpInvariants.ConnectAllOrphansIff | src/SocketUdp.cpp:76-80 | the tasks of a remote still match the table after connecting a list exactly when it is not in the list, or stands in it once and was not known |
| UdpEndpoint.SocketUdp.Send | src/SocketUdp.cpp:27-31 | one datagram to each peer of the table and no other, in any table order |
| UdpEndpoint.BroadcastReachesPeers | src/SocketUdp.cpp:27-31 | a broadcast is one more datagram to each peer of the table, none to anyone else, and changes nothing besides |
| UdpEndpoint.SocketUdp.HandleMessage | src/SocketUdp.cpp:41-65 | quit removes the sender, `ka` is answered, a known sender's tasks restart and an unknown one is added |
| UdpEndpoint.SocketUdp.HandleCommUp | src/SocketUdp.cpp:76-80 | schedules both tasks before `emplace`, which keeps a known entry |
| UdpEndpoint.SocketUdp.HandleCommLost | src/SocketUdp.cpp:88-93 | schedules the reconnect, disables the peer's tasks and erases it |
| UdpEndpoint.SocketUdp.ResetPeerTasks | src/SocketUdp.cpp:113-124 | restarts the ping task or, once it is used up, replaces it; restarts the comm-lost task; an unknown remote gets an entry with a ping task alone |
| UdpInvariants.ResetOfUnknown | src/SocketUdp.cpp:113-124 | resetting the tasks of a remote that is not in the table adds an entry whose loss nothing will ever report |
| UdpEndpoint.SocketUdp.DisableTasks | src/SocketUdp.cpp:126-136 | disables the tasks of a known peer, and inserts an empty peer for an unknown one |
| UdpEndpoint.SocketUdp.Launch | src/SocketUdp.cpp:102-111 | what a due ping, comm-lost or reconnect task does when it runs |
| UdpRuns.CallStep | src/SocketUdp.cpp:41-136 | every call keeps the table sound; a remote it hears starts over, one whose quit it delivers or whose comm-lost task it runs is gone, every other is in the table just if it was and as it was, but for its own ping; and it makes orphan tasks of a remote only if it connects it while known |
| UdpRuns.EveryPeerHasItsDeadline | src/SocketUdp.cpp:76-123 | in every run, orphans or not, a peer's own comm-lost task is enabled and due four periods after the peer was added or last heard |
| UdpRuns.OrphanFreeIff | src/SocketUdp.cpp:76-80 | there is never a live task for a remote unknown to the table exactly when that remote is never connected while known |
| UdpRuns.TasksMatchTable | src/SocketUdp.cpp:76-136 | in such runs a remote of the table has exactly one live comm-lost task and at most one live ping, those of its entry, and a removed remote has neither |
| UdpRuns.KeepAlivesAreOnTime | src/SocketUdp.cpp:102-123 | to a silent peer exactly the keep-alives one, two and three periods after it was last heard have gone out, each on time |
| UdpRuns.ThreeKeepAlivesBeforeLoss | src/SocketUdp.cpp:35-36 | a loss strikes a peer of the table exactly four periods after it was last heard and after exactly three keep-alives |
| UdpRuns.UndecodedPeerIsNeverHeard | src/IPSocket.cpp:42-43 | the comm-lost task of a peer under any key that is not a decoded address is never restarted: it stays due four periods after the key was last connected |
| UdpRuns.AnswerIsRecognisedIff | src/SocketUdp.cpp:51-64 | the answer of whoever a key reaches is recognised exactly when the key is a decoded address; otherwise it makes a second peer and the first one's tasks go on |
| UdpOrphans.KnownConnectDoomsPeer | src/SocketUdp.cpp:79 | after a connect of a known remote at t, every run that passes t + 4 s has lost the remote at exactly t + 4 s |
| UdpOrphans.ReconnectCanMeetKnownPeer | src/SocketUdp.cpp:88-93 | a run without any connect in which a scheduled reconnect meets a remote that is back in the table |
| UdpOrphans.LossIsFollowedByReconnect | src/Socket.cpp:135-139 | a lost remote leaves the table at once and is connected again exactly five seconds later |
| UdpOrphans.UndecodedPeerIsLost | src/IPSocket.cpp:42-43 | a remote that comes into the table under such a key is lost within four periods in every run that gets that far, whoever answers, and after exactly four if it is never connected while known |
| UdpNetwork.NoLiveRemoteIsLost | src/SocketUdp.cpp:35-64 | any number of endpoints, one of every `tries` exchanges gets through, `tries` s + 2 delays < 4 s, `tries` at most three, no quit: no comm-lost task for a live remote can ever run, whether the table knows it or not |
| UdpNetwork.LivePeersAreNeverLost | src/SocketUdp.cpp:58-64 | under the same conditions a live peer, once in a table, is in it at every later moment of the run, its own comm-lost task enabled and not yet due |
| UdpNetwork.LiveRemotesMatchTables | src/SocketUdp.cpp:76-93 | under the same conditions the tasks for live remotes match every table, and none of them waits for a reconnect |
| UdpTightness.SlowNetworkLosesLivePeer | src/SocketUdp.cpp:35-36 | with 1 s + 2 delays not below 4 s, any two endpoints can come to a loss of the one by the other although the network loses nothing, every keep-alive is answered as it arrives, and the only key ever connected is one that a user can type |
| UdpTightness.LiveAreSafeIffFast | src/SocketUdp.cpp:35-36 | so the bound is exact: no lossless run gives up a live peer if and only if 1 s + 2 delays < 4 s, and the same for runs that connect only keys that are not decoded addresses |
| UdpTightness.TypedLeadsThere | src/IPSocket.cpp:12-23 | the key a user types for a decoded address leads there and is another key |
| UdpTightness.TypedAreSafeIffFast | src/SocketUdp.cpp:35-36 | the exact bound for real addresses: between any two decoded addresses, over lossless runs whose users connect only undecoded keys |
| UdpLosses.SlowTriesLoseLivePeer | src/SocketUdp.cpp:35-36 | for one, two or three tries, on a network too slow for them the exchange that gets through comes too late |
| UdpLosses.LiveAreSafeIffTriesFast | src/SocketUdp.cpp:35-36 | with one of every `tries` exchanges getting through, no run gives up a live peer if and only if `tries` s + 2 delays < 4 s, users connecting only undecoded keys |
| UdpReconnects.ReconnectsAreAlwaysGuarded | src/SocketUdp.cpp:76-93 | on a fast network whose users connect a remote only while it is neither in the table nor waiting for its reconnect, no reconnect meets a remote that is back, and tables and tasks match everywhere |
| UdpExamples.ConnectedWhileKnown | src/SocketUdp.cpp:76-93 | connecting a dead remote twice at once, never while it waits, ends with a reconnect that meets it in the table |
| UdpExamples.ConnectedWhileWaiting | src/SocketUdp.cpp:76-93 | so does connecting one that waits for its reconnect, never while it is in the table |
| UdpProgress.TimeCanAlwaysPass | src/NetworkTask.cpp:50-57 | on any delay bound every run can be carried on to any later time: what is due at one moment never keeps the network busy for ever, even if answers take no time |
| UdpProgress.SomethingToDo | src/SocketUdp.cpp:41-136 | if time cannot pass, a due task can run or a packet can arrive or be dropped, and then there is less to do at this moment |
| UdpProgress.EndpointTimeCanPass | src/NetworkTask.cpp:50-57 | the same for one endpoint alone, so statements about all its continuations are about some |
| UdpDraining.AnswerToMessage | src/SocketUdp.cpp:55-64 | a delivered `ka` creates exactly one `kack` to its sender, any other message creates nothing |
| UdpDraining.DeliveriesRunOut | src/SocketUdp.cpp:41-80 | length of a delivery-only run plus the weight it leaves is the weight it started with |
| UdpDraining.DeliveriesEnd | src/SocketUdp.cpp:41-80 | among live endpoints such a run can go on exactly until that many datagrams have been delivered |
| FileDescriptors.FileDescriptor.Move | src/FileDescriptor.cpp:13-16 | takes over the number, always willing to close it; the source keeps the number but no longer closes it |
| FileDescriptors.FileDescriptor.Assign | src/FileDescriptor.cpp:18-27 | closes the target first, takes over the number but not the willingness to close; self-assignment does nothing |
| FileDescriptors.FileDescriptor.Close | src/FileDescriptor.cpp:34-42 | closes an owned number once |
| FileDescriptors.StepBalanceIff | src/FileDescriptor.cpp:8-42 | an operation keeps exactly one owner per open number if and only if moves are from owners or empty wrappers and owners are assigned onto fresh empty ones |
| FileDescriptors.ProperProgramsCloseOnce | src/FileDescriptor.cpp:8-42 | programs of such operations close nothing twice and leave nothing open when their wrappers are gone |
| FileDescriptors.AssignmentCanLeak | src/FileDescriptor.cpp:18-27 | assigning one owner onto another leaves its number open for good |
| FileDescriptors.SecondMoveMakesTwoOwners | src/FileDescriptor.cpp:13-16 | moving twice from one wrapper makes two owners of its number, which close it twice |
| FileDescriptors.HandingOnKeepsOwner | src/FileDescriptor.cpp:13-16 | however often a wrapper is moved on and the spent ones destroyed, the last one owns the number and nothing is closed |
| FDSets.FDSet.Select | src/FDSet.cpp:27-33 | returns exactly the watched descriptors that are ready, ascending, each once |
| FDSets.FDSet.Set | src/FDSet.cpp:20-25 | adds one descriptor and keeps the bound above all of them |
| TcpTable.SocketTcp.Connect | src/SocketTcp.cpp:16-25 | connects in order up to the first refusal, keeping what was connected and closing the refused descriptor |
| TcpTable.ConnectEachResult | src/SocketTcp.cpp:16-25 | the list leaves an outbound entry for every remote before the first refusal, each under the number and with the buffer it was given, and nothing else; it succeeds just if none is refused |
| TcpTable.SocketTcp.SelectFds | src/SocketTcp.cpp:41-49 | selects exactly the ready ones among the listening descriptor and the table's |
| TcpTable.SocketTcp.HandleCommUp | src/SocketTcp.cpp:103-110 | the accepted descriptor is moved out of accept, into a peer and into the table, and ends in an entry under its own number; a failing accept changes nothing |
| TcpTable.SocketTcp.HandleGracefulShutdown | src/SocketTcp.cpp:112-117 | removes the entry, closing its descriptor and returning its buffer: the invariant it keeps has exactly the listening descriptor and the keys open, and exactly the main buffer and those of the entries in use; reports an unknown descriptor |
| TcpTable.SocketTcp.HandleCommLost | src/SocketTcp.cpp:119-127 | the same, scheduling a reconnect first if this side opened the connection |
| TcpTable.AdoptKeepsOk | src/SocketTcp.cpp:23-23 | `emplace` under a number that is not open never collides, and adds one owning entry |
| TcpTable.EraseKeepsOk | src/SocketTcp.cpp:129-134 | erasing leaves exactly the other entries, their descriptors and their buffers |
| TcpRuns.RunsOwnTheirDescriptors | src/SocketTcp.cpp:16-25 | over all runs each key is the number its entry owns, exactly the listening number and the keys are open, nothing is closed twice, and exactly the main buffer and those of the entries are in use |
| TcpRuns.TableRefinesEvents | src/SocketTcp.cpp:16-134 | over all runs the entry of a descriptor is that of the last connection it was given to, if that has not ended or broken since |
| TcpRuns.ReconnectionIsConserved | src/SocketTcp.cpp:103-127 | per remote, outbound peers plus scheduled reconnects equal successful requests less graceful ends and refused reconnects |
| TcpRuns.StepConserves | src/SocketTcp.cpp:119-127 | loss and reconnection leave that sum alone, and accepted peers never touch it |
| TcpBatch.StepKeepsInv | src/SocketTcp.cpp:51-78 | any step of any handler of one batch keeps the table, buffers and phases consistent |
| TcpBatch.HandlersAreSafe | src/SocketTcp.cpp:51-78 | in every interleaving `peers.at` finds its entry, buffers used outside the lock are valid and private, and a handler reads what it received |
| TcpBatch.BatchResult | src/Socket.cpp:48-58 | the batch ends with exactly the peers not selected or heard with text, plus at most one accepted entry, one reconnect per broken outbound peer, and no descriptor or buffer in use but theirs |
| TcpBatch.OrderDoesNotMatter | src/Socket.cpp:48-58 | two orders of the handlers end alike up to the number and buffer of the accepted entry |
| TcpBatch.StepsRunOut | src/Socket.cpp:48-58 | in every interleaving the steps taken and the steps ahead add up to what the batch takes from the start, and it is finished exactly when that many are taken |
| TcpBatch.BatchCanFinish | src/Socket.cpp:57-57 | every interleaving can be carried on until all handlers have ended, so joining succeeds |
| SctpTable.SocketSctp.HandleNotification | src/SocketSctp.cpp:209-275 | peels off, removes or schedules a reconnect as the association change says, and keeps the table's ownership; a peel-off that fails, at once or when the status is read, changes nothing |
| SctpTable.SocketSctp.GetBuffer | src/SocketSctp.cpp:119-124 | the main buffer for the main descriptor, otherwise the buffer of the one peer with that descriptor |
| SctpTable.SocketSctp.SelectFds | src/SocketSctp.cpp:88-96 | selects exactly the ready ones among the main and the peeled descriptors |
| SctpTable.TableRefinesNotifications | src/SocketSctp.cpp:231-260 | after any notifications the keys are the associations with a COMM_UP that could be peeled off and no later SHUTDOWN_COMP or COMM_LOST, and every reconnect asked for is scheduled |
| SctpTable.EntriesAreFirstUps | src/SocketSctp.cpp:262-275 | an association keeps the descriptor and buffer of its first COMM_UP since it was last down, whatever follows |
| SctpTable.SelectedHasOnePeer | src/SocketSctp.cpp:262-275 | each open descriptor besides the main one belongs to exactly one peer |
| SctpBatch.StepKeepsInv | src/SocketSctp.cpp:98-124 | any step of any handler of one batch keeps table, buffers and phases consistent |
| SctpBatch.HandlersAreSafe | src/SocketSctp.cpp:98-124 | in every interleaving the search for a buffer finds its entry, buffers used outside the lock are valid and private, and a handler reads what it received |
| SctpBatch.BatchResult | src/SocketSctp.cpp:209-275 | the batch ends with exactly the old entries that got no end or loss, the association the main descriptor peeled off if any, one reconnect per failed or lost association, and no descriptor or buffer in use but theirs |
| SctpBatch.PeelingDecides | src/SocketSctp.cpp:262-268 | in every interleaving a handler told of a COMM_UP throws just if its peel-off fails; otherwise the new entry has the descriptor and buffer it got and keeps them |
| SctpBatch.OrderDoesNotMatter | src/Socket.cpp:48-58 | two orders of the handlers end with the same old entries and reconnects, and differ at most in the one association the main descriptor was told of |
| SctpBatch.StepsRunOut | src/Socket.cpp:48-58 | in every interleaving the steps taken and the steps ahead add up to what the batch takes from the start, and it is finished exactly when that many are taken |
| SctpBatch.BatchCanFinish | src/Socket.cpp:57-57 | every interleaving can be carried on until all handlers have ended |
| Mailbox.Slot.Chat | src/Chat.cpp:6-13 | exchanges the slot's content |
| Mailbox.IoTask | src/IoTask.cpp:9-22 | posts exactly the lines up to and including the first quit message |
| Mailbox.SpokenStopsAtQuit | src/IoTask.cpp:15-22 | nothing is posted after a quit message, and all lines are posted if there is none |
| Mailbox.ChatOrQuit | src/NetworkTask.cpp:22-33 | takes the message, sends it unless it is empty or quit, and puts a quit message back |
| Mailbox.NetworkTask | src/NetworkTask.cpp:50-57 | the loop's messages, end and slot, whatever arrives between rounds and whenever the lifetime ends; what that comes to is stated by the next three |
| Mailbox.RoundsMean | src/NetworkTask.cpp:44-57 | it sends exactly the non-empty messages of the rounds before the first one that comes after its lifetime or finds the quit message, and stops for quit just if that comes first |
| Mailbox.NothingAfterTheEnd | src/NetworkTask.cpp:50-57 | from the first round after its lifetime on nothing is taken, sent or stopped for |
| Mailbox.ForeverEndsOnlyForQuit | src/NetworkTask.cpp:44-52 | with a lifetime of zero it stops just if some round finds the quit message |
| Mailbox.RoundsKeepQuit | src/NetworkTask.cpp:22-57 | a network task never sends an empty or quit message, and one that stops for quit leaves it in the slot |
| MailboxProtocol.ChatAsTask | src/NetworkTask.cpp:22-33 | the code's exchanges for one message are the protocol's take and act of one task |
| MailboxProtocol.TwoStepsAreARound | src/NetworkTask.cpp:50-57 | undisturbed, these two steps send, stop and leave the slot as one round of the loop does |
| MailboxProtocol.ExpiryIsTheEnd | src/NetworkTask.cpp:52-52 | the end of a lifetime ends the loop as the protocol's expiry ends a task, and neither takes nor sends anything |
| MailboxProtocol.LiveStep | src/NetworkTask.cpp:22-57 | a task is retired by putting quit back, by a send that throws and by the end of its lifetime, one task less each time, and by nothing else |
| MailboxProtocol.TokenIsConserved | src/NetworkTask.cpp:22-34 | in every interleaving, once quit is posted it is in the slot or in exactly one task's hands, never both, never lost |
| MailboxProtocol.QuitDrains | src/NetworkTask.cpp:22-57 | a take while nobody holds quit gets it, a put-back retires its task, no event adds a live task, and with none left the slot holds quit |
| MailboxProtocol.QuitCanAlwaysDrain | src/NetworkTask.cpp:50-57 | from any moment after quit was posted all tasks can be retired |
| MailboxProtocol.EachTaskQuitsOnce | src/NetworkTask.cpp:22-57 | quit is taken once by each task it reaches |
| MailboxProtocol.TakenIsSubsequence | src/Chat.cpp:6-13 | the messages taken by all tasks together are a subsequence of those posted |
| MailboxProtocol.SubsequenceHasPlaces | src/Chat.cpp:6-13 | each of them sits at a place of its own among the posts, in increasing order |
| MailboxProtocol.MessagesAreConserved | src/Chat.cpp:6-13 | posted and put back is taken, overwritten or in the slot, in every interleaving |
| IPSockets.ToSockaddrs | src/IPSocket.cpp:93-102 | the concatenated records of all sockets, or the error of the first unreadable one |
| IPSockets.GetAddrs | src/SctpGetAddrs.cpp:18-38 | walks count records, each as long as its own family says |
| IPSockets.DecodeOfEncode | src/IPSocket.cpp:25-59 | an encoded socket decodes, anywhere in a buffer, to the canonical socket of the same endpoint |
| IPSockets.EncodeAllOkIff | src/IPSocket.cpp:71-76 | packing fails on exactly the lists that hold an unreadable address, and for that reason |
| IPSockets.FromTextReads | src/IPSocket.cpp:9-21 | a socket made from text is of the one internet family that can read the text up to its first NUL, and of the local family if neither can |
| IPSockets.RecordLayout | src/IPSocket.cpp:71-86 | the bytes of an encoded record one by one: family, port in network order, address at 4 or 8, zeros elsewhere |
| IPSockets.DecodeAtOkIff | src/IPSocket.cpp:25-44 | a record is accepted exactly when it is complete and its family is an internet one, whatever its other bytes are |
| IPSockets.DecodeAtReads | src/IPSocket.cpp:25-44 | an accepted record gives the family, port and address of its bytes, the text with NULs up to 16 or 46 characters |
| IPSockets.DecodeAtFails | src/IPSocket.cpp:36-43 | a complete record of another family fails as `inet_ntop` does; one that does not fit, which the code does not look for, is an error of its own |
| IPSockets.WalkOkIff | src/SctpGetAddrs.cpp:25-33 | the walk accepts exactly the arrays whose records are all readable where the widths before them lead, and returns what each decodes to |
| IPSockets.WalkFailsAtFirst | src/SctpGetAddrs.cpp:25-33 | a walk that fails has failed at the first record that is not readable |
| IPSockets.WalkOfEncodeAll | src/SctpGetAddrs.cpp:25-33 | walking a packed list stays in bounds, ends at its end and returns the same endpoints in order |
| IPSockets.EncodeOfWalkOfEncode | src/IPSocket.cpp:25-102 | packing the walk's result gives the packed array back |
| IPSockets.EncodeOfWalkIff | src/SctpGetAddrs.cpp:25-33 | for any array the walk accepts, packing its result restores the bytes exactly when sin_zero, flow label and scope id were zero |
| IPSockets.DecodedKeysEqualIff | src/IPSocket.hpp:22-22 | two decoded sockets are equal exactly when they name the same endpoint |
| IPSockets.TextKeyIsNotDecoded | src/IPSocket.cpp:42-43 | a socket built from text never equals a decoded one |
| IPSockets.RouteIsCanonical | src/IPSocket.cpp:25-59 | encoding and decoding names the same endpoint and fixes exactly the decoded sockets |
| Arguments.ParseArguments | src/NetworkConfiguration.cpp:20-43 | never reads past the end, and returns what the items on the command line add up to, or the first problem |
| Arguments.FoldIsEvaluate | src/NetworkConfiguration.cpp:22-42 | addresses before the first `-r` are locals, those after it remotes, and of each option the last value wins |
| Arguments.WellFormedLineMeans | src/NetworkConfiguration.cpp:20-43 | a command line written from items means those items, for every list of them |
| Arguments.OptionsTakeEffect | src/NetworkConfiguration.cpp:27-36 | after any well-formed line, an option changes its own setting and no other; an unreadable number or an empty argument is an error |
| Arguments.AddressesTakeEffect | src/NetworkConfiguration.cpp:37-41 | an address goes to the end of the locals, or of the remotes once there has been a `-r` |
| Arguments.IdleFlags | src/NetworkConfiguration.cpp:27-39 | an unknown flag has no effect, and neither has a second `-r` |
| Arguments.FirstProblemStays | src/NetworkConfiguration.cpp:20-43 | the first problem on a line is its result, whatever follows |
| Arguments.ProtocolsByName | src/NetworkConfiguration.cpp:8-18 | each protocol is chosen by its name in any letter case, and SCTP by everything that is no name |
| Arguments.ToPortWraps | src/NetworkConfiguration.cpp:41-41 | a port in range is kept, any other number is taken modulo 65536 |

## Left out

- All system calls: only their results appear, as parameters or choices of the environment.
- Mailbox.NetworkTask: what `launch` and `receive` do in a round; the runs of the sockets take their calls in any order.
- The destructor's quit message and the constructors that create, configure and bind sockets: what is sent is modelled, when the process ends is not.
- UdpNetwork.LivePeersAreNeverLost: says nothing about peers that quit, or about endpoints that come up or stop during a run.
- TcpTable.SocketTcp.HandleCommUp: the exception of a failing accept is reported but not followed into the task that joins the handlers.
- SctpTable.SocketSctp.HandleNotification: nor is that of a failing peel-off; what its status shows is not modelled.
- The entries of the TCP and SCTP tables hold a descriptor wrapper as a value that is moved, not as an object; aliasing of wrappers is treated in `FileDescriptors`.
- Mailbox.IoTask: the loop's behaviour at the end of standard input, which posts empty lines for ever; the model stops when the lines run out.
- The text of IPv4 and IPv6 addresses, number parsing, and the conversion of a negative `-msg` value to an unsigned size.
- `SocketUnix`, `SocketUnixForked` and `SocketDccp`, socket options, error texts and logging: they would add only easy members or kernel behaviour.
- Deadlock freedom: the lock macro is not visible.
