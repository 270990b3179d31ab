/**
 The SCTP socket's table of peeled-off associations (section 9.2 of RFC 6458), kept by the
 association-change notifications (section 6.1.1 of RFC 6458).
 */
module SctpTable {
  import opened Wrappers
  import opened IPSockets
  import FileDescriptors
  import opened FDSets

  type Desc = FileDescriptors.Desc
  type AssocId = int

  datatype Peer = Peer(fd: Desc, buffer: nat)

  datatype Socket = Socket(mainFd: nat, files: FileDescriptors.OpenFiles, mainBuffer: nat, buffers: set<nat>,
                           peers: map<AssocId, Peer>, pending: multiset<IPSocket>)

  /** The association changes; Other is RESTART and every notification that is not one. */
  datatype Notification = CommUp(id: AssocId) | CantStart | ShutdownComp(id: AssocId) | CommLost(id: AssocId) | Other

  // ---------------------------------------------------------------- specification

  /** What kernel and pool have in store for a peel-off: it is refused, or the new descriptor cannot
      be asked for its status, or all goes well. The first two throw. */
  datatype Peeling = Refused | NoStatus(n: nat) | Peels(n: nat, buffer: nat)

  /** Into a peer, and with the peer into the table. */
  const PEEL_MOVES: nat := 2

  /** A peer comes into the table. If its id is already there, `emplace` destroys it: descriptor and
      buffer are given back at once. */
  function Emplace(s: Socket, id: AssocId, p: Peer): Socket {
    if id in s.peers then s.(files := FileDescriptors.ClosedBy(s.files, p.fd), buffers := s.buffers - {p.buffer})
    else s.(peers := s.peers[id := p])
  }

  function OpenedBy(s: Socket, n: nat): FileDescriptors.OpenFiles {
    s.files.(open := s.files.open + {n})
  }

  /** Peels association id off into a descriptor of its own. */
  function PeelOff(s: Socket, id: AssocId, p: Peeling): Socket {
    match p
    case Refused => s
    case NoStatus(n) => s.(files := FileDescriptors.ClosedBy(OpenedBy(s, n), FileDescriptors.Desc(n, true)))
    case Peels(n, buffer) =>
      var (files, fd) := FileDescriptors.HandedOn(OpenedBy(s, n), FileDescriptors.Desc(n, true), PEEL_MOVES);
      Emplace(s.(files := files, buffers := s.buffers + {buffer}), id, Peer(fd, buffer))
  }

  function Remove(s: Socket, id: AssocId): Socket {
    if id in s.peers then
      s.(files := FileDescriptors.ClosedBy(s.files, s.peers[id].fd), buffers := s.buffers - {s.peers[id].buffer},
         peers := s.peers - {id})
    else s
  }

  function Reestablish(s: Socket, from: IPSocket): Socket {
    s.(pending := s.pending + multiset{from})
  }

  function Handle(s: Socket, x: Notification, from: IPSocket, p: Peeling): Socket {
    match x
    case CommUp(id) => PeelOff(s, id, p)
    case CantStart => Reestablish(s, from)
    case ShutdownComp(id) => Remove(s, id)
    case CommLost(id) => Reestablish(Remove(s, id), from)
    case Other => s
  }

  predicate FreshChoice(s: Socket, p: Peeling) {
    match p
    case Refused => true
    case NoStatus(n) => n !in s.files.open
    case Peels(n, buffer) => n !in s.files.open && buffer !in s.buffers
  }

  // ---------------------------------------------------------------- invariant

  /** Descriptor n belongs to a peer. */
  predicate Peeled(s: Socket, n: int) {
    exists id :: id in s.peers && s.peers[id].fd.fd == n
  }

  /** The buffers that entries hold. */
  function Held(peers: map<AssocId, Peer>): (r: set<nat>)
    ensures forall b :: b in r <==> exists id :: id in peers && peers[id].buffer == b
  {
    set id | id in peers :: peers[id].buffer
  }

  /** Each entry owns an open descriptor and a buffer that no other entry has; these and the main
      ones are all, and nothing was closed twice. */
  ghost predicate TableOk(s: Socket) {
    && s.files.badCloses == 0
    && s.mainFd in s.files.open && s.buffers == {s.mainBuffer} + Held(s.peers)
    && (forall id :: id in s.peers ==>
          && s.peers[id].fd.Owns() && s.peers[id].fd.fd in s.files.open && s.peers[id].fd.fd != s.mainFd
          && s.peers[id].buffer in s.buffers && s.peers[id].buffer != s.mainBuffer)
    && (forall n :: n in s.files.open ==> n == s.mainFd || Peeled(s, n))
    && (forall i, j :: i in s.peers && j in s.peers && i != j ==>
          s.peers[i].fd.fd != s.peers[j].fd.fd && s.peers[i].buffer != s.peers[j].buffer)
  }

  lemma PeeledStays(s: Socket, t: Socket, n: int)
    requires Peeled(s, n)
    requires forall id :: id in s.peers && s.peers[id].fd.fd == n ==> id in t.peers && t.peers[id] == s.peers[id]
    ensures Peeled(t, n)
  {
  }

  lemma HeldAfterPeelOff(before: map<AssocId, Peer>, after: map<AssocId, Peer>, id: AssocId)
    requires id !in before && id in after && after == before[id := after[id]]
    ensures Held(after) == Held(before) + {after[id].buffer}
  {
    forall b
      ensures b in Held(after) <==> b in Held(before) || b == after[id].buffer
    {
      if k :| k in before && before[k].buffer == b {
        assert k in after && after[k].buffer == b;
      }
      if b == after[id].buffer {
        assert id in after;
      }
    }
  }

  lemma HeldAfterRemove(before: map<AssocId, Peer>, id: AssocId)
    requires id in before && forall j :: j in before && before[j].buffer == before[id].buffer ==> j == id
    ensures Held(before - {id}) == Held(before) - {before[id].buffer}
  {
    forall b
      ensures b in Held(before - {id}) <==> b in Held(before) && b != before[id].buffer
    {
      if j :| j in before && before[j].buffer == b && j != id {
        assert j in before - {id};
      }
    }
  }

  /** Only a successful peel-off of a new association changes anything at all. */
  lemma PeelOffKeepsOk(s: Socket, id: AssocId, p: Peeling)
    requires TableOk(s) && FreshChoice(s, p)
    ensures TableOk(PeelOff(s, id, p))
    ensures PeelOff(s, id, p) ==
            if p.Peels? && id !in s.peers then
              s.(files := OpenedBy(s, p.n), buffers := s.buffers + {p.buffer},
                 peers := s.peers[id := Peer(FileDescriptors.Desc(p.n, true), p.buffer)])
            else s
  {
    var t := PeelOff(s, id, p);
    match p
    case Refused =>
    case NoStatus(n) => assert s.files.open + {n} - {n} == s.files.open;
    case Peels(n, buffer) =>
      FileDescriptors.HandingOnKeepsOwner(OpenedBy(s, n), FileDescriptors.Desc(n, true), PEEL_MOVES);
      if id in s.peers {
        assert s.files.open + {n} - {n} == s.files.open;
        assert s.buffers + {buffer} - {buffer} == s.buffers;
      } else {
        assert t.peers[id].fd.fd == n;
        HeldAfterPeelOff(s.peers, t.peers, id);
        forall m | m in t.files.open && m != t.mainFd
          ensures Peeled(t, m)
        {
          if m != n {
            PeeledStays(s, t, m);
          }
        }
      }
  }

  lemma RemoveKeepsOk(s: Socket, id: AssocId)
    requires TableOk(s)
    ensures TableOk(Remove(s, id)) && Remove(s, id).peers == s.peers - {id} && Remove(s, id).pending == s.pending
  {
    var t := Remove(s, id);
    if id in s.peers {
      HeldAfterRemove(s.peers, id);
      forall m | m in t.files.open && m != t.mainFd
        ensures Peeled(t, m)
      {
        PeeledStays(s, t, m);
      }
    } else {
      assert s.peers - {id} == s.peers;
    }
  }

  lemma HandleKeepsOk(s: Socket, x: Notification, from: IPSocket, p: Peeling)
    requires TableOk(s) && FreshChoice(s, p)
    ensures TableOk(Handle(s, x, from, p))
  {
    match x
    case CommUp(id) => PeelOffKeepsOk(s, id, p);
    case CantStart => PendingIsApart(s, Reestablish(s, from));
    case ShutdownComp(id) => RemoveKeepsOk(s, id);
    case CommLost(id) =>
      RemoveKeepsOk(s, id);
      PendingIsApart(Remove(s, id), Reestablish(Remove(s, id), from));
    case Other =>
  }

  lemma PendingIsApart(s: Socket, t: Socket)
    requires TableOk(s) && t == s.(pending := t.pending)
    ensures TableOk(t)
  {
    assert forall n :: Peeled(s, n) ==> Peeled(t, n);
  }

  // ---------------------------------------------------------------- the socket

  class SocketSctp {
    const mainFd: nat
    const mainBuffer: nat
    const kernel: FileDescriptors.Kernel
    const fdSet: FDSet
    var buffers: set<nat>
    var peers: map<AssocId, Peer>
    var pending: multiset<IPSocket>

    ghost function View(): Socket
      reads this, kernel
    {
      Socket(mainFd, kernel.files, mainBuffer, buffers, peers, pending)
    }

    constructor (kernel: FileDescriptors.Kernel, fdSet: FDSet, mainFd: nat, mainBuffer: nat)
      requires kernel.files == FileDescriptors.OpenFiles({mainFd as int}, 0)
      ensures TableOk(View()) && peers == map[] && pending == multiset{}
      ensures this.kernel == kernel && this.fdSet == fdSet
    {
      this.kernel, this.fdSet, this.mainFd, this.mainBuffer := kernel, fdSet, mainFd, mainBuffer;
      buffers, peers, pending := {mainBuffer}, map[], multiset{};
    }

    /** False when it throws, which is when a peel-off fails. */
    method HandleNotification(x: Notification, from: IPSocket, p: Peeling) returns (ok: bool)
      requires TableOk(View()) && FreshChoice(View(), p)
      modifies this, kernel
      ensures ok == (x.CommUp? ==> p.Peels?)
      ensures View() == Handle(old(View()), x, from, p) && TableOk(View())
    {
      HandleKeepsOk(View(), x, from, p);
      ok := true;
      match x
      case CommUp(id) => ok := PeelOffPeer(id, p);
      case CantStart => pending := pending + multiset{from};
      case ShutdownComp(id) => RemovePeer(id);
      case CommLost(id) =>
        RemovePeer(id);
        pending := pending + multiset{from};
      case Other =>
    }

    /** False when it throws. */
    method PeelOffPeer(id: AssocId, p: Peeling) returns (ok: bool)
      requires TableOk(View()) && FreshChoice(View(), p)
      modifies this, kernel
      ensures ok == p.Peels?
      ensures View() == PeelOff(old(View()), id, p)
    {
      PeelOffKeepsOk(View(), id, p);
      match p
      case Refused => ok := false;
      case NoStatus(n) =>
        kernel.files := kernel.files.(open := kernel.files.open + {n});
        kernel.Destroy(FileDescriptors.Desc(n, true));
        ok := false;
      case Peels(n, buffer) =>
        kernel.files := kernel.files.(open := kernel.files.open + {n});
        var inPeer := kernel.HandOn(FileDescriptors.Desc(n, true));
        buffers := buffers + {buffer};
        if id !in peers {
          var inTable := kernel.HandOn(inPeer);
          peers := peers[id := Peer(inTable, buffer)];
        } else {
          kernel.Destroy(inPeer);
          buffers := buffers - {buffer};
        }
        ok := true;
    }

    method RemovePeer(id: AssocId)
      modifies this, kernel
      ensures View() == Remove(old(View()), id)
    {
      if id in peers {
        var p := peers[id];
        peers := peers - {id};
        buffers := buffers - {p.buffer};
        kernel.Destroy(p.fd);
      }
    }

    /** The search through the table, in whatever order it is stored. None is where the code would
        read past the end of the table. */
    method GetBuffer(fd: int) returns (buffer: Option<nat>)
      requires TableOk(View())
      ensures fd == mainFd ==> buffer == Some(mainBuffer)
      ensures fd != mainFd && !Peeled(View(), fd) ==> buffer == None
      ensures fd != mainFd ==> forall id :: id in peers && peers[id].fd.fd == fd ==> buffer == Some(peers[id].buffer)
    {
      if fd == mainFd {
        return Some(mainBuffer);
      }
      var todo := peers.Keys;
      while exists id :: id in todo
        invariant todo <= peers.Keys
        invariant forall id :: id in peers && id !in todo ==> peers[id].fd.fd != fd
        decreases todo
      {
        var id :| id in todo;
        if peers[id].fd.fd == fd {
          return Some(peers[id].buffer);
        }
        todo := todo - {id};
      }
      buffer := None;
    }

    /** Exactly the ready ones among the main descriptor and the peeled ones, in ascending order. */
    method SelectFds(ready: set<int>) returns (result: seq<int>)
      requires fdSet.Valid() && TableOk(View())
      requires mainFd < FD_SETSIZE && forall id :: id in peers ==> 0 <= peers[id].fd.fd < FD_SETSIZE
      modifies fdSet
      ensures fdSet.Valid() && Ascending(result)
      ensures forall n :: n in result <==> n in ready && (n == mainFd || Peeled(View(), n))
    {
      fdSet.Reset();
      fdSet.Set(mainFd);
      var todo := peers.Keys;
      while exists id :: id in todo
        invariant todo <= peers.Keys && fdSet.Valid()
        invariant forall n :: n in fdSet.fds ==> n == mainFd || Peeled(View(), n)
        invariant mainFd in fdSet.fds && forall id :: id in peers && id !in todo ==> peers[id].fd.fd in fdSet.fds
        decreases todo
      {
        var id :| id in todo;
        fdSet.Set(peers[id].fd.fd);
        todo := todo - {id};
      }
      result := fdSet.Select(ready);
    }
  }

  // ---------------------------------------------------------------- runs

  /** Notifications as they come in, with the sender and what kernel and pool would hand out; and
      reconnects that run, which connect through the main descriptor. */
  datatype Event = Notified(x: Notification, from: IPSocket, peeling: Peeling) | Retried(remote: IPSocket)

  datatype Run = Begin(mainFd: nat, mainBuffer: nat) | Then(prev: Run, event: Event)

  predicate CanHappen(s: Socket, e: Event) {
    match e
    case Notified(_, _, p) => FreshChoice(s, p)
    case Retried(r) => r in s.pending
  }

  function After(s: Socket, e: Event): Socket {
    match e
    case Notified(x, from, p) => Handle(s, x, from, p)
    case Retried(r) => s.(pending := s.pending - multiset{r})
  }

  function State(run: Run): Socket {
    match run
    case Begin(fd, b) => Socket(fd, FileDescriptors.OpenFiles({fd as int}, 0), b, {b}, map[], multiset{})
    case Then(prev, e) => After(State(prev), e)
  }

  predicate Valid(run: Run) {
    run.Then? ==> Valid(run.prev) && CanHappen(State(run.prev), run.event)
  }

  /** A COMM_UP for id that could be peeled off. */
  predicate BringsUp(e: Event, id: AssocId) {
    e.Notified? && e.x == CommUp(id) && e.peeling.Peels?
  }

  predicate TakesDown(e: Event, id: AssocId) {
    e.Notified? && (e.x == ShutdownComp(id) || e.x == CommLost(id))
  }

  /** There was such a COMM_UP for id and no SHUTDOWN_COMP or COMM_LOST after it. */
  predicate IsUp(run: Run, id: AssocId) {
    run.Then? && (BringsUp(run.event, id) || (!TakesDown(run.event, id) && IsUp(run.prev, id)))
  }

  predicate AsksToReconnect(e: Event, r: IPSocket) {
    e.Notified? && (e.x == CantStart || e.x.CommLost?) && e.from == r
  }

  /** How often a failed or lost association from r has asked for a reconnect, less those done. */
  function Owed(run: Run, r: IPSocket): int {
    match run
    case Begin(_, _) => 0
    case Then(prev, e) => Owed(prev, r) + (if AsksToReconnect(e, r) then 1 else if e == Retried(r) then -1 else 0)
  }

  lemma {:induction false} RunsKeepOk(run: Run)
    requires Valid(run)
    ensures TableOk(State(run))
  {
    if run.Then? {
      RunsKeepOk(run.prev);
      match run.event
      case Notified(x, from, p) => HandleKeepsOk(State(run.prev), x, from, p);
      case Retried(r) => PendingIsApart(State(run.prev), State(run));
    }
  }

  lemma KeysStep(s: Socket, e: Event, id: AssocId)
    requires TableOk(s) && CanHappen(s, e)
    ensures id in After(s, e).peers <==> BringsUp(e, id) || (!TakesDown(e, id) && id in s.peers)
  {
    if e.Notified? {
      match e.x
      case CommUp(i) => PeelOffKeepsOk(s, i, e.peeling);
      case ShutdownComp(i) => RemoveKeepsOk(s, i);
      case CommLost(i) => RemoveKeepsOk(s, i);
      case _ =>
    }
  }

  lemma PendingStep(s: Socket, e: Event, r: IPSocket)
    requires TableOk(s) && CanHappen(s, e)
    ensures After(s, e).pending[r] ==
            s.pending[r] + (if AsksToReconnect(e, r) then 1 else if e == Retried(r) then -1 else 0)
  {
    if e.Notified? {
      match e.x
      case CommUp(i) => PeelOffKeepsOk(s, i, e.peeling);
      case ShutdownComp(i) => RemoveKeepsOk(s, i);
      case CommLost(i) => RemoveKeepsOk(s, i);
      case _ =>
    }
  }

  /** After any notifications, repeated and unknown associations and failing peel-offs included: the keys are the
      associations that are up, and the reconnects scheduled are those that are owed. */
  lemma {:induction false} TableRefinesNotifications(run: Run, id: AssocId, r: IPSocket)
    requires Valid(run)
    ensures id in State(run).peers <==> IsUp(run, id)
    ensures State(run).pending[r] == Owed(run, r)
  {
    hide After, CanHappen, TableOk;
    if run.Then? {
      TableRefinesNotifications(run.prev, id, r);
      RunsKeepOk(run.prev);
      KeysStep(State(run.prev), run.event, id);
      PendingStep(State(run.prev), run.event, r);
    }
  }

  function EntryOf(s: Socket, id: AssocId): Option<Peer> {
    if id in s.peers then Some(s.peers[id]) else None
  }

  /** What the first COMM_UP that could be peeled off has got for id, if there was one since id was last
      taken down. */
  function FirstUp(run: Run, id: AssocId): Option<Peer> {
    if run.Begin? || TakesDown(run.event, id) then None
    else if FirstUp(run.prev, id).Some? || !BringsUp(run.event, id) then FirstUp(run.prev, id)
    else Some(Peer(FileDescriptors.Desc(run.event.peeling.n, true), run.event.peeling.buffer))
  }

  lemma EntryStep(s: Socket, e: Event, id: AssocId)
    requires TableOk(s) && CanHappen(s, e)
    ensures EntryOf(After(s, e), id) ==
            if TakesDown(e, id) then None
            else if id in s.peers || !BringsUp(e, id) then EntryOf(s, id)
            else Some(Peer(FileDescriptors.Desc(e.peeling.n, true), e.peeling.buffer))
  {
    if e.Notified? {
      match e.x
      case CommUp(i) => PeelOffKeepsOk(s, i, e.peeling);
      case ShutdownComp(i) => RemoveKeepsOk(s, i);
      case CommLost(i) => RemoveKeepsOk(s, i);
      case _ =>
    }
  }

  /** An association keeps the descriptor and buffer of its first COMM_UP; later ones change nothing. */
  lemma {:induction false} EntriesAreFirstUps(run: Run, id: AssocId)
    requires Valid(run)
    ensures EntryOf(State(run), id) == FirstUp(run, id)
  {
    hide After, CanHappen, TableOk, BringsUp, TakesDown;
    if run.Then? {
      EntriesAreFirstUps(run.prev, id);
      RunsKeepOk(run.prev);
      EntryStep(State(run.prev), run.event, id);
    }
  }

  /** Each open descriptor besides the main one is exactly one peer's, so the search for its buffer
      finds an entry, and only one. */
  lemma SelectedHasOnePeer(run: Run, n: int)
    requires Valid(run) && n in State(run).files.open && n != State(run).mainFd
    ensures exists id :: id in State(run).peers && State(run).peers[id].fd == FileDescriptors.Desc(n, true)
                         && forall j :: j in State(run).peers && State(run).peers[j].fd.fd == n ==> j == id
  {
    RunsKeepOk(run);
    var s := State(run);
    assert Peeled(s, n);
    var id :| id in s.peers && s.peers[id].fd.fd == n;
    assert s.peers[id].fd == FileDescriptors.Desc(n, true);
  }
}
