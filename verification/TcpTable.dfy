/**
 The TCP socket's table of connections: which descriptors it owns, which buffers, and which
 reconnects it has scheduled. Numbers chosen by the kernel and buffers chosen by the pool are
 parameters; a kernel may hand out any number that is not open.
 */
module TcpTable {
  import opened IPSockets
  import FileDescriptors
  import opened FDSets

  type Desc = FileDescriptors.Desc
  type OpenFiles = FileDescriptors.OpenFiles

  datatype Peer = Peer(fd: Desc, buffer: nat, remote: IPSocket, reestablish: bool)

  /** `pending` holds the remotes whose reconnect is scheduled. */
  datatype Socket = Socket(listening: nat, files: OpenFiles, mainBuffer: nat, buffers: set<nat>,
                           peers: map<int, Peer>, pending: multiset<IPSocket>)

  // ---------------------------------------------------------------- specification

  /** `emplace`: a new entry keeps the peer; for a known key the peer is destroyed again. */
  function Emplace(s: Socket, key: int, p: Peer): Socket {
    if key in s.peers then s.(files := FileDescriptors.ClosedBy(s.files, p.fd), buffers := s.buffers - {p.buffer})
    else s.(peers := s.peers[key := p])
  }

  /** From the connecting function into a peer, and with the peer into the table. */
  const CONNECT_MOVES: nat := 2

  /** Out of accept(), into a peer, and with the peer into the table. */
  const ACCEPT_MOVES: nat := 3

  function Opened(s: Socket, n: nat, buffer: nat): Socket {
    s.(files := s.files.(open := s.files.open + {n}), buffers := s.buffers + {buffer})
  }

  /** A new wrapper for n is moved on into a peer of the table, under the number it keeps. */
  function Adopt(s: Socket, n: nat, buffer: nat, remote: IPSocket, reestablish: bool, moves: nat): Socket {
    var grown := Opened(s, n, buffer);
    var (files, fd) := FileDescriptors.HandedOn(grown.files, FileDescriptors.Desc(n, true), moves);
    Emplace(grown.(files := files), n, Peer(fd, buffer, remote, reestablish))
  }

  /** connect() towards one remote, with ShouldReestablish. */
  function ConnectOne(s: Socket, n: nat, buffer: nat, remote: IPSocket): Socket {
    Adopt(s, n, buffer, remote, true, CONNECT_MOVES)
  }

  /** The connect is refused at once: the descriptor is opened and closed again. */
  function ConnectFails(s: Socket, n: nat): Socket {
    s.(files := FileDescriptors.ClosedBy(s.files.(open := s.files.open + {n}), FileDescriptors.Desc(n, true)))
  }

  function Accept(s: Socket, n: nat, buffer: nat, remote: IPSocket): Socket {
    Adopt(s, n, buffer, remote, false, ACCEPT_MOVES)
  }

  /** Erasing an entry destroys its descriptor wrapper and gives its buffer back. A graceful shutdown
      does no more; for an unknown descriptor it throws, and nothing changes. */
  function Erase(s: Socket, k: int): Socket {
    if k in s.peers then
      s.(files := FileDescriptors.ClosedBy(s.files, s.peers[k].fd), buffers := s.buffers - {s.peers[k].buffer},
         peers := s.peers - {k})
    else s
  }

  function Lose(s: Socket, k: int): Socket {
    if k !in s.peers then s
    else if s.peers[k].reestablish then Erase(s.(pending := s.pending + multiset{s.peers[k].remote}), k)
    else Erase(s, k)
  }

  /** A scheduled reconnect runs. */
  function Taken(s: Socket, remote: IPSocket): Socket {
    s.(pending := s.pending - multiset{remote})
  }

  // ---------------------------------------------------------------- invariant

  /** The buffers that entries hold. */
  function Held(peers: map<int, Peer>): (r: set<nat>)
    ensures forall b :: b in r <==> exists k :: k in peers && peers[k].buffer == b
  {
    set k | k in peers :: peers[k].buffer
  }

  /** Keys are the numbers of the descriptors they own; exactly these and the listening one are
      open, nothing was closed twice, no two entries share a buffer, and no buffer is out of the pool
      but those of the entries and the main one. */
  ghost predicate TableOk(s: Socket) {
    && s.files.badCloses == 0
    && s.listening !in s.peers
    && (forall k :: k in s.peers ==> k >= 0 && s.peers[k].fd == FileDescriptors.Desc(k, true))
    && s.files.open == {s.listening as int} + s.peers.Keys
    && s.buffers == {s.mainBuffer} + Held(s.peers)
    && (forall k :: k in s.peers ==> s.peers[k].buffer in s.buffers && s.peers[k].buffer != s.mainBuffer)
    && (forall j, k :: j in s.peers && k in s.peers && s.peers[j].buffer == s.peers[k].buffer ==> j == k)
  }

  predicate FreshChoice(s: Socket, n: nat, buffer: nat) {
    n !in s.files.open && buffer !in s.buffers
  }

  /** A number that is not open never meets an entry: the new peer is always inserted. */
  lemma AdoptKeepsOk(s: Socket, n: nat, buffer: nat, remote: IPSocket, reestablish: bool, moves: nat)
    requires TableOk(s) && FreshChoice(s, n, buffer)
    ensures var t := Adopt(s, n, buffer, remote, reestablish, moves);
            && TableOk(t)
            && n !in s.peers
            && t.peers == s.peers[n as int := Peer(FileDescriptors.Desc(n, true), buffer, remote, reestablish)]
            && t.pending == s.pending && t.listening == s.listening && t.mainBuffer == s.mainBuffer
            && t.buffers == s.buffers + {buffer}
  {
    FileDescriptors.HandingOnKeepsOwner(Opened(s, n, buffer).files, FileDescriptors.Desc(n, true), moves);
    var t := Adopt(s, n, buffer, remote, reestablish, moves);
    assert t.peers.Keys == s.peers.Keys + {n as int};
    HeldAfterAdopt(s.peers, t.peers, n);
  }

  lemma HeldAfterAdopt(before: map<int, Peer>, after: map<int, Peer>, n: int)
    requires n !in before && n in after && after == before[n := after[n]]
    ensures Held(after) == Held(before) + {after[n].buffer}
  {
    forall b
      ensures b in Held(after) <==> b in Held(before) || b == after[n].buffer
    {
      if k :| k in before && before[k].buffer == b {
        assert k in after && after[k].buffer == b;
      }
      if b == after[n].buffer {
        assert n in after;
      }
    }
  }

  lemma HeldAfterErase(before: map<int, Peer>, k: int)
    requires k in before && forall j :: j in before && before[j].buffer == before[k].buffer ==> j == k
    ensures Held(before - {k}) == Held(before) - {before[k].buffer}
  {
    forall b
      ensures b in Held(before - {k}) <==> b in Held(before) && b != before[k].buffer
    {
      if j :| j in before && before[j].buffer == b && j != k {
        assert j in before - {k};
      }
    }
  }

  lemma ConnectFailsKeepsOk(s: Socket, n: nat)
    requires TableOk(s) && n !in s.files.open
    ensures ConnectFails(s, n) == s
  {
    assert s.files.open + {n} - {n} == s.files.open;
  }

  lemma EraseKeepsOk(s: Socket, k: int)
    requires TableOk(s)
    ensures TableOk(Erase(s, k)) && Erase(s, k).peers == s.peers - {k}
  {
    var t := Erase(s, k);
    assert t.peers == s.peers - {k};
    assert t.peers.Keys == s.peers.Keys - {k};
    if k in s.peers {
      HeldAfterErase(s.peers, k);
    }
  }

  lemma LoseKeepsOk(s: Socket, k: int)
    requires TableOk(s)
    ensures TableOk(Lose(s, k)) && Lose(s, k).peers == s.peers - {k}
  {
    if k in s.peers {
      EraseKeepsOk(s.(pending := Lose(s, k).pending), k);
    } else {
      assert s.peers - {k} == s.peers;
    }
  }

  /** What the environment answers to one connect attempt. */
  datatype Choice = Choice(n: nat, buffer: nat, refused: bool)

  /** connect() goes through the remotes in order and gives up, by an exception, at the first refusal. */
  function ConnectEach(s: Socket, remotes: seq<IPSocket>, choices: seq<Choice>): (Socket, bool)
    requires |choices| == |remotes|
    decreases |remotes|
  {
    if remotes == [] then (s, true)
    else if choices[0].refused then (ConnectFails(s, choices[0].n), false)
    else ConnectEach(ConnectOne(s, choices[0].n, choices[0].buffer, remotes[0]), remotes[1..], choices[1..])
  }

  predicate FreshChoices(s: Socket, remotes: seq<IPSocket>, choices: seq<Choice>)
    requires |choices| == |remotes|
    decreases |remotes|
  {
    remotes == [] ||
    (FreshChoice(s, choices[0].n, choices[0].buffer) &&
     (choices[0].refused ||
      FreshChoices(ConnectOne(s, choices[0].n, choices[0].buffer, remotes[0]), remotes[1..], choices[1..])))
  }

  /** How many attempts succeed before the first refusal. */
  function BeforeRefusal(choices: seq<Choice>): (k: nat)
    ensures k <= |choices|
    ensures forall i :: 0 <= i < k ==> !choices[i].refused
    ensures k < |choices| ==> choices[k].refused
  {
    if choices == [] || choices[0].refused then 0 else 1 + BeforeRefusal(choices[1..])
  }

  /** The entry that a successful attempt leaves. */
  function Connected(remote: IPSocket, c: Choice): Peer {
    Peer(FileDescriptors.Desc(c.n, true), c.buffer, remote, true)
  }

  /** t is s with outbound entries for the first k remotes and nothing else, each under a number of
      its own; what was there before stays as it was. */
  ghost predicate ConnectsFirst(s: Socket, t: Socket, remotes: seq<IPSocket>, choices: seq<Choice>, k: nat)
    requires k <= |choices| == |remotes|
  {
    && t.pending == s.pending && t.listening == s.listening && t.mainBuffer == s.mainBuffer
    && |t.peers| == |s.peers| + k
    && (forall j :: j in s.peers ==> j in t.peers && t.peers[j] == s.peers[j])
    && (forall i :: 0 <= i < k ==>
          choices[i].n !in s.peers && choices[i].n in t.peers
          && t.peers[choices[i].n] == Connected(remotes[i], choices[i]))
    && (forall j :: j in t.peers ==> j in s.peers || exists i :: 0 <= i < k && choices[i].n == j)
  }

  lemma ConnectsOneMore(s: Socket, one: Socket, t: Socket, remotes: seq<IPSocket>, choices: seq<Choice>, k: nat)
    requires k < |choices| == |remotes| && choices[0].n !in s.peers
    requires one.peers == s.peers[choices[0].n as int := Connected(remotes[0], choices[0])]
    requires one.pending == s.pending && one.listening == s.listening && one.mainBuffer == s.mainBuffer
    requires ConnectsFirst(one, t, remotes[1..], choices[1..], k)
    ensures ConnectsFirst(s, t, remotes, choices, k + 1)
  {
    forall i | 0 <= i < k + 1
      ensures choices[i].n !in s.peers && choices[i].n in t.peers
              && t.peers[choices[i].n] == Connected(remotes[i], choices[i])
    {
      if i == 0 {
        assert choices[0].n in one.peers;
      } else {
        assert choices[1..][i - 1] == choices[i] && remotes[1..][i - 1] == remotes[i];
      }
    }
    forall j | j in t.peers && j !in s.peers
      ensures exists i :: 0 <= i < k + 1 && choices[i].n == j
    {
      if j in one.peers {
        assert choices[0].n == j;
      } else {
        var i :| 0 <= i < k && choices[1..][i].n == j;
        assert choices[i + 1].n == j;
      }
    }
  }

  /** connect() leaves entries for exactly the remotes before the first refusal, and succeeds just if
      no attempt is refused. */
  lemma {:induction false} ConnectEachResult(s: Socket, remotes: seq<IPSocket>, choices: seq<Choice>)
    requires |choices| == |remotes| && TableOk(s) && FreshChoices(s, remotes, choices)
    ensures var (t, ok) := ConnectEach(s, remotes, choices);
            && TableOk(t) && ConnectsFirst(s, t, remotes, choices, BeforeRefusal(choices))
            && (ok <==> forall i :: 0 <= i < |choices| ==> !choices[i].refused)
    decreases |remotes|
  {
    hide TableOk, Adopt, ConnectsFirst;
    if remotes == [] {
      ConnectsNone(s, remotes, choices);
    } else if choices[0].refused {
      ConnectFailsKeepsOk(s, choices[0].n);
      ConnectsNone(s, remotes, choices);
    } else {
      var c := choices[0];
      AdoptKeepsOk(s, c.n, c.buffer, remotes[0], true, CONNECT_MOVES);
      var one := ConnectOne(s, c.n, c.buffer, remotes[0]);
      ConnectEachResult(one, remotes[1..], choices[1..]);
      var t := ConnectEach(s, remotes, choices).0;
      ConnectsOneMore(s, one, t, remotes, choices, BeforeRefusal(choices[1..]));
      assert (forall i :: 0 <= i < |choices| ==> !choices[i].refused) <==>
             (forall i :: 0 <= i < |choices[1..]| ==> !choices[1..][i].refused) by {
        assert forall i :: 0 <= i < |choices[1..]| ==> choices[1..][i] == choices[i + 1];
        assert forall i :: 1 <= i < |choices| ==> choices[i] == choices[1..][i - 1];
      }
    }
  }

  lemma ConnectsNone(s: Socket, remotes: seq<IPSocket>, choices: seq<Choice>)
    requires |choices| == |remotes|
    ensures ConnectsFirst(s, s, remotes, choices, 0)
  {
  }

  // ---------------------------------------------------------------- the socket

  class SocketTcp {
    const listening: nat
    const mainBuffer: nat
    const kernel: FileDescriptors.Kernel
    const fdSet: FDSet
    var buffers: set<nat>
    var peers: map<int, Peer>
    var pending: multiset<IPSocket>

    ghost function View(): Socket
      reads this, kernel
    {
      Socket(listening, kernel.files, mainBuffer, buffers, peers, pending)
    }

    constructor (kernel: FileDescriptors.Kernel, fdSet: FDSet, listening: nat, mainBuffer: nat)
      requires kernel.files == FileDescriptors.OpenFiles({listening as int}, 0)
      ensures TableOk(View()) && peers == map[] && pending == multiset{}
      ensures this.kernel == kernel && this.fdSet == fdSet && this.listening == listening
    {
      this.kernel, this.fdSet, this.listening, this.mainBuffer := kernel, fdSet, listening, mainBuffer;
      buffers, peers, pending := {mainBuffer}, map[], multiset{};
    }

    /** One round of the loop in connect(), once the kernel has created and connected n. */
    method ConnectTo(remote: IPSocket, n: nat, buffer: nat)
      requires TableOk(View()) && FreshChoice(View(), n, buffer)
      modifies this, kernel
      ensures View() == ConnectOne(old(View()), n, buffer, remote) && TableOk(View())
    {
      AdoptKeepsOk(View(), n, buffer, remote, true, CONNECT_MOVES);
      kernel.files := kernel.files.(open := kernel.files.open + {n});
      EmplacePeer(FileDescriptors.Desc(n, true), buffer, remote, true);
    }

    /** False when an attempt is refused; what was connected before stays. */
    method Connect(remotes: seq<IPSocket>, choices: seq<Choice>) returns (ok: bool)
      requires |choices| == |remotes| && TableOk(View()) && FreshChoices(View(), remotes, choices)
      modifies this, kernel
      ensures (View(), ok) == ConnectEach(old(View()), remotes, choices) && TableOk(View())
    {
      var i := 0;
      assert remotes[0..] == remotes && choices[0..] == choices;
      while i < |remotes|
        invariant 0 <= i <= |remotes|
        invariant TableOk(View()) && FreshChoices(View(), remotes[i..], choices[i..])
        invariant ConnectEach(View(), remotes[i..], choices[i..]) == ConnectEach(old(View()), remotes, choices)
      {
        assert remotes[i..][1..] == remotes[i + 1..] && choices[i..][1..] == choices[i + 1..];
        var c := choices[i];
        if c.refused {
          ConnectFailsKeepsOk(View(), c.n);
          kernel.files := kernel.files.(open := kernel.files.open + {c.n});
          kernel.Destroy(FileDescriptors.Desc(c.n, true));
          return false;
        }
        ConnectTo(remotes[i], c.n, c.buffer);
        i := i + 1;
      }
      ok := true;
    }

    /** accept() and emplace. False when accept() throws, which changes nothing. */
    method HandleCommUp(accepts: bool, remote: IPSocket, n: nat, buffer: nat) returns (ok: bool)
      requires TableOk(View()) && (accepts ==> FreshChoice(View(), n, buffer))
      modifies this, kernel
      ensures ok == accepts && TableOk(View())
      ensures View() == if accepts then Accept(old(View()), n, buffer, remote) else old(View())
    {
      if !accepts {
        return false;
      }
      AdoptKeepsOk(View(), n, buffer, remote, false, ACCEPT_MOVES);
      kernel.files := kernel.files.(open := kernel.files.open + {n});
      var fd := kernel.HandOn(FileDescriptors.Desc(n, true));
      EmplacePeer(fd, buffer, remote, false);
      ok := true;
    }

    /** The wrapper goes into a peer and the peer into the table. */
    method EmplacePeer(fd: Desc, buffer: nat, remote: IPSocket, reestablish: bool)
      requires fd.Owns() && fd.fd !in peers
      modifies this, kernel
      ensures kernel.files == old(kernel.files)
      ensures peers == old(peers)[fd.fd := Peer(fd, buffer, remote, reestablish)]
      ensures buffers == old(buffers) + {buffer} && pending == old(pending)
    {
      buffers := buffers + {buffer};
      var inPeer := kernel.HandOn(fd);
      var inTable := kernel.HandOn(inPeer);
      peers := peers[fd.fd := Peer(inTable, buffer, remote, reestablish)];
    }

    /** False when `peers.at` throws. */
    method HandleGracefulShutdown(fd: int) returns (found: bool)
      requires TableOk(View())
      modifies this, kernel
      ensures found == (fd in old(peers))
      ensures View() == Erase(old(View()), fd) && TableOk(View())
    {
      EraseKeepsOk(View(), fd);
      found := fd in peers;
      if found {
        Remove(fd);
      }
    }

    /** False when `peers.at` throws. */
    method HandleCommLost(fd: int) returns (found: bool)
      requires TableOk(View())
      modifies this, kernel
      ensures found == (fd in old(peers))
      ensures View() == Lose(old(View()), fd) && TableOk(View())
    {
      LoseKeepsOk(View(), fd);
      found := fd in peers;
      if found {
        if peers[fd].reestablish {
          pending := pending + multiset{peers[fd].remote};
        }
        Remove(fd);
      }
    }

    method Remove(fd: int)
      modifies this, kernel
      ensures View() == Erase(old(View()), fd)
    {
      if fd in peers {
        var peer := peers[fd];
        peers := peers - {fd};
        buffers := buffers - {peer.buffer};
        kernel.Destroy(peer.fd);
      }
    }

    /** None when `peers.at` throws. */
    method GetBuffer(fd: int) returns (found: bool, buffer: nat)
      ensures found == (fd in peers) && (found ==> buffer == peers[fd].buffer)
    {
      found := fd in peers;
      buffer := if found then peers[fd].buffer else 0;
    }

    /** Exactly the ready ones among the listening descriptor and the table's, in ascending order. */
    method SelectFds(ready: set<int>) returns (result: seq<int>)
      requires fdSet.Valid() && TableOk(View())
      requires listening < FD_SETSIZE && forall k :: k in peers ==> k < FD_SETSIZE
      modifies fdSet
      ensures fdSet.Valid() && Ascending(result)
      ensures forall n :: n in result <==> n in ready && (n == listening || n in peers)
    {
      fdSet.Reset();
      fdSet.Set(listening);
      var todo := peers.Keys;
      while exists k :: k in todo
        invariant todo <= peers.Keys
        invariant fdSet.Valid() && fdSet.fds == {listening as int} + (peers.Keys - todo)
        decreases todo
      {
        var k :| k in todo;
        assert peers[k].fd.fd == k;
        fdSet.Set(peers[k].fd.fd);
        todo := todo - {k};
      }
      result := fdSet.Select(ready);
    }
  }
}
