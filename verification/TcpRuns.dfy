/** Runs of the TCP table over any connects, accepts, shutdowns, losses and reconnects. */
module TcpRuns {
  import opened Wrappers
  import opened IPSockets
  import opened TcpTable
  import FileDescriptors

  datatype Event = Connects(remote: IPSocket, n: nat, buffer: nat) | Refused(n: nat)
                 | Accepts(remote: IPSocket, n: nat, buffer: nat)
                 | Ends(fd: int) | Breaks(fd: int)
                 | Retries(remote: IPSocket, n: nat, buffer: nat) | RetryRefused(remote: IPSocket, n: nat)

  predicate CanHappen(s: Socket, e: Event) {
    match e
    case Connects(_, n, buffer) => FreshChoice(s, n, buffer)
    case Refused(n) => n !in s.files.open
    case Accepts(_, n, buffer) => FreshChoice(s, n, buffer)
    case Ends(_) => true
    case Breaks(_) => true
    case Retries(r, n, buffer) => r in s.pending && FreshChoice(s, n, buffer)
    case RetryRefused(r, n) => r in s.pending && n !in s.files.open
  }

  function After(s: Socket, e: Event): Socket
    requires CanHappen(s, e)
  {
    match e
    case Connects(r, n, buffer) => ConnectOne(s, n, buffer, r)
    case Refused(n) => ConnectFails(s, n)
    case Accepts(r, n, buffer) => Accept(s, n, buffer, r)
    case Ends(fd) => Erase(s, fd)
    case Breaks(fd) => Lose(s, fd)
    case Retries(r, n, buffer) => ConnectOne(Taken(s, r), n, buffer, r)
    case RetryRefused(r, n) => ConnectFails(Taken(s, r), n)
  }

  datatype Run = Begin(listening: nat, mainBuffer: nat) | Then(prev: Run, event: Event)

  function State(run: Run): Socket {
    match run
    case Begin(l, b) => Socket(l, FileDescriptors.OpenFiles({l as int}, 0), b, {b}, map[], multiset{})
    case Then(prev, e) => if CanHappen(State(prev), e) then After(State(prev), e) else State(prev)
  }

  predicate Valid(run: Run) {
    run.Then? ==> Valid(run.prev) && CanHappen(State(run.prev), run.event)
  }

  lemma StepKeepsOk(s: Socket, e: Event)
    requires TableOk(s) && CanHappen(s, e)
    ensures TableOk(After(s, e))
  {
    match e
    case Connects(r, n, buffer) => AdoptKeepsOk(s, n, buffer, r, true, CONNECT_MOVES);
    case Refused(n) => ConnectFailsKeepsOk(s, n);
    case Accepts(r, n, buffer) => AdoptKeepsOk(s, n, buffer, r, false, ACCEPT_MOVES);
    case Ends(fd) => EraseKeepsOk(s, fd);
    case Breaks(fd) => LoseKeepsOk(s, fd);
    case Retries(r, n, buffer) => AdoptKeepsOk(Taken(s, r), n, buffer, r, true, CONNECT_MOVES);
    case RetryRefused(r, n) => ConnectFailsKeepsOk(Taken(s, r), n);
  }

  /** Descriptor ownership over all runs: keys are the numbers their entries own, the open numbers
      are exactly the listening one and the keys, and no number is closed while not open. */
  lemma {:induction false} RunsOwnTheirDescriptors(run: Run)
    requires Valid(run)
    ensures TableOk(State(run))
  {
    if run.Then? {
      RunsOwnTheirDescriptors(run.prev);
      StepKeepsOk(State(run.prev), run.event);
    }
  }

  // ---------------------------------------------------------------- which connections there are

  /** The event gives descriptor k to a new connection, and this is its entry. */
  function Brings(e: Event, k: int): Option<Peer> {
    match e
    case Connects(r, n, buffer) => if n == k then Some(Peer(FileDescriptors.Desc(k, true), buffer, r, true)) else None
    case Accepts(r, n, buffer) => if n == k then Some(Peer(FileDescriptors.Desc(k, true), buffer, r, false)) else None
    case Retries(r, n, buffer) => if n == k then Some(Peer(FileDescriptors.Desc(k, true), buffer, r, true)) else None
    case _ => None
  }

  predicate TakesAway(e: Event, k: int) {
    e == Ends(k) || e == Breaks(k)
  }

  /** The entry of the last connection that descriptor k was given to, if it has not ended since. */
  function Standing(run: Run, k: int): Option<Peer> {
    if run.Begin? then None
    else if Brings(run.event, k).Some? then Brings(run.event, k)
    else if TakesAway(run.event, k) then None
    else Standing(run.prev, k)
  }

  function EntryOf(s: Socket, k: int): Option<Peer> {
    if k in s.peers then Some(s.peers[k]) else None
  }

  lemma EntryStep(s: Socket, e: Event, k: int)
    requires TableOk(s) && CanHappen(s, e)
    ensures EntryOf(After(s, e), k) ==
            if Brings(e, k).Some? then Brings(e, k) else if TakesAway(e, k) then None else EntryOf(s, k)
  {
    hide TableOk, Adopt, Erase, Lose;
    match e
    case Connects(r, n, buffer) => AdoptKeepsOk(s, n, buffer, r, true, CONNECT_MOVES);
    case Refused(n) => RefusedKeepsTable(s, n);
    case Accepts(r, n, buffer) => AdoptKeepsOk(s, n, buffer, r, false, ACCEPT_MOVES);
    case Ends(fd) => EraseKeepsOk(s, fd);
    case Breaks(fd) => LoseKeepsOk(s, fd);
    case Retries(r, n, buffer) =>
      TakenKeepsOk(s, r);
      AdoptKeepsOk(Taken(s, r), n, buffer, r, true, CONNECT_MOVES);
    case RetryRefused(r, n) =>
      TakenKeepsOk(s, r);
      RefusedKeepsTable(Taken(s, r), n);
  }

  lemma TakenKeepsOk(s: Socket, r: IPSocket)
    requires TableOk(s)
    ensures TableOk(Taken(s, r)) && Taken(s, r).peers == s.peers
  {
  }

  lemma RefusedKeepsTable(s: Socket, n: nat)
    ensures ConnectFails(s, n).peers == s.peers
  {
  }

  /** Over all runs the table holds, under each descriptor number, the connection it was last given to
      and that has neither ended nor broken since, and nothing else. */
  lemma {:induction false} TableRefinesEvents(run: Run, k: int)
    requires Valid(run)
    ensures EntryOf(State(run), k) == Standing(run, k)
  {
    hide After, CanHappen, TableOk, Brings, TakesAway;
    if run.Begin? {
      NothingAtStart(run.listening, run.mainBuffer, k);
    } else {
      TableRefinesEvents(run.prev, k);
      RunsOwnTheirDescriptors(run.prev);
      EntryStep(State(run.prev), run.event, k);
    }
  }

  lemma NothingAtStart(listening: nat, mainBuffer: nat, k: int)
    ensures EntryOf(State(Begin(listening, mainBuffer)), k) == None
  {
  }

  // ---------------------------------------------------------------- reconnection

  /** The table's connections to r that this side opened. */
  function OutboundFds(s: Socket, r: IPSocket): set<int> {
    set k | k in s.peers && s.peers[k].remote == r && s.peers[k].reestablish
  }

  function Outbound(s: Socket, r: IPSocket): nat {
    |OutboundFds(s, r)|
  }

  /** Successful connects to r that somebody asked for. */
  function Requested(run: Run, r: IPSocket): nat {
    match run
    case Begin(_, _) => 0
    case Then(prev, e) => Requested(prev, r) + if e.Connects? && e.remote == r then 1 else 0
  }

  /** Graceful shutdowns of connections to r that this side opened. */
  function Ended(run: Run, r: IPSocket): nat {
    match run
    case Begin(_, _) => 0
    case Then(prev, e) =>
      Ended(prev, r) + if e.Ends? && e.fd in OutboundFds(State(prev), r) then 1 else 0
  }

  /** Reconnects to r that were refused, an exception that ends the network task. */
  function Abandoned(run: Run, r: IPSocket): nat {
    match run
    case Begin(_, _) => 0
    case Then(prev, e) => Abandoned(prev, r) + if e.RetryRefused? && e.remote == r then 1 else 0
  }

  lemma OutboundAfterErase(s: Socket, t: Socket, k: int, r: IPSocket)
    requires t.peers == s.peers - {k}
    ensures Outbound(t, r) == Outbound(s, r) - if k in OutboundFds(s, r) then 1 else 0
  {
    assert OutboundFds(t, r) == OutboundFds(s, r) - {k};
  }

  lemma OutboundAfterAdopt(s: Socket, t: Socket, n: int, p: Peer, r: IPSocket)
    requires n !in s.peers && t.peers == s.peers[n := p]
    ensures Outbound(t, r) == Outbound(s, r) + if p.remote == r && p.reestablish then 1 else 0
  {
    if p.remote == r && p.reestablish {
      assert OutboundFds(t, r) == OutboundFds(s, r) + {n};
    } else {
      assert OutboundFds(t, r) == OutboundFds(s, r);
    }
  }

  /** What one event does to the number of connections to r that are up or to be retried. */
  function Gain(s: Socket, e: Event, r: IPSocket): int {
    match e
    case Connects(x, _, _) => if x == r then 1 else 0
    case Ends(fd) => if fd in OutboundFds(s, r) then -1 else 0
    case RetryRefused(x, _) => if x == r then -1 else 0
    case _ => 0
  }

  /** Losing a connection or retrying it changes nothing, nor does anything accepted. */
  lemma StepConserves(s: Socket, e: Event, r: IPSocket)
    requires TableOk(s) && CanHappen(s, e)
    ensures Outbound(After(s, e), r) + After(s, e).pending[r] == Outbound(s, r) + s.pending[r] + Gain(s, e, r)
  {
    var t := After(s, e);
    match e
    case Connects(x, n, buffer) =>
      AdoptKeepsOk(s, n, buffer, x, true, CONNECT_MOVES);
      OutboundAfterAdopt(s, t, n, t.peers[n as int], r);
    case Refused(n) => ConnectFailsKeepsOk(s, n);
    case Accepts(x, n, buffer) =>
      AdoptKeepsOk(s, n, buffer, x, false, ACCEPT_MOVES);
      OutboundAfterAdopt(s, t, n, t.peers[n as int], r);
    case Ends(fd) =>
      EraseKeepsOk(s, fd);
      OutboundAfterErase(s, t, fd, r);
    case Breaks(fd) =>
      LoseKeepsOk(s, fd);
      OutboundAfterErase(s, t, fd, r);
    case Retries(x, n, buffer) =>
      AdoptKeepsOk(Taken(s, x), n, buffer, x, true, CONNECT_MOVES);
      OutboundAfterAdopt(s, t, n, t.peers[n as int], r);
    case RetryRefused(x, n) =>
      ConnectFailsKeepsOk(Taken(s, x), n);
  }

  lemma NothingOutboundAtStart(l: nat, b: nat, r: IPSocket)
    ensures Outbound(State(Begin(l, b)), r) == 0
  {
    assert OutboundFds(State(Begin(l, b)), r) == {};
  }

  /** Per remote, over every run: connections that are up plus reconnects that are due are the
      connects that succeeded, less those ended gracefully and the reconnects that were refused. */
  lemma {:induction false} ReconnectionIsConserved(run: Run, r: IPSocket)
    requires Valid(run)
    ensures Outbound(State(run), r) + State(run).pending[r] + Ended(run, r) + Abandoned(run, r) == Requested(run, r)
  {
    hide After, OutboundFds, CanHappen, TableOk;
    if run.Begin? {
      NothingOutboundAtStart(run.listening, run.mainBuffer, r);
    } else {
      ReconnectionIsConserved(run.prev, r);
      RunsOwnTheirDescriptors(run.prev);
      StepConserves(State(run.prev), run.event, r);
    }
  }
}
