/**
 The UDP socket: its peer table, the two tasks it keeps per peer, and what each message does.
 The functions say what one call does to the state; the class is the code, proved against them.
 */
module UdpEndpoint {
  import opened Constants
  import opened IPSockets
  import opened Scheduling

  const KEEP_ALIVE_PERIOD: nat := 1000
  const KEEP_ALIVE_PROBES: nat := 3
  const COMM_LOST_DELAY: nat := KEEP_ALIVE_PERIOD * (KEEP_ALIVE_PROBES + 1)
  const REESTABLISH_DELAY: nat := 5000

  const KEEP_ALIVE := "ka"
  const KEEP_ALIVE_ACK := "kack"

  /** What a scheduled closure does when it runs. */
  datatype Action = Ping(remote: IPSocket) | CommLost(remote: IPSocket) | Reconnect(remote: IPSocket)

  datatype Peer = Peer(ping: Handle, lost: Handle)

  datatype Datagram = Datagram(msg: string, to: IPSocket)

  datatype Endpoint = Endpoint(peers: map<IPSocket, Peer>, sched: Schedule<Action>, outbox: multiset<Datagram>)

  const FRESH: Endpoint := Endpoint(map[], Schedule(map[], 0), multiset{})

  // ---------------------------------------------------------------- specification

  function SendTo(ep: Endpoint, msg: string, remote: IPSocket): Endpoint {
    ep.(outbox := ep.outbox + multiset{Datagram(msg, remote)})
  }

  /** One datagram to each of the remotes. */
  function Letters(msg: string, remotes: set<IPSocket>): (s: set<Datagram>)
    ensures forall d :: d in s <==> d.msg == msg && d.to in remotes
  {
    var s := set r | r in remotes :: Datagram(msg, r);
    assert forall d: Datagram :: d.msg == msg && d.to in remotes ==> d == Datagram(msg, d.to);
    s
  }

  function Broadcast(ep: Endpoint, msg: string): Endpoint {
    ep.(outbox := ep.outbox + multiset(Letters(msg, ep.peers.Keys)))
  }

  /** A broadcast is one more datagram to each peer of the table, and none to anyone else. */
  lemma BroadcastReachesPeers(ep: Endpoint, msg: string, d: Datagram)
    ensures Broadcast(ep, msg).outbox[d] == ep.outbox[d] + if d.msg == msg && d.to in ep.peers then 1 else 0
    ensures Broadcast(ep, msg).peers == ep.peers && Broadcast(ep, msg).sched == ep.sched
  {
  }

  lemma LettersTo(msg: string, remotes: set<IPSocket>, r: IPSocket)
    requires r !in remotes
    ensures multiset(Letters(msg, remotes + {r})) == multiset(Letters(msg, remotes)) + multiset{Datagram(msg, r)}
  {
    assert Letters(msg, remotes + {r}) == Letters(msg, remotes) + {Datagram(msg, r)};
  }

  /** Both tasks are scheduled first; `emplace` then does nothing if the remote is known. */
  function CommUp(ep: Endpoint, now: nat, r: IPSocket): Endpoint {
    var id := ep.sched.nextId;
    var sched := ep.sched.Add(now, Ping(r), KEEP_ALIVE_PERIOD, KEEP_ALIVE_PROBES)
                 .Add(now, CommLost(r), COMM_LOST_DELAY, 1);
    ep.(sched := sched, peers := if r in ep.peers then ep.peers else ep.peers[r := Peer(Weak(id), Weak(id + 1))])
  }

  function PeerOrDefault(ep: Endpoint, r: IPSocket): Peer {
    if r in ep.peers then ep.peers[r] else Peer(Null, Null)
  }

  /** Disables the tasks the table knows for r and erases r. */
  function Remove(ep: Endpoint, r: IPSocket): Endpoint {
    var p := PeerOrDefault(ep, r);
    ep.(sched := ep.sched.Disable(p.ping).Disable(p.lost), peers := ep.peers - {r})
  }

  function Lose(ep: Endpoint, now: nat, r: IPSocket): Endpoint {
    Remove(ep.(sched := ep.sched.Add(now, Reconnect(r), REESTABLISH_DELAY, 1)), r)
  }

  /** A remote without an entry is given one, with a ping task only. */
  function ResetTasks(ep: Endpoint, now: nat, r: IPSocket): Endpoint {
    var p := PeerOrDefault(ep, r);
    if ep.sched.Locks(p.ping) then
      ep.(sched := ep.sched.Reset(now, p.ping).Reset(now, p.lost))
    else
      var q := p.(ping := Weak(ep.sched.nextId));
      ep.(sched := ep.sched.Add(now, Ping(r), KEEP_ALIVE_PERIOD, KEEP_ALIVE_PROBES).Reset(now, p.lost),
          peers := ep.peers[r := q])
  }

  function Receive(ep: Endpoint, now: nat, from: IPSocket, msg: string): Endpoint {
    if msg == QUIT then Remove(ep, from)
    else
      var answered := if msg == KEEP_ALIVE then SendTo(ep, KEEP_ALIVE_ACK, from) else ep;
      if from in ep.peers then ResetTasks(answered, now, from) else CommUp(answered, now, from)
  }

  /** One run of task id: the scheduler's bookkeeping, then the closure. */
  function RunTask(ep: Endpoint, now: nat, id: nat): Endpoint
    requires id in ep.sched.tasks
  {
    var rest := ep.(sched := ep.sched.Consume(now, id));
    match ep.sched.tasks[id].action
    case Ping(r) => SendTo(rest, KEEP_ALIVE, r)
    case CommLost(r) => Lose(rest, now, r)
    case Reconnect(r) => CommUp(rest, now, r)
  }

  function ConnectAll(ep: Endpoint, now: nat, remotes: seq<IPSocket>): Endpoint
    decreases remotes
  {
    if remotes == [] then ep else ConnectAll(CommUp(ep, now, remotes[0]), now, remotes[1..])
  }

  // ---------------------------------------------------------------- the socket

  class SocketUdp {
    const scheduler: TaskScheduler<Action>
    var peers: map<IPSocket, Peer>
    var outbox: multiset<Datagram>

    ghost function View(): Endpoint
      reads this, scheduler
    {
      Endpoint(peers, scheduler.schedule, outbox)
    }

    constructor (scheduler: TaskScheduler<Action>)
      requires scheduler.schedule == Schedule(map[], 0)
      ensures View() == FRESH && this.scheduler == scheduler
    {
      this.scheduler := scheduler;
      peers := map[];
      outbox := multiset{};
    }

    method Connect(remotes: seq<IPSocket>)
      modifies this, scheduler`schedule
      ensures View() == ConnectAll(old(View()), scheduler.now, remotes)
    {
      var i := 0;
      assert remotes[0..] == remotes;
      while i < |remotes|
        invariant 0 <= i <= |remotes|
        invariant ConnectAll(View(), scheduler.now, remotes[i..]) == ConnectAll(old(View()), scheduler.now, remotes)
      {
        assert remotes[i..][1..] == remotes[i + 1..];
        HandleCommUp(remotes[i]);
        i := i + 1;
      }
    }

    /** Sends to every peer, in whatever order the table lists them. */
    method Send(msg: string)
      modifies this`outbox
      ensures View() == Broadcast(old(View()), msg)
    {
      var todo := peers.Keys;
      while todo != {}
        invariant todo <= peers.Keys
        invariant outbox == old(outbox) + multiset(Letters(msg, peers.Keys - todo))
        decreases todo
      {
        var r :| r in todo;
        ghost var done := peers.Keys - todo;
        LettersTo(msg, done, r);
        assert done + {r} == peers.Keys - (todo - {r});
        SendOne(msg, r);
        todo := todo - {r};
      }
      assert peers.Keys - todo == peers.Keys;
    }

    /** The destructor. */
    method Close()
      modifies this`outbox
      ensures View() == Broadcast(old(View()), QUIT)
    {
      Send(QUIT);
    }

    method HandleMessage(from: IPSocket, msg: string)
      modifies this, scheduler`schedule
      ensures View() == Receive(old(View()), scheduler.now, from, msg)
    {
      if msg == QUIT {
        HandleGracefulShutdown(from);
        return;
      }
      if msg == KEEP_ALIVE {
        SendOne(KEEP_ALIVE_ACK, from);
      }
      if from in peers {
        ResetPeerTasks(from);
      } else {
        HandleCommUp(from);
      }
    }

    /** What `launch` does with one due task. */
    method Launch(id: nat)
      requires scheduler.schedule.IsDue(scheduler.now, id)
      modifies this, scheduler`schedule
      ensures View() == RunTask(old(View()), scheduler.now, id)
    {
      var action := scheduler.Take(id);
      match action
      case Ping(r) => SendOne(KEEP_ALIVE, r);
      case CommLost(r) => HandleCommLost(r);
      case Reconnect(r) =>
        assert ConnectAll(View(), scheduler.now, [r]) == CommUp(View(), scheduler.now, r) by {
          assert [r][1..] == [];
        }
        Connect([r]);
    }

    method SendOne(msg: string, remote: IPSocket)
      modifies this`outbox
      ensures View() == SendTo(old(View()), msg, remote)
    {
      outbox := outbox + multiset{Datagram(msg, remote)};
    }

    method HandleCommUp(r: IPSocket)
      modifies this, scheduler`schedule
      ensures View() == CommUp(old(View()), scheduler.now, r)
    {
      var ping := SchedulePing(r);
      var lost := ScheduleCommLost(r);
      if r !in peers {
        peers := peers[r := Peer(ping, lost)];
      }
    }

    method HandleGracefulShutdown(r: IPSocket)
      modifies this, scheduler`schedule
      ensures View() == Remove(old(View()), r)
    {
      RemovePeer(r);
    }

    method HandleCommLost(r: IPSocket)
      modifies this, scheduler`schedule
      ensures View() == Lose(old(View()), scheduler.now, r)
    {
      var _ := scheduler.AddTask(Reconnect(r), REESTABLISH_DELAY);
      RemovePeer(r);
    }

    method RemovePeer(r: IPSocket)
      modifies this, scheduler`schedule
      ensures View() == Remove(old(View()), r)
    {
      DisableTasks(r);
      peers := peers - {r};
      assert peers == old(peers) - {r};
    }

    method SchedulePing(r: IPSocket) returns (h: Handle)
      modifies scheduler`schedule
      ensures h == Weak(old(scheduler.schedule.nextId))
      ensures scheduler.schedule ==
              old(scheduler.schedule).Add(scheduler.now, Ping(r), KEEP_ALIVE_PERIOD, KEEP_ALIVE_PROBES)
    {
      h := scheduler.AddTask(Ping(r), KEEP_ALIVE_PERIOD, KEEP_ALIVE_PROBES);
    }

    method ScheduleCommLost(r: IPSocket) returns (h: Handle)
      modifies scheduler`schedule
      ensures h == Weak(old(scheduler.schedule.nextId))
      ensures scheduler.schedule == old(scheduler.schedule).Add(scheduler.now, CommLost(r), COMM_LOST_DELAY, 1)
    {
      h := scheduler.AddTask(CommLost(r), KEEP_ALIVE_PERIOD * (KEEP_ALIVE_PROBES + 1));
    }

    /** `peers[remote]` inserts a peer without tasks when the remote is unknown. */
    method ResetPeerTasks(r: IPSocket)
      modifies this`peers, scheduler`schedule
      ensures View() == ResetTasks(old(View()), scheduler.now, r)
    {
      if r !in peers {
        peers := peers[r := Peer(Null, Null)];
      }
      var peer := peers[r];
      if scheduler.schedule.Locks(peer.ping) {
        scheduler.ResetTask(peer.ping);
      } else {
        var h := SchedulePing(r);
        peers := peers[r := peer.(ping := h)];
      }
      scheduler.ResetTask(peer.lost);
    }

    /** `peers[remote]` inserts here, too. */
    method DisableTasks(r: IPSocket)
      modifies this`peers, scheduler`schedule
      ensures peers == old(peers)[r := PeerOrDefault(old(View()), r)]
      ensures scheduler.schedule ==
              old(scheduler.schedule).Disable(PeerOrDefault(old(View()), r).ping)
                                     .Disable(PeerOrDefault(old(View()), r).lost)
    {
      if r !in peers {
        peers := peers[r := Peer(Null, Null)];
      }
      scheduler.DisableTask(peers[r].ping);
      scheduler.DisableTask(peers[r].lost);
    }
  }
}
