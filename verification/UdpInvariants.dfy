/**
 What every operation of the UDP socket keeps. `Sound` holds whatever is called; `NoOrphans` of a
 remote is kept by everything except connecting that remote while it is in the table.
 */
module UdpInvariants {
  import opened Scheduling
  import opened IPSockets
  import opened UdpEndpoint

  predicate Shaped(t: Task<Action>) {
    match t.action
    case Ping(_) => t.delay == KEEP_ALIVE_PERIOD && t.runs == KEEP_ALIVE_PROBES && 1 <= t.left <= KEEP_ALIVE_PROBES
    case CommLost(_) => t.delay == COMM_LOST_DELAY && t.runs == t.left == 1
    case Reconnect(_) => t.delay == REESTABLISH_DELAY && t.runs == t.left == 1
  }

  /** The table knows a live comm-lost task for r, and its ping task if that has runs left. */
  predicate Watched(ep: Endpoint, r: IPSocket)
    requires r in ep.peers
  {
    var p, tasks := ep.peers[r], ep.sched.tasks;
    && p.lost.Weak? && p.lost.id in tasks
    && tasks[p.lost.id].enabled && tasks[p.lost.id].action == CommLost(r)
    && p.ping.Weak? && p.ping.id < ep.sched.nextId
    && (p.ping.id in tasks ==> tasks[p.ping.id].enabled && tasks[p.ping.id].action == Ping(r))
  }

  /** Task numbers are below the next one, and no enabled task is overdue. */
  ghost predicate TasksSound(ep: Endpoint, now: nat) {
    forall id :: id in ep.sched.tasks ==>
      && id < ep.sched.nextId
      && Shaped(ep.sched.tasks[id])
      && (ep.sched.tasks[id].enabled ==> now <= ep.sched.tasks[id].due)
  }

  ghost predicate AllWatched(ep: Endpoint) {
    forall r :: r in ep.peers ==> Watched(ep, r)
  }

  ghost predicate Sound(ep: Endpoint, now: nat) {
    TasksSound(ep, now) && AllWatched(ep)
  }

  /** Task id is the one the table holds for the peer it works for. */
  predicate Adopted(ep: Endpoint, id: nat)
    requires id in ep.sched.tasks
  {
    match ep.sched.tasks[id].action
    case Ping(r) => r in ep.peers && ep.peers[r].ping == Weak(id)
    case CommLost(r) => r in ep.peers && ep.peers[r].lost == Weak(id)
    case Reconnect(_) => true
  }

  /** No enabled ping or comm-lost task for r is unknown to the table. */
  ghost predicate NoOrphans(ep: Endpoint, r: IPSocket) {
    forall id :: id in ep.sched.tasks && ep.sched.tasks[id].enabled && ep.sched.tasks[id].action.remote == r ==>
      Adopted(ep, id)
  }

  // ---------------------------------------------------------------- what one peer sees

  function LostTask(ep: Endpoint, r: IPSocket): Task<Action>
    requires r in ep.peers && Watched(ep, r)
  {
    ep.sched.tasks[ep.peers[r].lost.id]
  }

  /** When r is given up unless it is heard before. */
  function Deadline(ep: Endpoint, r: IPSocket): nat
    requires r in ep.peers && Watched(ep, r)
  {
    LostTask(ep, r).due
  }

  predicate PingLeft(ep: Endpoint, r: IPSocket)
    requires r in ep.peers
  {
    ep.sched.Locks(ep.peers[r].ping)
  }

  function PingTask(ep: Endpoint, r: IPSocket): Task<Action>
    requires r in ep.peers && PingLeft(ep, r)
  {
    ep.sched.tasks[ep.peers[r].ping.id]
  }

  /** Both tasks of r start over at time now. */
  predicate Restarted(ep: Endpoint, now: nat, r: IPSocket) {
    && r in ep.peers && Watched(ep, r) && PingLeft(ep, r)
    && Deadline(ep, r) == now + COMM_LOST_DELAY
    && PingTask(ep, r).due == now + KEEP_ALIVE_PERIOD
    && PingTask(ep, r).left == KEEP_ALIVE_PROBES
  }

  /** r and its tasks are as they were. */
  predicate Untouched(ep: Endpoint, after: Endpoint, r: IPSocket)
    requires r in ep.peers && Watched(ep, r)
  {
    && r in after.peers && after.peers[r] == ep.peers[r]
    && Watched(after, r) && LostTask(after, r) == LostTask(ep, r)
    && PingLeft(after, r) == PingLeft(ep, r)
    && (PingLeft(ep, r) ==> PingTask(after, r) == PingTask(ep, r))
  }

  ghost predicate OthersUntouched(ep: Endpoint, after: Endpoint, except: set<IPSocket>)
    requires AllWatched(ep)
  {
    forall r :: r in ep.peers && r !in except ==> Untouched(ep, after, r)
  }

  // ---------------------------------------------------------------- each operation

  lemma CommUpFrame(ep: Endpoint, now: nat, r: IPSocket)
    requires Sound(ep, now)
    ensures var after := CommUp(ep, now, r);
            && TasksSound(after, now)
            && after.peers.Keys == ep.peers.Keys + {r}
            && OthersUntouched(ep, after, {r})
  {
  }

  lemma CommUpTarget(ep: Endpoint, now: nat, r: IPSocket)
    requires Sound(ep, now)
    ensures var after := CommUp(ep, now, r);
            if r in ep.peers then Untouched(ep, after, r) else Restarted(after, now, r)
  {
  }

  lemma CommUpKeeps(ep: Endpoint, now: nat, r: IPSocket)
    requires Sound(ep, now)
    ensures var after := CommUp(ep, now, r);
            && Sound(after, now)
            && after.peers.Keys == ep.peers.Keys + {r}
            && OthersUntouched(ep, after, {r})
            && (if r in ep.peers then Untouched(ep, after, r) else Restarted(after, now, r))
  {
    CommUpFrame(ep, now, r);
    CommUpTarget(ep, now, r);
    WatchedFromParts(ep, CommUp(ep, now, r), {r});
  }

  /** Peers the operation left alone are still watched. */
  lemma WatchedFromParts(ep: Endpoint, after: Endpoint, except: set<IPSocket>)
    requires AllWatched(ep) && OthersUntouched(ep, after, except)
    requires after.peers.Keys <= ep.peers.Keys + except
    requires forall r :: r in except && r in after.peers ==> Watched(after, r)
    ensures AllWatched(after)
  {
    forall r | r in after.peers
      ensures Watched(after, r)
    {
      if r !in except {
        assert Untouched(ep, after, r);
      }
    }
  }

  /** Connecting leaves a task of r without its peer exactly when it is r and r was in the table. */
  lemma CommUpOrphansIff(ep: Endpoint, now: nat, x: IPSocket, r: IPSocket)
    requires Sound(ep, now) && NoOrphans(ep, r)
    ensures NoOrphans(CommUp(ep, now, x), r) <==> (x == r ==> r !in ep.peers)
  {
    var after := CommUp(ep, now, x);
    var id := ep.sched.nextId + 1;
    assert after.sched.tasks[id].action == CommLost(x) && after.sched.tasks[id].enabled;
    if x == r && r in ep.peers {
      assert !Adopted(after, id);
    }
  }

  // ---------------------------------------------------------------- connecting a list

  lemma UntouchedFollows(ep: Endpoint, middle: Endpoint, after: Endpoint, r: IPSocket)
    requires r in ep.peers && Watched(ep, r) && Untouched(ep, middle, r) && Untouched(middle, after, r)
    ensures Untouched(ep, after, r)
  {
  }

  lemma RestartedStays(ep: Endpoint, after: Endpoint, now: nat, r: IPSocket)
    requires Restarted(ep, now, r) && Untouched(ep, after, r)
    ensures Restarted(after, now, r)
  {
  }

  lemma UntouchedIsReflexive(ep: Endpoint, r: IPSocket)
    requires r in ep.peers && Watched(ep, r)
    ensures Untouched(ep, ep, r)
  {
  }

  /** Connecting a list of remotes adds each that is new, with both tasks started now, leaves those
      that were known as they were, and adds no other. Two tasks are scheduled for each element of the
      list, and nothing is sent. */
  lemma {:induction false} ConnectAllKeeps(ep: Endpoint, now: nat, remotes: seq<IPSocket>, r: IPSocket)
    requires Sound(ep, now)
    ensures var t := ConnectAll(ep, now, remotes);
            && Sound(t, now)
            && (if r in ep.peers then Untouched(ep, t, r)
                else if r in remotes then Restarted(t, now, r) else r !in t.peers)
            && t.sched.nextId == ep.sched.nextId + 2 * |remotes| && t.outbox == ep.outbox
    decreases remotes
  {
    hide CommUp, TasksSound, Untouched, Restarted, Watched;
    if remotes == [] {
      if r in ep.peers { UntouchedIsReflexive(ep, r); }
    } else {
      var one := CommUp(ep, now, remotes[0]);
      CommUpKeeps(ep, now, remotes[0]);
      CommUpSchedules(ep, now, remotes[0]);
      ConnectAllKeeps(one, now, remotes[1..], r);
      var t := ConnectAll(one, now, remotes[1..]);
      assert r in remotes <==> r == remotes[0] || r in remotes[1..];
      if r in ep.peers {
        UntouchedFollows(ep, one, t, r);
      } else if r == remotes[0] {
        RestartedIsThere(one, now, r);
        RestartedStays(one, t, now, r);
      }
    }
  }

  lemma {:induction false} EntriesStay(ep: Endpoint, now: nat, remotes: seq<IPSocket>, r: IPSocket)
    requires r in ep.peers
    ensures r in ConnectAll(ep, now, remotes).peers && ConnectAll(ep, now, remotes).peers[r] == ep.peers[r]
    decreases remotes
  {
    if remotes != [] {
      EntriesStay(CommUp(ep, now, remotes[0]), now, remotes[1..], r);
    }
  }

  /** The remotes are connected in order: a new one gets the two tasks of its first place in the list. */
  lemma {:induction false} ConnectAllInOrder(ep: Endpoint, now: nat, remotes: seq<IPSocket>, i: nat)
    requires i < |remotes| && remotes[i] !in ep.peers && remotes[i] !in remotes[..i]
    ensures var t := ConnectAll(ep, now, remotes);
            var id := ep.sched.nextId + 2 * i;
            remotes[i] in t.peers && t.peers[remotes[i]] == Peer(Weak(id), Weak(id + 1))
    decreases remotes
  {
    var one := CommUp(ep, now, remotes[0]);
    if i == 0 {
      EntriesStay(one, now, remotes[1..], remotes[0]);
    } else {
      assert remotes[0] in remotes[..i];
      assert forall r :: r in remotes[1..][..i - 1] ==> r in remotes[..i];
      ConnectAllInOrder(one, now, remotes[1..], i - 1);
    }
  }

  lemma RestartedIsThere(ep: Endpoint, now: nat, r: IPSocket)
    requires Restarted(ep, now, r)
    ensures r in ep.peers
  {
  }

  lemma CommUpSchedules(ep: Endpoint, now: nat, r: IPSocket)
    ensures CommUp(ep, now, r).sched.nextId == ep.sched.nextId + 2 && CommUp(ep, now, r).outbox == ep.outbox
  {
  }

  lemma CommUpKeepsOrphans(ep: Endpoint, now: nat, x: IPSocket, r: IPSocket)
    requires Sound(ep, now) && !NoOrphans(ep, r)
    ensures !NoOrphans(CommUp(ep, now, x), r)
  {
    var tasks := ep.sched.tasks;
    var id :| id in tasks && tasks[id].enabled && tasks[id].action.remote == r && !Adopted(ep, id);
    assert !Adopted(CommUp(ep, now, x), id);
  }

  lemma {:induction false} ConnectAllKeepsOrphans(ep: Endpoint, now: nat, remotes: seq<IPSocket>, r: IPSocket)
    requires Sound(ep, now) && !NoOrphans(ep, r)
    ensures !NoOrphans(ConnectAll(ep, now, remotes), r)
    decreases remotes
  {
    hide CommUp, Sound, NoOrphans;
    if remotes != [] {
      CommUpKeeps(ep, now, remotes[0]);
      CommUpKeepsOrphans(ep, now, remotes[0], r);
      ConnectAllKeepsOrphans(CommUp(ep, now, remotes[0]), now, remotes[1..], r);
    }
  }

  /** The tasks of r match the table after connecting a list exactly when r is not in the list, or
      stands in it once and was not known. */
  lemma {:induction false} ConnectAllOrphansIff(ep: Endpoint, now: nat, remotes: seq<IPSocket>, r: IPSocket)
    requires Sound(ep, now) && NoOrphans(ep, r)
    ensures NoOrphans(ConnectAll(ep, now, remotes), r) <==>
            r !in remotes || (r !in ep.peers && multiset(remotes)[r] == 1)
    decreases remotes
  {
    hide CommUp, Sound, NoOrphans;
    if remotes != [] {
      var x, one := remotes[0], CommUp(ep, now, remotes[0]);
      assert remotes == [x] + remotes[1..];
      assert multiset(remotes)[r] == (if x == r then 1 else 0) + multiset(remotes[1..])[r];
      assert r in remotes <==> x == r || r in remotes[1..];
      assert r in remotes[1..] <==> multiset(remotes[1..])[r] > 0;
      CommUpKeeps(ep, now, x);
      CommUpOrphansIff(ep, now, x, r);
      if NoOrphans(one, r) {
        ConnectAllOrphansIff(one, now, remotes[1..], r);
      } else {
        ConnectAllKeepsOrphans(one, now, remotes[1..], r);
      }
    }
  }

  // ---------------------------------------------------------------- removing and resetting

  lemma RemoveFrame(ep: Endpoint, now: nat, r: IPSocket)
    requires Sound(ep, now)
    ensures var after := Remove(ep, r);
            && TasksSound(after, now)
            && after.peers.Keys == ep.peers.Keys - {r}
            && OthersUntouched(ep, after, {r})
  {
  }

  lemma RemoveKeeps(ep: Endpoint, now: nat, r: IPSocket)
    requires Sound(ep, now)
    ensures var after := Remove(ep, r);
            && Sound(after, now)
            && after.peers.Keys == ep.peers.Keys - {r}
            && OthersUntouched(ep, after, {r})
  {
    RemoveFrame(ep, now, r);
    WatchedFromParts(ep, Remove(ep, r), {r});
  }

  lemma RemoveOrphans(ep: Endpoint, now: nat, x: IPSocket, r: IPSocket)
    requires Sound(ep, now) && NoOrphans(ep, r)
    ensures NoOrphans(Remove(ep, x), r)
  {
  }

  lemma ResetFrame(ep: Endpoint, now: nat, r: IPSocket)
    requires Sound(ep, now) && r in ep.peers
    ensures var after := ResetTasks(ep, now, r);
            && TasksSound(after, now)
            && after.peers.Keys == ep.peers.Keys
  {
  }

  lemma ResetOthers(ep: Endpoint, now: nat, r: IPSocket, k: IPSocket)
    requires Sound(ep, now) && r in ep.peers && k in ep.peers && k != r
    ensures Untouched(ep, ResetTasks(ep, now, r), k)
  {
    assert Watched(ep, k) && Watched(ep, r);
  }

  lemma ResetTarget(ep: Endpoint, now: nat, r: IPSocket)
    requires Sound(ep, now) && r in ep.peers
    ensures Restarted(ResetTasks(ep, now, r), now, r)
  {
    assert Watched(ep, r);
    var p := ep.peers[r];
    if p.ping.id in ep.sched.tasks {
      assert Shaped(ep.sched.tasks[p.ping.id]);
    }
    assert Shaped(ep.sched.tasks[p.lost.id]);
  }

  lemma ResetKeeps(ep: Endpoint, now: nat, r: IPSocket)
    requires Sound(ep, now) && r in ep.peers
    ensures var after := ResetTasks(ep, now, r);
            && Sound(after, now)
            && after.peers.Keys == ep.peers.Keys
            && OthersUntouched(ep, after, {r})
            && Restarted(after, now, r)
  {
    var after := ResetTasks(ep, now, r);
    ResetFrame(ep, now, r);
    ResetTarget(ep, now, r);
    forall k | k in ep.peers && k != r
      ensures Untouched(ep, after, k)
    {
      ResetOthers(ep, now, r, k);
    }
    WatchedFromParts(ep, after, {r});
  }

  /** A remote that the table does not know gets an entry with a ping task alone: nothing will ever
      report its loss, so its entry is not sound. */
  lemma ResetOfUnknown(ep: Endpoint, now: nat, r: IPSocket)
    requires Sound(ep, now) && r !in ep.peers
    ensures var after := ResetTasks(ep, now, r);
            && after.peers.Keys == ep.peers.Keys + {r} && OthersUntouched(ep, after, {r})
            && after.peers[r].lost == Null && !Sound(after, now)
            && PingLeft(after, r) && PingTask(after, r).action == Ping(r) && PingTask(after, r).enabled
            && PingTask(after, r).due == now + KEEP_ALIVE_PERIOD && PingTask(after, r).left == KEEP_ALIVE_PROBES
            && after.sched.nextId == ep.sched.nextId + 1 && after.outbox == ep.outbox
  {
    assert !Watched(ResetTasks(ep, now, r), r);
  }

  lemma ResetOrphans(ep: Endpoint, now: nat, x: IPSocket, r: IPSocket)
    requires Sound(ep, now) && NoOrphans(ep, r) && x in ep.peers
    ensures NoOrphans(ResetTasks(ep, now, x), r)
  {
    assert Watched(ep, x);
  }

  lemma CollectKeeps(ep: Endpoint, now: nat, id: nat, r: IPSocket)
    requires Sound(ep, now) && ep.sched.IsDisabled(id)
    ensures var after := ep.(sched := ep.sched.Collect(id));
            && Sound(after, now)
            && OthersUntouched(ep, after, {})
            && (NoOrphans(ep, r) ==> NoOrphans(after, r))
  {
  }

  // ---------------------------------------------------------------- each task that runs

  /** The ping task of r has just run: one repetition less, the comm-lost task as it was. */
  predicate Pinged(ep: Endpoint, after: Endpoint, now: nat, r: IPSocket)
    requires r in ep.peers && Watched(ep, r) && PingLeft(ep, r)
  {
    && r in after.peers && after.peers[r] == ep.peers[r]
    && Watched(after, r) && LostTask(after, r) == LostTask(ep, r)
    && (PingLeft(after, r) <==> PingTask(ep, r).left > 1)
    && (PingLeft(after, r) ==>
          PingTask(after, r) == PingTask(ep, r).(left := PingTask(ep, r).left - 1, due := now + KEEP_ALIVE_PERIOD))
  }

  lemma PingFrame(ep: Endpoint, now: nat, id: nat, r: IPSocket)
    requires Sound(ep, now) && ep.sched.IsDue(now, id) && ep.sched.tasks[id].action.Ping?
    ensures var after := RunTask(ep, now, id);
            && TasksSound(after, now)
            && after.peers == ep.peers
            && (NoOrphans(ep, r) ==> NoOrphans(after, r))
            && after.outbox == ep.outbox + multiset{Datagram(KEEP_ALIVE, ep.sched.tasks[id].action.remote)}
  {
  }

  lemma PingPeer(ep: Endpoint, now: nat, id: nat, k: IPSocket)
    requires Sound(ep, now) && ep.sched.IsDue(now, id) && ep.sched.tasks[id].action.Ping? && k in ep.peers
    ensures var after := RunTask(ep, now, id);
            if ep.peers[k].ping == Weak(id)
            then ep.sched.tasks[id].action == Ping(k) && PingLeft(ep, k) && Pinged(ep, after, now, k)
            else Untouched(ep, after, k)
  {
    assert Watched(ep, k);
  }

  lemma PingKeeps(ep: Endpoint, now: nat, id: nat)
    requires Sound(ep, now) && ep.sched.IsDue(now, id) && ep.sched.tasks[id].action.Ping?
    ensures Sound(RunTask(ep, now, id), now)
  {
    var after := RunTask(ep, now, id);
    PingFrame(ep, now, id, ep.sched.tasks[id].action.remote);
    forall k | k in after.peers
      ensures Watched(after, k)
    {
      PingPeer(ep, now, id, k);
    }
  }

  lemma LossFrame(ep: Endpoint, now: nat, id: nat)
    requires Sound(ep, now) && ep.sched.IsDue(now, id) && ep.sched.tasks[id].action.CommLost?
    ensures var after := RunTask(ep, now, id);
            && TasksSound(after, now)
            && after.peers.Keys == ep.peers.Keys - {ep.sched.tasks[id].action.remote}
            && after.outbox == ep.outbox
  {
  }

  lemma LossOthers(ep: Endpoint, now: nat, id: nat, k: IPSocket)
    requires Sound(ep, now) && ep.sched.IsDue(now, id) && ep.sched.tasks[id].action.CommLost?
    requires k in ep.peers && k != ep.sched.tasks[id].action.remote
    ensures Untouched(ep, RunTask(ep, now, id), k)
  {
    var r := ep.sched.tasks[id].action.remote;
    assert Watched(ep, k) && (r in ep.peers ==> Watched(ep, r));
  }

  lemma LossOrphans(ep: Endpoint, now: nat, id: nat, r: IPSocket)
    requires Sound(ep, now) && NoOrphans(ep, r) && ep.sched.IsDue(now, id) && ep.sched.tasks[id].action.CommLost?
    ensures NoOrphans(RunTask(ep, now, id), r)
  {
    var x := ep.sched.tasks[id].action.remote;
    var after := RunTask(ep, now, id);
    forall k | k in after.sched.tasks && after.sched.tasks[k].enabled && after.sched.tasks[k].action.remote == r
      ensures Adopted(after, k)
    {
      LossAdoptsOne(ep, now, id, k);
    }
  }

  lemma LossAdoptsOne(ep: Endpoint, now: nat, id: nat, k: nat)
    requires Sound(ep, now) && ep.sched.IsDue(now, id) && ep.sched.tasks[id].action.CommLost?
    requires var tasks := RunTask(ep, now, id).sched.tasks; k in tasks && tasks[k].enabled
    requires k in ep.sched.tasks && ep.sched.tasks[k].enabled ==> Adopted(ep, k)
    ensures Adopted(RunTask(ep, now, id), k)
  {
    var x := ep.sched.tasks[id].action.remote;
    assert x in ep.peers ==> Watched(ep, x);
    assert Shaped(ep.sched.tasks[id]);
    hide Sound, Watched;
  }

  lemma LossKeeps(ep: Endpoint, now: nat, id: nat)
    requires Sound(ep, now) && ep.sched.IsDue(now, id) && ep.sched.tasks[id].action.CommLost?
    ensures var after := RunTask(ep, now, id);
            Sound(after, now) && OthersUntouched(ep, after, {ep.sched.tasks[id].action.remote})
  {
    var after := RunTask(ep, now, id);
    LossFrame(ep, now, id);
    forall k | k in ep.peers && k != ep.sched.tasks[id].action.remote
      ensures Untouched(ep, after, k)
    {
      LossOthers(ep, now, id, k);
    }
    WatchedFromParts(ep, after, {ep.sched.tasks[id].action.remote});
  }

  /** The endpoint in which a due reconnect task has been taken but not yet run. */
  function Taken(ep: Endpoint, now: nat, id: nat): Endpoint
    requires id in ep.sched.tasks
  {
    ep.(sched := ep.sched.Consume(now, id))
  }

  lemma TakenKeeps(ep: Endpoint, now: nat, id: nat, r: IPSocket)
    requires Sound(ep, now) && ep.sched.IsDue(now, id) && ep.sched.tasks[id].action.Reconnect?
    ensures var t := Taken(ep, now, id);
            && Sound(t, now)
            && OthersUntouched(ep, t, {})
            && (NoOrphans(t, r) <==> NoOrphans(ep, r))
            && RunTask(ep, now, id) == CommUp(t, now, ep.sched.tasks[id].action.remote)
  {
    var t := Taken(ep, now, id);
    forall k | k in ep.peers
      ensures Watched(t, k) && Untouched(ep, t, k)
    {
      assert Watched(ep, k);
    }
    if NoOrphans(t, r) {
      forall i | i in ep.sched.tasks && ep.sched.tasks[i].enabled && ep.sched.tasks[i].action.remote == r
        ensures Adopted(ep, i)
      {
        assert i != id ==> Adopted(t, i);
      }
    }
  }
}
