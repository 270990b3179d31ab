/**
 Tasks that no handle in the table points to. Nothing but its own run ends such a task, so a lost
 remote is always connected again after five seconds; and the orphan comm-lost task that a connect
 of a known remote leaves behind drops that remote four periods later, however recently it was
 heard. Losing a peer and hearing it again within five seconds is enough to get there.
 */
module UdpOrphans {
  import opened Scheduling
  import opened IPSockets
  import opened UdpEndpoint
  import opened UdpInvariants
  import opened UdpRuns

  /** An enabled one-shot task that no handle in the table points to. */
  ghost predicate Loose(ep: Endpoint, id: nat, t: Task<Action>) {
    && id in ep.sched.tasks && ep.sched.tasks[id] == t
    && t.enabled && t.left == 1
    && forall k :: k in ep.peers ==> ep.peers[k].lost != Weak(id) && ep.peers[k].ping != Weak(id)
  }

  lemma UnguardedLeavesOrphan(ep: Endpoint, now: nat, c: Call, r: IPSocket)
    requires Sound(ep, now) && CanCall(ep, now, c) && !Guarded(ep, now, c, r)
    ensures Loose(Apply(ep, now, c), ep.sched.nextId + 1, LostTaskFor(r, now + COMM_LOST_DELAY))
    ensures r in Apply(ep, now, c).peers
  {
    var after := Apply(ep, now, c);
    forall k | k in after.peers
      ensures after.peers[k] == ep.peers[k] && Watched(ep, k)
    {
    }
    forall k | k in after.peers
      ensures after.peers[k].lost != Weak(ep.sched.nextId + 1) && after.peers[k].ping != Weak(ep.sched.nextId + 1)
    {
      assert Watched(ep, k) && ep.peers[k].lost.id < ep.sched.nextId;
    }
  }

  lemma LossLeavesReconnect(ep: Endpoint, now: nat, id: nat, r: IPSocket)
    requires Sound(ep, now) && CanCall(ep, now, Launch(id)) && ep.sched.tasks[id].action == CommLost(r)
    ensures var after := Apply(ep, now, Launch(id));
            r !in after.peers && Loose(after, ep.sched.nextId, ReconnectTaskFor(r, now + REESTABLISH_DELAY))
  {
    var after := Apply(ep, now, Launch(id));
    assert r in ep.peers ==> Watched(ep, r);
    forall k | k in after.peers
      ensures after.peers[k].lost != Weak(ep.sched.nextId) && after.peers[k].ping != Weak(ep.sched.nextId)
    {
      assert Watched(ep, k);
    }
  }

  lemma ResetKeepsLoose(ep: Endpoint, now: nat, from: IPSocket, id: nat, t: Task<Action>)
    requires Sound(ep, now) && Loose(ep, id, t) && from in ep.peers
    ensures Loose(ResetTasks(ep, now, from), id, t)
  {
    assert Watched(ep, from);
  }

  lemma DeliverKeepsLoose(ep: Endpoint, now: nat, from: IPSocket, msg: string, id: nat, t: Task<Action>)
    requires Sound(ep, now) && Loose(ep, id, t)
    ensures Loose(Receive(ep, now, from, msg), id, t)
  {
    var answered := SendTo(ep, KEEP_ALIVE_ACK, from);
    QuietIsSound(ep, answered.outbox, now);
    if from in ep.peers {
      ResetKeepsLoose(ep, now, from, id, t);
      ResetKeepsLoose(answered, now, from, id, t);
    }
    hide ResetTasks, Sound;
  }

  lemma LaunchKeepsLoose(ep: Endpoint, now: nat, launched: nat, id: nat, t: Task<Action>)
    requires Sound(ep, now) && Loose(ep, id, t) && ep.sched.IsDue(now, launched) && launched != id
    ensures Loose(RunTask(ep, now, launched), id, t)
  {
    assert Shaped(ep.sched.tasks[launched]);
  }

  /** Whatever else is called, a loose task stays as it is until it runs itself. */
  lemma CallKeepsLoose(ep: Endpoint, now: nat, c: Call, id: nat, t: Task<Action>)
    requires Sound(ep, now) && CanCall(ep, now, c) && c != Launch(id)
    requires Loose(ep, id, t)
    ensures Loose(Apply(ep, now, c), id, t)
  {
    var quiet := ep.(outbox := multiset{});
    QuietIsSound(ep, multiset{}, now);
    assert Loose(quiet, id, t);
    if c.Deliver? {
      DeliverKeepsLoose(quiet, now, c.from, c.msg, id, t);
    } else if c.Launch? {
      LaunchKeepsLoose(quiet, now, c.id, id, t);
    }
  }

  /** `run` is `first` and what came after it. */
  predicate Extends(run: Run, first: Run) {
    run == first || (!run.Begin? && Extends(run.prev, first))
  }

  /** Somewhere in the run a task for the action ran at time t. */
  predicate RunsAt(run: Run, action: Action, t: nat) {
    match run
    case Begin(_) => false
    case Wait(prev, _) => RunsAt(prev, action, t)
    case Then(prev, c) =>
      RunsAt(prev, action, t) ||
      (&& CanCall(State(prev), Now(prev), c) && c.Launch?
       && State(prev).sched.tasks[c.id].action == action && Now(prev) == t)
  }

  lemma {:induction false} LooseLasts(run: Run, first: Run, id: nat, t: Task<Action>)
    requires Valid(run) && Extends(run, first) && Loose(State(first), id, t)
    ensures RunsAt(run, t.action, t.due) || Loose(State(run), id, t)
    decreases run
  {
    if run != first {
      LooseLasts(run.prev, first, id, t);
      if run.Then? && !RunsAt(run.prev, t.action, t.due) {
        RunIsSound(run.prev);
        if run.call != Launch(id) {
          CallKeepsLoose(State(run.prev), Now(run.prev), run.call, id, t);
        } else {
          assert Now(run.prev) <= State(run.prev).sched.tasks[id].due;
        }
      }
    }
  }

  /** A loose task runs exactly when it is due in every continuation that gets past that time. */
  lemma LooseTaskRuns(run: Run, first: Run, id: nat, t: Task<Action>)
    requires Valid(run) && Extends(run, first) && Loose(State(first), id, t) && Now(run) > t.due
    ensures RunsAt(run, t.action, t.due)
  {
    LooseLasts(run, first, id, t);
    RunIsSound(run);
    hide State, Extends, RunsAt;
    if Loose(State(run), id, t) {
      LooseIsNotOverdue(State(run), Now(run), id, t);
    }
  }

  lemma LooseIsNotOverdue(ep: Endpoint, now: nat, id: nat, t: Task<Action>)
    requires Sound(ep, now) && Loose(ep, id, t)
    ensures now <= t.due
  {
  }

  /** Connecting a known remote at time t dooms it: in every continuation that gets past t + 4 s, a
      comm-lost task for it has run at exactly t + 4 s, whatever was heard in between. */
  lemma KnownConnectDoomsPeer(run: Run, first: Run, c: Call, r: IPSocket)
    requires Valid(Then(first, c)) && !Guarded(State(first), Now(first), c, r)
    requires Valid(run) && Extends(run, Then(first, c)) && Now(run) > Now(first) + COMM_LOST_DELAY
    ensures RunsAt(run, CommLost(r), Now(first) + COMM_LOST_DELAY)
  {
    hide Apply, Sound, Loose, RunsAt, Extends, Guarded;
    RunIsSound(first);
    UnguardedLeavesOrphan(State(first), Now(first), c, r);
    LooseTaskRuns(run, Then(first, c), State(first).sched.nextId + 1, LostTaskFor(r, Now(first) + COMM_LOST_DELAY));
  }

  /** A lost remote is out of the table at once and is connected again exactly five seconds later,
      in every continuation that gets past that time. */
  lemma LossIsFollowedByReconnect(run: Run, first: Run, id: nat, r: IPSocket)
    requires Valid(Then(first, Launch(id))) && State(first).sched.tasks[id].action == CommLost(r)
    requires Valid(run) && Extends(run, Then(first, Launch(id))) && Now(run) > Now(first) + REESTABLISH_DELAY
    ensures r !in State(Then(first, Launch(id))).peers
    ensures RunsAt(run, Reconnect(r), Now(first) + REESTABLISH_DELAY)
  {
    hide Apply, Sound, Loose, RunsAt, Extends;
    RunIsSound(first);
    LossLeavesReconnect(State(first), Now(first), id, r);
    LooseTaskRuns(run, Then(first, Launch(id)), State(first).sched.nextId,
                  ReconnectTaskFor(r, Now(first) + REESTABLISH_DELAY));
  }

  // ---------------------------------------------------------------- remotes that are never recognised

  /** Somewhere in the run a task for the action ran between the two times. */
  predicate RunsWithin(run: Run, action: Action, from: nat, to: nat) {
    exists t :: from <= t <= to && RunsAt(run, action, t)
  }

  /** r stands in the table since time t, unheard. */
  predicate Unheard(ep: Endpoint, r: IPSocket, t: nat) {
    r in ep.peers && Watched(ep, r) && Deadline(ep, r) == t + COMM_LOST_DELAY
  }

  lemma UnheardStep(ep: Endpoint, now: nat, c: Call, r: IPSocket, t: nat)
    requires Sound(ep, now) && CanCall(ep, now, c) && Unheard(ep, r, t) && !(c.Deliver? && c.from == r)
    ensures var after := Apply(ep, now, c);
            if c.Launch? && ep.sched.tasks[c.id].action == CommLost(r)
            then now <= t + COMM_LOST_DELAY && (NoOrphans(ep, r) ==> now == t + COMM_LOST_DELAY)
            else Unheard(after, r, t)
  {
    CallStep(ep, now, c, r);
    hide Apply;
    if c.Launch? && ep.sched.tasks[c.id].action == CommLost(r) && NoOrphans(ep, r) {
      assert Adopted(ep, c.id);
    }
  }

  lemma {:induction false} UnheardIsLost(run: Run, first: Run, inet: Inet, r: IPSocket)
    requires Valid(run) && Extends(run, first) && HearsOnlyDecoded(run, inet) && !Decoded(inet, r)
    requires Unheard(State(first), r, Now(first))
    ensures RunsWithin(run, CommLost(r), Now(first), Now(first) + COMM_LOST_DELAY)
            || Unheard(State(run), r, Now(first))
    ensures NeverConnectsKnown(run, r) ==>
              RunsAt(run, CommLost(r), Now(first) + COMM_LOST_DELAY) || Unheard(State(run), r, Now(first))
    decreases run
  {
    hide Apply, Unheard, Decoded, Sound, RunsWithin;
    if run != first {
      UnheardIsLost(run.prev, first, inet, r);
      TimeGoesOn(run.prev, first);
      RunsOn(run, CommLost(r), Now(first), Now(first) + COMM_LOST_DELAY);
      if run.Then? && Unheard(State(run.prev), r, Now(first)) {
        RunIsSound(run.prev);
        UnheardStep(State(run.prev), Now(run.prev), run.call, r, Now(first));
        if NeverConnectsKnown(run, r) {
          OrphanFreeIff(run.prev, r);
        }
      }
    }
  }

  /** What ran before the last step ran, and so did what the last step runs. */
  lemma RunsOn(run: Run, action: Action, from: nat, to: nat)
    requires !run.Begin?
    ensures RunsWithin(run.prev, action, from, to) ==> RunsWithin(run, action, from, to)
    ensures forall t :: RunsAt(run.prev, action, t) ==> RunsAt(run, action, t)
    ensures run.Then? && CanCall(State(run.prev), Now(run.prev), run.call) && run.call.Launch?
            && State(run.prev).sched.tasks[run.call.id].action == action && from <= Now(run.prev) <= to ==>
              RunsWithin(run, action, from, to) && RunsAt(run, action, Now(run.prev))
  {
    assert forall t :: RunsAt(run.prev, action, t) ==> RunsAt(run, action, t);
    if run.Then? && CanCall(State(run.prev), Now(run.prev), run.call) && run.call.Launch?
       && State(run.prev).sched.tasks[run.call.id].action == action {
      assert RunsAt(run, action, Now(run.prev));
    }
  }

  lemma {:induction false} TimeGoesOn(run: Run, first: Run)
    requires Extends(run, first)
    ensures Now(first) <= Now(run)
  {
    if run != first {
      TimeGoesOn(run.prev, first);
    }
  }

  /** A remote that comes into the table under a key that is not a decoded address is lost within four
      periods in every run that gets past that time, whoever answers; and after exactly four periods
      if it is never connected while known. */
  lemma UndecodedPeerIsLost(run: Run, first: Run, c: Call, inet: Inet, r: IPSocket)
    requires Valid(run) && Extends(run, Then(first, c)) && HearsOnlyDecoded(run, inet) && !Decoded(inet, r)
    requires CanCall(State(first), Now(first), c) && Hears(State(first), Now(first), c, r)
    requires Now(run) > Now(first) + COMM_LOST_DELAY
    ensures RunsWithin(run, CommLost(r), Now(first), Now(first) + COMM_LOST_DELAY)
    ensures NeverConnectsKnown(run, r) ==> RunsAt(run, CommLost(r), Now(first) + COMM_LOST_DELAY)
  {
    hide Apply, Decoded, RunsAt, RunsWithin, Extends, HearsOnlyDecoded, Hears, NeverConnectsKnown, Unheard, Sound;
    ExtendsValid(run, Then(first, c));
    RunIsSound(first);
    HeardIsUnheardSince(State(first), Now(first), c, r);
    UnheardIsLost(run, Then(first, c), inet, r);
    RunIsSound(run);
    UnheardIsNotOverdue(State(run), Now(run), r, Now(first));
  }

  lemma HeardIsUnheardSince(ep: Endpoint, now: nat, c: Call, r: IPSocket)
    requires Sound(ep, now) && CanCall(ep, now, c) && Hears(ep, now, c, r)
    ensures Unheard(Apply(ep, now, c), r, now)
  {
    CallStep(ep, now, c, r);
    hide Apply;
  }

  lemma UnheardIsNotOverdue(ep: Endpoint, now: nat, r: IPSocket, t: nat)
    requires Sound(ep, now)
    ensures Unheard(ep, r, t) ==> now <= t + COMM_LOST_DELAY
  {
  }

  lemma {:induction false} ExtendsValid(run: Run, first: Run)
    requires Valid(run) && Extends(run, first)
    ensures Valid(first)
  {
    if run != first {
      ExtendsValid(run.prev, first);
    }
  }

  // ---------------------------------------------------------------- how a run gets there by itself

  /** No user connects anything. */
  predicate NeverConnects(run: Run) {
    match run
    case Begin(_) => true
    case Wait(prev, _) => NeverConnects(prev)
    case Then(prev, c) => NeverConnects(prev) && !c.Connect?
  }

  function PingTaskFor(r: IPSocket, due: nat, left: nat): Task<Action> {
    Task(Ping(r), KEEP_ALIVE_PERIOD, KEEP_ALIVE_PROBES, due, left, true)
  }

  function LostTaskFor(r: IPSocket, due: nat): Task<Action> {
    Task(CommLost(r), COMM_LOST_DELAY, 1, due, 1, true)
  }

  function ReconnectTaskFor(r: IPSocket, due: nat): Task<Action> {
    Task(Reconnect(r), REESTABLISH_DELAY, 1, due, 1, true)
  }

  /** The run is possible without connects and has come to this table and schedule. */
  ghost predicate Shows(run: Run, now: nat, peers: map<IPSocket, Peer>, tasks: map<nat, Task<Action>>, nextId: nat) {
    && Valid(run) && NeverConnects(run) && Now(run) == now
    && State(run).peers == peers && State(run).sched == Schedule(tasks, nextId)
  }

  /** One period passes and ping task id runs. */
  lemma Beat(run: Run, now: nat, peers: map<IPSocket, Peer>, tasks: map<nat, Task<Action>>, nextId: nat,
             id: nat, r: IPSocket, left: nat)
    returns (next: Run)
    requires Shows(run, now, peers, tasks, nextId)
    requires id in tasks && tasks[id] == PingTaskFor(r, now + 1000, left) && 1 <= left <= 3
    requires forall i :: i in tasks && tasks[i].enabled ==> now + 1000 <= tasks[i].due
    ensures Shows(next, now + 1000, peers,
                  if left == 1 then tasks - {id} else tasks[id := PingTaskFor(r, now + 2000, left - 1)], nextId)
  {
    hide State, Valid, NeverConnects, Now, Apply, CanCall;
    var waited := Wait(run, 1000);
    WaitShows(run, now, peers, tasks, nextId);
    next := Then(waited, Launch(id));
    BeatState(State(waited), now + 1000, id, r, left);
    ShowsThen(waited, now + 1000, Launch(id));
  }

  lemma WaitShows(run: Run, now: nat, peers: map<IPSocket, Peer>, tasks: map<nat, Task<Action>>, nextId: nat)
    requires Shows(run, now, peers, tasks, nextId)
    requires forall i :: i in tasks && tasks[i].enabled ==> now + 1000 <= tasks[i].due
    ensures Shows(Wait(run, 1000), now + 1000, peers, tasks, nextId)
  {
  }

  lemma BeatState(ep: Endpoint, now: nat, id: nat, r: IPSocket, left: nat)
    requires id in ep.sched.tasks && ep.sched.tasks[id] == PingTaskFor(r, now, left) && 1 <= left <= 3
    ensures CanCall(ep, now, Launch(id))
    ensures var after := Apply(ep, now, Launch(id));
            && after.peers == ep.peers && after.sched.nextId == ep.sched.nextId
            && after.sched.tasks == if left == 1 then ep.sched.tasks - {id}
                                    else ep.sched.tasks[id := PingTaskFor(r, now + 1000, left - 1)]
  {
  }

  lemma ShowsThen(run: Run, now: nat, c: Call)
    requires Valid(run) && NeverConnects(run) && Now(run) == now && CanCall(State(run), now, c) && !c.Connect?
    ensures var next := Then(run, c);
            Valid(next) && NeverConnects(next) && Now(next) == now && State(next) == Apply(State(run), now, c)
  {
  }

  lemma ThreeBeats(run: Run, now: nat, peers: map<IPSocket, Peer>, tasks: map<nat, Task<Action>>, nextId: nat,
                   id: nat, r: IPSocket)
    returns (next: Run)
    requires Shows(run, now, peers, tasks, nextId)
    requires id in tasks && tasks[id] == PingTaskFor(r, now + 1000, 3)
    requires forall i :: i in tasks && i != id && tasks[i].enabled ==> now + 3000 <= tasks[i].due
    ensures Shows(next, now + 3000, peers, tasks - {id}, nextId)
  {
    var a := Beat(run, now, peers, tasks, nextId, id, r, 3);
    var b := Beat(a, now + 1000, peers, tasks[id := PingTaskFor(r, now + 2000, 2)], nextId, id, r, 2);
    assert tasks[id := PingTaskFor(r, now + 2000, 2)][id := PingTaskFor(r, now + 3000, 1)] ==
           tasks[id := PingTaskFor(r, now + 3000, 1)];
    next := Beat(b, now + 2000, peers, tasks[id := PingTaskFor(r, now + 3000, 1)], nextId, id, r, 1);
    assert tasks[id := PingTaskFor(r, now + 3000, 1)] - {id} == tasks - {id};
  }

  /** The reconnect that the loss at 4 s schedules. */
  function Back(r: IPSocket): Task<Action> {
    ReconnectTaskFor(r, 9000)
  }

  /** Heard once, then silent for four seconds, then heard again at once. */
  lemma LostAndHeardAgain(r: IPSocket) returns (run: Run)
    ensures Shows(run, 4000, map[r := Peer(Weak(3), Weak(4))],
                  map[2 := Back(r), 3 := PingTaskFor(r, 5000, 3), 4 := LostTaskFor(r, 8000)], 5)
  {
    hide Shows;
    var p0 := map[r := Peer(Weak(0), Weak(1))];
    run := HearFirst(r, p0);
    var t0 := map[0 := PingTaskFor(r, 1000, 3), 1 := LostTaskFor(r, 4000)];
    run := ThreeBeats(run, 0, p0, t0, 2, 0, r);
    var t1 := map[1 := LostTaskFor(r, 4000)];
    assert t0 - {0} == t1;
    run := LoseSilent(run, r, p0, t1);
    run := HearAgain(run, r, map[r := Peer(Weak(3), Weak(4))]);
  }

  /** Silence for four seconds, one message at once after the loss and one three seconds later:
      the reconnect scheduled at the loss then meets a remote that is back in the table. */
  lemma ReconnectCanMeetKnownPeer(r: IPSocket) returns (run: Run)
    ensures Valid(run) && NeverConnects(run)
    ensures CanCall(State(run), Now(run), Launch(2)) && State(run).sched.tasks[2].action == Reconnect(r)
    ensures !Guarded(State(run), Now(run), Launch(2), r)
  {
    hide Shows, Valid, State, Now, CanCall, Guarded, NeverConnects;
    var p1, p2 := map[r := Peer(Weak(3), Weak(4))], map[r := Peer(Weak(5), Weak(4))];
    run := LostAndHeardAgain(r);
    var t2 := map[2 := Back(r), 3 := PingTaskFor(r, 5000, 3), 4 := LostTaskFor(r, 8000)];
    run := ThreeBeats(run, 4000, p1, t2, 5, 3, r);
    assert t2 - {3} == map[2 := Back(r), 4 := LostTaskFor(r, 8000)];
    run := HearThird(run, r, p1, p2);
    var t3 := map[2 := Back(r), 4 := LostTaskFor(r, 11000), 5 := PingTaskFor(r, 8000, 3)];
    run := Beat(run, 7000, p2, t3, 6, 5, r, 3);
    var t4 := t3[5 := PingTaskFor(r, 9000, 2)];
    run := Beat(run, 8000, p2, t4, 6, 5, r, 2);
    ShowsReconnectDue(run, r, p2, t4[5 := PingTaskFor(r, 10000, 1)]);
  }

  lemma ShowsReconnectDue(run: Run, r: IPSocket, peers: map<IPSocket, Peer>, tasks: map<nat, Task<Action>>)
    requires Shows(run, 9000, peers, tasks, 6) && r in peers && 2 in tasks && tasks[2] == Back(r)
    ensures Valid(run) && NeverConnects(run)
    ensures CanCall(State(run), Now(run), Launch(2)) && State(run).sched.tasks[2].action == Reconnect(r)
    ensures !Guarded(State(run), Now(run), Launch(2), r)
  {
  }

  lemma HearFirst(r: IPSocket, peers: map<IPSocket, Peer>) returns (next: Run)
    requires peers == map[r := Peer(Weak(0), Weak(1))]
    ensures Shows(next, 0, peers, map[0 := PingTaskFor(r, 1000, 3), 1 := LostTaskFor(r, 4000)], 2)
  {
    next := Then(Begin(0), Deliver(r, ""));
    assert State(Begin(0)) == FRESH;
    assert State(next).peers == peers;
    assert State(next).sched.tasks == map[0 := PingTaskFor(r, 1000, 3), 1 := LostTaskFor(r, 4000)];
  }

  lemma LoseSilent(run: Run, r: IPSocket, peers: map<IPSocket, Peer>, tasks: map<nat, Task<Action>>) returns (next: Run)
    requires peers == map[r := Peer(Weak(0), Weak(1))] && tasks == map[1 := LostTaskFor(r, 4000)]
    requires Shows(run, 3000, peers, tasks, 2)
    ensures Shows(next, 4000, map[], map[2 := Back(r)], 3)
  {
    next := Then(Wait(run, 1000), Launch(1));
    assert State(next).peers == map[];
    assert State(next).sched.tasks == map[2 := Back(r)];
  }

  lemma HearAgain(run: Run, r: IPSocket, peers: map<IPSocket, Peer>) returns (next: Run)
    requires Shows(run, 4000, map[], map[2 := Back(r)], 3) && peers == map[r := Peer(Weak(3), Weak(4))]
    ensures Shows(next, 4000, peers, map[2 := Back(r), 3 := PingTaskFor(r, 5000, 3), 4 := LostTaskFor(r, 8000)], 5)
  {
    next := Then(run, Deliver(r, ""));
    assert State(next).sched.tasks == map[2 := Back(r), 3 := PingTaskFor(r, 5000, 3), 4 := LostTaskFor(r, 8000)];
  }

  lemma HearThird(run: Run, r: IPSocket, before: map<IPSocket, Peer>, peers: map<IPSocket, Peer>) returns (next: Run)
    requires before == map[r := Peer(Weak(3), Weak(4))] && peers == map[r := Peer(Weak(5), Weak(4))]
    requires Shows(run, 7000, before, map[2 := Back(r), 4 := LostTaskFor(r, 8000)], 5)
    ensures Shows(next, 7000, peers, map[2 := Back(r), 4 := LostTaskFor(r, 11000), 5 := PingTaskFor(r, 8000, 3)], 6)
  {
    next := Then(run, Deliver(r, ""));
    var ep := State(run).(outbox := multiset{});
    assert State(next) == ResetTasks(ep, 7000, r);
    hide Receive, State, Valid;
    assert ResetTasks(ep, 7000, r).peers == peers;
    assert ResetTasks(ep, 7000, r).sched.tasks ==
           map[2 := Back(r), 4 := LostTaskFor(r, 11000), 5 := PingTaskFor(r, 8000, 3)];
  }
}
