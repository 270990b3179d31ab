/**
 Timed runs of one UDP endpoint against an arbitrary environment: any messages from anyone, any
 calls, any order of due tasks, time passing as long as no enabled task is due.
 */
module UdpRuns {
  import opened Constants
  import opened IPSockets
  import opened Scheduling
  import opened UdpEndpoint
  import opened UdpInvariants

  datatype Call = Launch(id: nat) | Deliver(from: IPSocket, msg: string) | Connect(remote: IPSocket)
                | Say(text: string) | Forget(id: nat)

  predicate CanCall(ep: Endpoint, now: nat, c: Call) {
    match c
    case Launch(id) => ep.sched.IsDue(now, id)
    case Forget(id) => ep.sched.IsDisabled(id)
    case _ => true
  }

  /** One call; the outbox afterwards holds what this call sent. */
  function Apply(before: Endpoint, now: nat, c: Call): Endpoint
    requires CanCall(before, now, c)
  {
    var ep := before.(outbox := multiset{});
    match c
    case Launch(id) => RunTask(ep, now, id)
    case Deliver(from, msg) => Receive(ep, now, from, msg)
    case Connect(r) => CommUp(ep, now, r)
    case Say(text) => Broadcast(ep, text)
    case Forget(id) => ep.(sched := ep.sched.Collect(id))
  }

  /** The call adds r to the table or is a message from it. */
  predicate Hears(ep: Endpoint, now: nat, c: Call, r: IPSocket)
    requires CanCall(ep, now, c)
  {
    match c
    case Deliver(from, msg) => from == r && msg != QUIT
    case Connect(x) => x == r && r !in ep.peers
    case Launch(id) => ep.sched.tasks[id].action == Reconnect(r) && r !in ep.peers
    case _ => false
  }

  /** The call does not connect r while the table holds it. */
  predicate Guarded(ep: Endpoint, now: nat, c: Call, r: IPSocket)
    requires CanCall(ep, now, c)
  {
    match c
    case Connect(x) => x == r ==> r !in ep.peers
    case Launch(id) => ep.sched.tasks[id].action == Reconnect(r) ==> r !in ep.peers
    case _ => true
  }

  /** The call is r's own quit message or the run of a comm-lost task for r. */
  predicate Drops(ep: Endpoint, now: nat, c: Call, r: IPSocket)
    requires CanCall(ep, now, c)
  {
    match c
    case Deliver(from, msg) => from == r && msg == QUIT
    case Launch(id) => ep.sched.tasks[id].action == CommLost(r)
    case _ => false
  }

  predicate RunsPingOf(ep: Endpoint, c: Call, r: IPSocket)
    requires r in ep.peers
  {
    c.Launch? && ep.peers[r].ping == Weak(c.id)
  }

  /** What one call means for r: heard, it starts over; dropped, it is gone; otherwise it is in the
      table just if it was, and as it was unless its own ping task ran. */
  predicate PeerStep(ep: Endpoint, now: nat, c: Call, after: Endpoint, r: IPSocket)
    requires CanCall(ep, now, c)
    requires r in ep.peers ==> Watched(ep, r)
  {
    if Hears(ep, now, c, r) then Restarted(after, now, r)
    else if Drops(ep, now, c, r) || r !in ep.peers then r !in after.peers
    else if RunsPingOf(ep, c, r) then
      PingLeft(ep, r) && ep.sched.tasks[c.id].action == Ping(r) && Pinged(ep, after, now, r)
    else Untouched(ep, after, r)
  }

  lemma QuietIsSound(ep: Endpoint, out: multiset<Datagram>, now: nat)
    requires Sound(ep, now)
    ensures Sound(ep.(outbox := out), now)
  {
    var q := ep.(outbox := out);
    assert forall r :: r in q.peers ==> Watched(ep, r) && Watched(q, r);
  }

  lemma QuietIsSame(ep: Endpoint, out: multiset<Datagram>, now: nat, r: IPSocket)
    requires Sound(ep, now)
    ensures Sound(ep.(outbox := out), now)
    ensures NoOrphans(ep.(outbox := out), r) <==> NoOrphans(ep, r)
  {
    QuietIsSound(ep, out, now);
    var q := ep.(outbox := out);
    assert forall id :: id in q.sched.tasks ==> (Adopted(ep, id) <==> Adopted(q, id));
  }

  lemma UntouchedByQuiet(ep: Endpoint, out: multiset<Datagram>, r: IPSocket)
    requires r in ep.peers && Watched(ep, r)
    ensures Untouched(ep, ep.(outbox := out), r)
  {
  }

  /** A message that is not the quit message, once it is answered. */
  lemma HearStep(ep: Endpoint, now: nat, from: IPSocket, r: IPSocket)
    requires Sound(ep, now)
    ensures var after := if from in ep.peers then ResetTasks(ep, now, from) else CommUp(ep, now, from);
            && Sound(after, now)
            && (if r == from then Restarted(after, now, r)
                else if r in ep.peers then Untouched(ep, after, r) else r !in after.peers)
            && (NoOrphans(ep, r) ==> NoOrphans(after, r))
  {
    hide ResetTasks, CommUp, Restarted, Untouched, NoOrphans, TasksSound;
    if from in ep.peers {
      ResetKeeps(ep, now, from);
      if NoOrphans(ep, r) { ResetOrphans(ep, now, from, r); }
    } else {
      CommUpKeeps(ep, now, from);
      if NoOrphans(ep, r) { CommUpOrphansIff(ep, now, from, r); }
    }
  }

  lemma DeliverStep(ep: Endpoint, now: nat, from: IPSocket, msg: string, r: IPSocket)
    requires Sound(ep, now)
    ensures var after := Receive(ep, now, from, msg);
            && Sound(after, now)
            && PeerStep(ep, now, Deliver(from, msg), after, r)
            && (NoOrphans(ep, r) ==> NoOrphans(after, r))
  {
    hide Remove, ResetTasks, CommUp, Restarted, Untouched, Watched, NoOrphans, TasksSound;
    var after := Receive(ep, now, from, msg);
    if msg == QUIT {
      RemoveKeeps(ep, now, from);
      if NoOrphans(ep, r) { RemoveOrphans(ep, now, from, r); }
    } else {
      var answered := if msg == KEEP_ALIVE then SendTo(ep, KEEP_ALIVE_ACK, from) else ep;
      QuietIsSame(ep, answered.outbox, now, r);
      HearStep(answered, now, from, r);
      if r != from && r in ep.peers {
        UntouchedByQuiet(ep, answered.outbox, r);
        UntouchedFollows(ep, answered, after, r);
      }
    }
  }

  lemma ReconnectStep(ep: Endpoint, now: nat, id: nat, r: IPSocket)
    requires Sound(ep, now) && ep.sched.IsDue(now, id) && ep.sched.tasks[id].action.Reconnect?
    ensures var after := RunTask(ep, now, id);
            && Sound(after, now)
            && PeerStep(ep, now, Launch(id), after, r)
            && (NoOrphans(ep, r) ==> (NoOrphans(after, r) <==> Guarded(ep, now, Launch(id), r)))
  {
    hide RunTask, CommUp, Restarted, Untouched, NoOrphans, TasksSound;
    var x, t, after := ep.sched.tasks[id].action.remote, Taken(ep, now, id), RunTask(ep, now, id);
    TakenKeeps(ep, now, id, r);
    CommUpKeeps(t, now, x);
    if NoOrphans(ep, r) { CommUpOrphansIff(t, now, x, r); }
    if r in ep.peers {
      UntouchedFollows(ep, t, after, r);
    }
  }

  lemma LaunchStep(ep: Endpoint, now: nat, id: nat, r: IPSocket)
    requires Sound(ep, now) && ep.sched.IsDue(now, id)
    ensures var after := RunTask(ep, now, id);
            && Sound(after, now)
            && PeerStep(ep, now, Launch(id), after, r)
            && (NoOrphans(ep, r) ==> (NoOrphans(after, r) <==> Guarded(ep, now, Launch(id), r)))
  {
    hide RunTask, Restarted, Untouched, Pinged, NoOrphans, TasksSound;
    var after := RunTask(ep, now, id);
    match ep.sched.tasks[id].action
    case Ping(_) =>
      PingFrame(ep, now, id, r);
      PingKeeps(ep, now, id);
      if r in ep.peers { PingPeer(ep, now, id, r); }
    case CommLost(x) =>
      LossFrame(ep, now, id);
      LossKeeps(ep, now, id);
      if NoOrphans(ep, r) { LossOrphans(ep, now, id, r); }
      if r in ep.peers && r != x {
        assert Watched(ep, r) && Untouched(ep, after, r);
        assert !RunsPingOf(ep, Launch(id), r);
      }
    case Reconnect(_) => ReconnectStep(ep, now, id, r);
  }

  /** Every call keeps the table sound and does to each remote what `PeerStep` says; one that
      connects a remote of the table, and only that, makes orphans of it. */
  lemma CallStep(ep: Endpoint, now: nat, c: Call, r: IPSocket)
    requires Sound(ep, now) && CanCall(ep, now, c)
    ensures var after := Apply(ep, now, c);
            && Sound(after, now)
            && PeerStep(ep, now, c, after, r)
            && (NoOrphans(ep, r) ==> (NoOrphans(after, r) <==> Guarded(ep, now, c, r)))
  {
    hide RunTask, Receive, CommUp, Restarted, Untouched, NoOrphans, TasksSound;
    var quiet := ep.(outbox := multiset{});
    var after := Apply(ep, now, c);
    QuietIsSame(ep, multiset{}, now, r);
    match c {
      case Launch(id) => LaunchStep(quiet, now, id, r);
      case Deliver(from, msg) => DeliverStep(quiet, now, from, msg, r);
      case Connect(x) =>
        CommUpKeeps(quiet, now, x);
        if NoOrphans(ep, r) { CommUpOrphansIff(quiet, now, x, r); }
      case Say(text) => QuietIsSame(ep, after.outbox, now, r);
      case Forget(id) => CollectKeeps(quiet, now, id, r);
    }
    PeerStepFromQuiet(ep, now, c, after, r);
  }

  lemma PeerStepFromQuiet(ep: Endpoint, now: nat, c: Call, after: Endpoint, r: IPSocket)
    requires Sound(ep, now) && CanCall(ep, now, c)
    requires var quiet := ep.(outbox := multiset{});
             (r in quiet.peers ==> Watched(quiet, r)) &&
             match c
             case Launch(_) => PeerStep(quiet, now, c, after, r)
             case Deliver(_, _) => PeerStep(quiet, now, c, after, r)
             case Connect(x) =>
               if r in ep.peers then Untouched(quiet, after, r)
               else if r == x then Restarted(after, now, r) else r !in after.peers
             case Say(_) => after == ep.(outbox := after.outbox)
             case Forget(_) => if r in ep.peers then Untouched(quiet, after, r) else r !in after.peers
    ensures PeerStep(ep, now, c, after, r)
  {
  }

  // ---------------------------------------------------------------- runs

  datatype Run = Begin(start: nat) | Wait(prev: Run, d: nat) | Then(prev: Run, call: Call)

  function Now(run: Run): nat {
    match run
    case Begin(start) => start
    case Wait(prev, d) => Now(prev) + d
    case Then(prev, _) => Now(prev)
  }

  function State(run: Run): Endpoint {
    match run
    case Begin(_) => FRESH
    case Wait(prev, _) => State(prev)
    case Then(prev, c) => if CanCall(State(prev), Now(prev), c) then Apply(State(prev), Now(prev), c) else State(prev)
  }

  ghost predicate Valid(run: Run) {
    match run
    case Begin(_) => true
    case Wait(prev, d) => Valid(prev) && State(prev).sched.Allows(Now(prev), d)
    case Then(prev, c) => Valid(prev) && CanCall(State(prev), Now(prev), c)
  }

  /** When r was last added to the table or heard. */
  function LastHeard(run: Run, r: IPSocket): nat {
    match run
    case Begin(start) => start
    case Wait(prev, _) => LastHeard(prev, r)
    case Then(prev, c) =>
      if EndsHearing(run, r) then Now(prev) else LastHeard(prev, r)
  }

  lemma CallKeepsSound(ep: Endpoint, now: nat, c: Call)
    requires Sound(ep, now) && CanCall(ep, now, c)
    ensures Sound(Apply(ep, now, c), now)
  {
    var anyone: IPSocket := *;
    CallStep(ep, now, c, anyone);
  }

  lemma SoundWaits(ep: Endpoint, now: nat, d: nat)
    requires Sound(ep, now) && ep.sched.Allows(now, d)
    ensures Sound(ep, now + d)
  {
  }

  lemma {:induction false} RunIsSound(run: Run)
    requires Valid(run)
    ensures Sound(State(run), Now(run))
  {
    match run
    case Begin(_) =>
    case Wait(prev, d) =>
      RunIsSound(prev);
      SoundWaits(State(prev), Now(prev), d);
    case Then(prev, c) =>
      RunIsSound(prev);
      CallKeepsSound(State(prev), Now(prev), c);
  }

  /** In every run, orphan tasks or not, each peer has its own enabled comm-lost task, due four
      periods after the peer was added or last heard; no silent peer outlives that moment. */
  lemma {:induction false} EveryPeerHasItsDeadline(run: Run, r: IPSocket)
    requires Valid(run) && r in State(run).peers
    ensures Watched(State(run), r)
    ensures Deadline(State(run), r) == LastHeard(run, r) + COMM_LOST_DELAY
    ensures Now(run) <= LastHeard(run, r) + COMM_LOST_DELAY
  {
    RunIsSound(run);
    match run
    case Begin(_) =>
    case Wait(prev, d) =>
      EveryPeerHasItsDeadline(prev, r);
    case Then(prev, c) =>
      RunIsSound(prev);
      CallStep(State(prev), Now(prev), c, r);
      if !Hears(State(prev), Now(prev), c, r) {
        EveryPeerHasItsDeadline(prev, r);
      }
  }

  // ---------------------------------------------------------------- orphan tasks

  /** No call of the run connected r while it was in the table. */
  predicate NeverConnectsKnown(run: Run, r: IPSocket) {
    match run
    case Begin(_) => true
    case Wait(prev, _) => NeverConnectsKnown(prev, r)
    case Then(prev, c) =>
      NeverConnectsKnown(prev, r) && (CanCall(State(prev), Now(prev), c) ==> Guarded(State(prev), Now(prev), c, r))
  }

  /** At no point of the run was there an enabled ping or comm-lost task for r unknown to the table. */
  ghost predicate NeverHasOrphans(run: Run, r: IPSocket) {
    && NoOrphans(State(run), r)
    && match run
       case Begin(_) => true
       case Wait(prev, _) => NeverHasOrphans(prev, r)
       case Then(prev, _) => NeverHasOrphans(prev, r)
  }

  /** The tasks of a remote match the table throughout a run exactly when it is never connected
      while known, whatever happens to other remotes. */
  lemma {:induction false} OrphanFreeIff(run: Run, r: IPSocket)
    requires Valid(run)
    ensures NeverHasOrphans(run, r) <==> NeverConnectsKnown(run, r)
  {
    match run
    case Begin(_) =>
    case Wait(prev, _) =>
      OrphanFreeIff(prev, r);
      if NeverHasOrphans(prev, r) { assert NoOrphans(State(prev), r); }
    case Then(prev, c) =>
      OrphanFreeIff(prev, r);
      RunIsSound(prev);
      CallStep(State(prev), Now(prev), c, r);
      if NeverHasOrphans(prev, r) { assert NoOrphans(State(prev), r); }
  }

  function LiveLosts(ep: Endpoint, r: IPSocket): set<nat> {
    set id | id in ep.sched.tasks && ep.sched.tasks[id].enabled && ep.sched.tasks[id].action == CommLost(r)
  }

  function LivePings(ep: Endpoint, r: IPSocket): set<nat> {
    set id | id in ep.sched.tasks && ep.sched.tasks[id].enabled && ep.sched.tasks[id].action == Ping(r)
  }

  /** A remote of the table has exactly one live comm-lost task and at most one live ping task,
      those the table holds; a remote that is not in the table has neither. */
  lemma TasksMatchTable(run: Run, r: IPSocket)
    requires Valid(run) && NeverConnectsKnown(run, r)
    ensures var ep := State(run);
            if r in ep.peers then
              && ep.peers[r].lost.Weak? && LiveLosts(ep, r) == {ep.peers[r].lost.id}
              && ep.peers[r].ping.Weak? && LivePings(ep, r) <= {ep.peers[r].ping.id}
            else LiveLosts(ep, r) == {} && LivePings(ep, r) == {}
  {
    OrphanFreeIff(run, r);
    RunIsSound(run);
    var ep := State(run);
    assert r in ep.peers ==> Watched(ep, r);
    forall id | id in ep.sched.tasks && ep.sched.tasks[id].enabled && ep.sched.tasks[id].action.remote == r
      ensures Adopted(ep, id)
    {
    }
  }

  // ---------------------------------------------------------------- keep-alives

  /** The times of the keep-alives that tasks have sent to r since it was added or last heard. */
  function KeepAlives(run: Run, r: IPSocket): seq<nat> {
    match run
    case Begin(_) => []
    case Wait(prev, _) => KeepAlives(prev, r)
    case Then(prev, c) =>
      if EndsHearing(run, r) then []
      else if EndsWithKeepAlive(run, r) then KeepAlives(prev, r) + [Now(prev)]
      else KeepAlives(prev, r)
  }

  predicate EndsHearing(run: Run, r: IPSocket)
    requires run.Then?
  {
    CanCall(State(run.prev), Now(run.prev), run.call) && Hears(State(run.prev), Now(run.prev), run.call, r)
  }

  predicate EndsWithKeepAlive(run: Run, r: IPSocket)
    requires run.Then?
  {
    && CanCall(State(run.prev), Now(run.prev), run.call)
    && run.call.Launch? && Datagram(KEEP_ALIVE, r) in State(run).outbox
  }

  /** One, two, ... k periods after h. */
  function Beats(h: nat, k: nat): seq<nat> {
    seq(k, i => h + KEEP_ALIVE_PERIOD * (i + 1))
  }

  /** k of the three keep-alives are out, and the task stands ready for the next, if any. */
  predicate Phase(ep: Endpoint, r: IPSocket, h: nat, k: nat)
    requires r in ep.peers
  {
    && k <= KEEP_ALIVE_PROBES
    && (PingLeft(ep, r) <==> k < KEEP_ALIVE_PROBES)
    && (PingLeft(ep, r) ==>
          PingTask(ep, r).left == KEEP_ALIVE_PROBES - k && PingTask(ep, r).due == h + KEEP_ALIVE_PERIOD * (k + 1))
  }

  /** Only the table's own ping task for r sends r a keep-alive. */
  lemma KeepAliveComesFromPing(ep: Endpoint, now: nat, id: nat, r: IPSocket)
    requires Sound(ep, now) && NoOrphans(ep, r) && ep.sched.IsDue(now, id) && r in ep.peers
    ensures Datagram(KEEP_ALIVE, r) in Apply(ep, now, Launch(id)).outbox <==> RunsPingOf(ep, Launch(id), r)
  {
    assert Watched(ep, r);
    if ep.sched.tasks[id].action.remote == r {
      assert Adopted(ep, id);
    }
  }

  /** One call moves a peer that was not heard at most one keep-alive on, at the due time. */
  lemma PhaseStep(run: Run, r: IPSocket, h: nat, k: nat)
    requires run.Then? && Valid(run) && NeverConnectsKnown(run, r) && r in State(run).peers && !EndsHearing(run, r)
    ensures r in State(run.prev).peers
    ensures Phase(State(run.prev), r, h, k) ==>
              if EndsWithKeepAlive(run, r)
              then Now(run.prev) == h + KEEP_ALIVE_PERIOD * (k + 1) && Phase(State(run), r, h, k + 1)
              else Phase(State(run), r, h, k)
  {
    var ep, now, c := State(run.prev), Now(run.prev), run.call;
    RunIsSound(run.prev);
    OrphanFreeIff(run.prev, r);
    CallStep(ep, now, c, r);
    if c.Launch? {
      KeepAliveComesFromPing(ep, now, c.id, r);
    }
  }

  lemma PhaseAfterHearing(run: Run, r: IPSocket)
    requires run.Then? && Valid(run) && r in State(run).peers && EndsHearing(run, r)
    ensures Phase(State(run), r, Now(run), 0)
  {
    RunIsSound(run.prev);
    CallStep(State(run.prev), Now(run.prev), run.call, r);
  }

  lemma {:induction false} KeepAlivesSoFar(run: Run, r: IPSocket)
    requires Valid(run) && NeverConnectsKnown(run, r) && r in State(run).peers
    ensures var h, k := LastHeard(run, r), |KeepAlives(run, r)|;
            KeepAlives(run, r) == Beats(h, k) && Phase(State(run), r, h, k)
  {
    hide EndsHearing, EndsWithKeepAlive, Apply, Phase;
    match run
    case Begin(_) =>
    case Wait(prev, _) =>
      KeepAlivesSoFar(prev, r);
    case Then(prev, c) =>
      if EndsHearing(run, r) {
        PhaseAfterHearing(run, r);
      } else {
        var h, k := LastHeard(prev, r), |KeepAlives(prev, r)|;
        PhaseStep(run, r, h, k);
        KeepAlivesSoFar(prev, r);
        assert Beats(h, k) + [h + KEEP_ALIVE_PERIOD * (k + 1)] == Beats(h, k + 1);
      }
  }

  /** While r stays silent a keep-alive goes to it one, two and three periods after it was last
      heard, each on time, and nothing after the third. */
  lemma KeepAlivesAreOnTime(run: Run, r: IPSocket)
    requires Valid(run) && NeverConnectsKnown(run, r) && r in State(run).peers
    ensures var h, k := LastHeard(run, r), |KeepAlives(run, r)|;
            && k <= 3
            && KeepAlives(run, r) == Beats(h, k)
            && (k > 0 ==> h + 1000 * k <= Now(run))
            && (k < 3 ==> Now(run) <= h + 1000 * (k + 1))
  {
    KeepAlivesSoFar(run, r);
    RunIsSound(run);
    KeepAlivesAreInThePast(run, r);
    assert Watched(State(run), r);
  }

  lemma {:induction false} KeepAlivesAreInThePast(run: Run, r: IPSocket)
    ensures KeepAlives(run, r) != [] ==> KeepAlives(run, r)[|KeepAlives(run, r)| - 1] <= Now(run)
  {
    hide EndsHearing, EndsWithKeepAlive;
    match run
    case Begin(_) =>
    case Wait(prev, _) => KeepAlivesAreInThePast(prev, r);
    case Then(prev, _) => KeepAlivesAreInThePast(prev, r);
  }

  /** A comm-lost event strikes a peer of the table, exactly four periods after it was last heard
      and after exactly three keep-alives, one, two and three periods after it was last heard. */
  lemma ThreeKeepAlivesBeforeLoss(run: Run, id: nat, r: IPSocket)
    requires Valid(run) && NeverConnectsKnown(run, r)
    requires CanCall(State(run), Now(run), Launch(id)) && State(run).sched.tasks[id].action == CommLost(r)
    ensures r in State(run).peers
    ensures var h := LastHeard(run, r);
            Now(run) == h + 4000 && KeepAlives(run, r) == [h + 1000, h + 2000, h + 3000]
  {
    hide EndsHearing, EndsWithKeepAlive, Apply;
    OrphanFreeIff(run, r);
    RunIsSound(run);
    assert Adopted(State(run), id);
    EveryPeerHasItsDeadline(run, r);
    KeepAlivesAreOnTime(run, r);
    var h := LastHeard(run, r);
    assert Beats(h, 3) == [h + 1000, h + 2000, h + 3000];
  }

  // ---------------------------------------------------------------- remotes named by text

  /** All messages of the run came from decoded addresses. */
  ghost predicate HearsOnlyDecoded(run: Run, inet: Inet) {
    match run
    case Begin(_) => true
    case Wait(prev, _) => HearsOnlyDecoded(prev, inet)
    case Then(prev, c) => HearsOnlyDecoded(prev, inet) && (c.Deliver? ==> Decoded(inet, c.from))
  }

  /** When r was last inserted into the table by a connect or a reconnect. */
  function LastConnected(run: Run, r: IPSocket): nat {
    match run
    case Begin(start) => start
    case Wait(prev, _) => LastConnected(prev, r)
    case Then(prev, c) =>
      if CanCall(State(prev), Now(prev), c) && !c.Deliver? && Hears(State(prev), Now(prev), c, r)
      then Now(prev) else LastConnected(prev, r)
  }

  /** A peer connected under a key that is not a decoded address is never heard, whoever answers: it
      is given up four periods after it was connected. */
  lemma UndecodedPeerIsNeverHeard(run: Run, inet: Inet, r: IPSocket)
    requires Valid(run) && HearsOnlyDecoded(run, inet)
    requires !Decoded(inet, r) && r in State(run).peers
    ensures Watched(State(run), r)
    ensures Deadline(State(run), r) == LastConnected(run, r) + COMM_LOST_DELAY
  {
    EveryPeerHasItsDeadline(run, r);
    UndecodedPeerHistory(run, inet, r);
  }

  lemma {:induction false} UndecodedPeerHistory(run: Run, inet: Inet, r: IPSocket)
    requires HearsOnlyDecoded(run, inet) && !Decoded(inet, r)
    ensures LastHeard(run, r) == LastConnected(run, r)
  {
    match run
    case Begin(_) =>
    case Wait(prev, _) => UndecodedPeerHistory(prev, inet, r);
    case Then(prev, c) => UndecodedPeerHistory(prev, inet, r);
  }

  /** Whoever is reached under the key r answers from Route(r). The answer is recognised as coming
      from r exactly when r is a decoded address; otherwise it makes a second peer of Route(r), and
      r's own tasks go on as if nothing had been heard. */
  lemma AnswerIsRecognisedIff(inet: Inet, ep: Endpoint, now: nat, r: IPSocket, msg: string)
    requires Lawful(inet) && Encodable(inet, r) && Sound(ep, now) && msg != QUIT
    ensures var answer := Deliver(Route(inet, r), msg);
            var after := Apply(ep, now, answer);
            && (Hears(ep, now, answer, r) <==> Decoded(inet, r))
            && Route(inet, r) in after.peers
            && (!Decoded(inet, r) && r in ep.peers ==> Route(inet, r) != r && Untouched(ep, after, r))
  {
    RouteIsCanonical(inet, r);
    var answer := Deliver(Route(inet, r), msg);
    CallStep(ep, now, answer, r);
    CallStep(ep, now, answer, Route(inet, r));
    hide Apply, Untouched, Lawful, Decoded, Route;
  }
}
