/**
 Dead remotes. Live ones need no care beyond the discipline of `UdpNetwork`; if, moreover, users
 connect any remote only while it is neither in the table nor waiting for its reconnect, no reconnect
 ever meets a remote that is back in the table, and tasks and tables match for every remote, dead or
 alive. Both halves of the condition are needed (see `UdpExamples`).
 */
module UdpReconnects {
  import opened IPSockets
  import opened Scheduling
  import opened UdpEndpoint
  import opened UdpInvariants
  import opened UdpRuns
  import opened UdpNetwork

  ghost predicate Reconnecting(ep: Endpoint, r: IPSocket) {
    exists id :: Waits(ep, id) && ep.sched.tasks[id].action.remote == r
  }

  /** A remote is connected only while it is neither in the table nor waiting for a reconnect. */
  ghost predicate Careful(ep: Endpoint, c: Call) {
    c.Connect? ==> c.remote !in ep.peers && !Reconnecting(ep, c.remote)
  }

  ghost predicate CarefulRun(w: World, run: NetRun) {
    run.Next? ==>
      var n := NetState(w, run.prev);
      && CarefulRun(w, run.prev)
      && (run.event.At? && run.event.where in n.eps ==> Careful(n.eps[run.event.where], run.event.call))
  }

  /** Nobody connects a remote that waits for its reconnect: one half of being careful. */
  ghost predicate PatientRun(w: World, run: NetRun) {
    run.Next? ==>
      var n, e := NetState(w, run.prev), run.event;
      && PatientRun(w, run.prev)
      && (e.At? && e.where in n.eps && e.call.Connect? ==> !Reconnecting(n.eps[e.where], e.call.remote))
  }

  /** Nobody connects a remote that is in the table: the other half. */
  ghost predicate GuardedRun(w: World, run: NetRun) {
    run.Next? ==>
      var n, e := NetState(w, run.prev), run.event;
      && GuardedRun(w, run.prev)
      && (e.At? && e.where in n.eps && e.call.Connect? ==> e.call.remote !in n.eps[e.where].peers)
  }

  /** No task is without its peer, and waiting reconnects are for absent remotes, one each. */
  ghost predicate Matched(ep: Endpoint) {
    && (forall r :: NoOrphans(ep, r))
    && (forall id :: Waits(ep, id) ==> ep.sched.tasks[id].action.remote !in ep.peers)
    && (forall i, j :: Waits(ep, i) && Waits(ep, j) && ep.sched.tasks[i].action == ep.sched.tasks[j].action ==> i == j)
  }

  lemma MatchedIsGuarded(ep: Endpoint, now: nat, c: Call, r: IPSocket)
    requires Matched(ep) && CanCall(ep, now, c) && Careful(ep, c)
    ensures Guarded(ep, now, c, r)
  {
    if c.Launch? && ep.sched.tasks[c.id].action == Reconnect(r) {
      assert Waits(ep, c.id);
    }
  }

  lemma ReconnectStaysAbsent(live: set<IPSocket>, ep: Endpoint, now: nat, c: Call, id: nat)
    requires EndpointOk(live, ep, now) && Matched(ep)
    requires CanCall(ep, now, c) && CallOk(live, ep, now, c) && Careful(ep, c)
    requires Waits(Apply(ep, now, c), id)
    ensures var after := Apply(ep, now, c);
            after.sched.tasks[id].action.remote !in after.peers
  {
    var after := Apply(ep, now, c);
    var k := after.sched.tasks[id].action.remote;
    NewReconnects(ep, now, c, id);
    CallStep(ep, now, c, k);
    hide Apply, Restarted, Pinged, Untouched, NoOrphans, TasksSound;
    if id in ep.sched.tasks && ep.sched.tasks[id] == after.sched.tasks[id] && c != Launch(id) {
      assert Waits(ep, id);
    }
  }

  lemma ReconnectsStayUnique(ep: Endpoint, now: nat, c: Call, i: nat, j: nat)
    requires Sound(ep, now) && Matched(ep) && CanCall(ep, now, c)
    requires var after := Apply(ep, now, c);
             Waits(after, i) && Waits(after, j) && after.sched.tasks[i].action == after.sched.tasks[j].action
    ensures i == j
  {
    NewReconnects(ep, now, c, i);
    NewReconnects(ep, now, c, j);
    hide Apply;
    if c.Launch? && ep.sched.tasks[c.id].action.CommLost? {
      assert NoOrphans(ep, ep.sched.tasks[c.id].action.remote) && Adopted(ep, c.id);
    }
  }

  lemma CallKeepsMatched(live: set<IPSocket>, ep: Endpoint, now: nat, c: Call)
    requires EndpointOk(live, ep, now) && Matched(ep)
    requires CanCall(ep, now, c) && CallOk(live, ep, now, c) && Careful(ep, c)
    ensures Matched(Apply(ep, now, c))
  {
    var after := Apply(ep, now, c);
    forall r
      ensures NoOrphans(after, r)
    {
      MatchedIsGuarded(ep, now, c, r);
      CallStep(ep, now, c, r);
    }
    hide Apply, Sound, NoOrphans, CallOk;
    forall id | Waits(after, id)
      ensures after.sched.tasks[id].action.remote !in after.peers
    {
      ReconnectStaysAbsent(live, ep, now, c, id);
    }
    forall i, j | Waits(after, i) && Waits(after, j) && after.sched.tasks[i].action == after.sched.tasks[j].action
      ensures i == j
    {
      ReconnectsStayUnique(ep, now, c, i, j);
    }
  }

  ghost predicate AllMatched(n: Net) {
    forall a :: a in n.eps ==> Matched(n.eps[a])
  }

  lemma HandledKeepsMatched(w: World, n: Net, a: IPSocket, c: Call)
    requires AllMatched(n) && a in n.eps && EndpointOk(n.eps.Keys, n.eps[a], n.now)
    requires CanCall(n.eps[a], n.now, c) && CallOk(n.eps.Keys, n.eps[a], n.now, c) && Careful(n.eps[a], c)
    ensures AllMatched(Handled(w, n, a, c))
  {
    CallKeepsMatched(n.eps.Keys, n.eps[a], n.now, c);
    hide Apply, Posted, Matched, EndpointOk, CallOk;
  }

  lemma StepKeepsMatched(w: World, n: Net, e: Event)
    requires Inv(w, n) && AllMatched(n) && Allowed(w, n, e)
    requires e.At? ==> Careful(n.eps[e.where], e.call)
    ensures AllMatched(After(w, n, e))
  {
    InvParts(w, n);
    hide Handled, Inv, Matched, EndpointOk;
    match e
    case Pass(_) =>
    case At(a, c) =>
      DueLossIsOfTheDead(w, n, a, c);
      HandledKeepsMatched(w, n, a, c);
    case Arrive(p) => HandledKeepsMatched(w, n.(flight := n.flight - multiset{p}), p.dst, Deliver(p.src, p.msg));
    case Vanish(_) =>
    case Drop(_) =>
  }

  lemma {:induction false} RunsStayMatched(w: World, run: NetRun)
    requires Fast(w) && ValidRun(w, run) && CarefulRun(w, run)
    ensures AllMatched(NetState(w, run))
  {
    if run.Next? {
      RunsStayMatched(w, run.prev);
      RunsKeepInv(w, run.prev);
      StepKeepsMatched(w, NetState(w, run.prev), run.event);
    }
  }

  /** With 1 s + 2 * delay < 4 s, no quit and careful users: no reconnect meets a remote that is back
      in the table, and every task for any remote is the one the table holds. */
  lemma ReconnectsAreAlwaysGuarded(w: World, run: NetRun, a: IPSocket, id: nat, r: IPSocket)
    requires Fast(w) && ValidRun(w, run) && CarefulRun(w, run)
    requires a in NetState(w, run).eps && Launchable(NetState(w, run), a, id)
    ensures NoOrphans(NetState(w, run).eps[a], r)
    ensures Guarded(NetState(w, run).eps[a], NetState(w, run).now, Launch(id), r)
  {
    RunsStayMatched(w, run);
    assert Matched(NetState(w, run).eps[a]);
    MatchedIsGuarded(NetState(w, run).eps[a], NetState(w, run).now, Launch(id), r);
  }
}
