/**
 Time never stops in the network: on whatever delay bound, a run can always be carried on to any
 later moment, by running what is due and delivering what has to arrive. Nothing that happens at one
 moment can go on for ever, even if answers take no time at all.
 */
module UdpProgress {
  import opened Constants
  import opened FiniteSets
  import opened IPSockets
  import opened Scheduling
  import opened UdpEndpoint
  import opened UdpInvariants
  import opened UdpRuns
  import opened UdpOrphans
  import opened UdpNetwork
  import opened UdpDraining

  /** Every endpoint is sound, and no packet is late. */
  ghost predicate OnTime(n: Net) {
    && (forall a :: a in n.eps ==> Sound(n.eps[a], n.now))
    && (forall p :: p in n.flight ==> n.now <= p.deadline)
  }

  lemma HandledOnTime(w: World, n: Net, a: IPSocket, c: Call)
    requires OnTime(n) && a in n.eps && CanCall(n.eps[a], n.now, c)
    ensures OnTime(Handled(w, n, a, c))
  {
    hide Apply, Mail, Sound, CanCall, Posted;
    CallKeepsSound(n.eps[a], n.now, c);
    var m := Handled(w, n, a, c);
    forall p | p in m.flight
      ensures m.now <= p.deadline
    {
      if p !in n.flight {
        PostedDeadline(w, n, a, c, p);
      }
    }
  }

  lemma PostedDeadline(w: World, n: Net, a: IPSocket, c: Call, p: Packet)
    requires a in n.eps && CanCall(n.eps[a], n.now, c) && p in Posted(w, n, a, c)
    ensures p.deadline == n.now + w.delay
  {
    hide Apply, Mail;
    var _ := MailComesFrom(w, a, Apply(n.eps[a], n.now, c).outbox, n.now + w.delay, p);
  }

  lemma StepOnTime(w: World, n: Net, e: Event)
    requires OnTime(n) && CanHappen(n, e)
    ensures OnTime(After(w, n, e))
  {
    hide Handled, Sound;
    match e
    case Pass(d) =>
      forall a | a in n.eps
        ensures Sound(n.eps[a], n.now + d)
      {
        SoundWaits(n.eps[a], n.now, d);
      }
    case At(a, c) => HandledOnTime(w, n, a, c);
    case Arrive(p) => HandledOnTime(w, n.(flight := n.flight - multiset{p}), p.dst, Deliver(p.src, p.msg));
    case Vanish(_) =>
    case Drop(_) =>
  }

  lemma {:induction false} RunsAreOnTime(w: World, run: NetRun)
    requires ValidRun(w, run)
    ensures OnTime(NetState(w, run))
  {
    if run.Next? {
      RunsAreOnTime(w, run.prev);
      StepOnTime(w, NetState(w, run.prev), run.event);
    }
  }

  // ---------------------------------------------------------------- what is left to do at this moment

  /** The tasks that have to run before time can pass. */
  ghost function DueTasks(n: Net): set<(IPSocket, nat)> {
    set a, id | a in n.eps && id in n.eps[a].sched.tasks && n.eps[a].sched.IsDue(n.now, id) :: (a, id)
  }

  /** What packets cost that have to arrive by now. */
  function DueCost(now: nat): Packet -> nat {
    (p: Packet) => if p.deadline <= now then Cost(p) else 0
  }

  /** A due task may cause one keep-alive, and that its answer. */
  ghost function Work(n: Net): nat {
    3 * |DueTasks(n)| + Weight(n.flight, DueCost(n.now))
  }

  lemma LaunchLeavesLessDue(ep: Endpoint, now: nat, launched: nat, id: nat)
    requires Sound(ep, now) && ep.sched.IsDue(now, launched)
    requires Apply(ep, now, Launch(launched)).sched.IsDue(now, id)
    ensures ep.sched.IsDue(now, id) && id != launched
  {
    assert Shaped(ep.sched.tasks[launched]);
  }

  lemma ResetMakesNothingDue(ep: Endpoint, now: nat, r: IPSocket, id: nat)
    requires TasksSound(ep, now) && ResetTasks(ep, now, r).sched.IsDue(now, id)
    ensures ep.sched.IsDue(now, id)
  {
    assert id in ep.sched.tasks ==> Shaped(ep.sched.tasks[id]);
  }

  lemma DeliveryMakesNothingDue(ep: Endpoint, now: nat, from: IPSocket, msg: string, id: nat)
    requires Sound(ep, now) && Apply(ep, now, Deliver(from, msg)).sched.IsDue(now, id)
    ensures ep.sched.IsDue(now, id)
  {
    if msg != QUIT && from in ep.peers {
      var quiet := ep.(outbox := multiset{});
      var answered := if msg == KEEP_ALIVE then SendTo(quiet, KEEP_ALIVE_ACK, from) else quiet;
      hide ResetTasks, AllWatched;
      ResetMakesNothingDue(answered, now, from, id);
    }
  }

  lemma LaunchPosts(w: World, n: Net, a: IPSocket, id: nat)
    requires a in n.eps && n.eps[a].sched.IsDue(n.now, id)
    ensures var action := n.eps[a].sched.tasks[id].action;
            Posted(w, n, a, Launch(id)) ==
            if action.Ping? then multiset{PacketFor(w, a, Datagram(KEEP_ALIVE, action.remote), n.now + w.delay)}
            else multiset{}
  {
    LaunchSends(n.eps[a], n.now, id);
    hide Apply, Mail, PacketFor;
    var action := n.eps[a].sched.tasks[id].action;
    if action.Ping? {
      MailOfOne(w, a, Datagram(KEEP_ALIVE, action.remote), n.now + w.delay);
    } else {
      NoMail(w, a, n.now + w.delay);
    }
  }

  lemma LaunchWeighs(w: World, n: Net, a: IPSocket, id: nat)
    requires a in n.eps && n.eps[a].sched.IsDue(n.now, id)
    ensures Weight(n.flight + Posted(w, n, a, Launch(id)), DueCost(n.now)) <= Weight(n.flight, DueCost(n.now)) + 2
  {
    hide Posted, PacketFor, Weight;
    LaunchPosts(w, n, a, id);
    var action := n.eps[a].sched.tasks[id].action;
    if action.Ping? {
      WeightAdds(n.flight, DueCost(n.now), PacketFor(w, a, Datagram(KEEP_ALIVE, action.remote), n.now + w.delay));
    } else {
      assert n.flight + multiset{} == n.flight;
    }
  }

  lemma LaunchIsWork(w: World, n: Net, a: IPSocket, id: nat)
    requires OnTime(n) && a in n.eps && n.eps[a].sched.IsDue(n.now, id)
    ensures Work(After(w, n, At(a, Launch(id)))) < Work(n)
  {
    var m := After(w, n, At(a, Launch(id)));
    LaunchWeighs(w, n, a, id);
    forall x, i | (x, i) in DueTasks(m)
      ensures (x, i) in DueTasks(n) && (x, i) != (a, id)
    {
      if x == a {
        LaunchLeavesLessDue(n.eps[a], n.now, id, i);
      }
    }
    FewerDue(m, n, {(a, id)});
  }

  lemma FewerDue(m: Net, n: Net, done: set<(IPSocket, nat)>)
    requires done <= DueTasks(n) && forall x, i :: (x, i) in DueTasks(m) ==> (x, i) in DueTasks(n) - done
    ensures |DueTasks(m)| <= |DueTasks(n)| - |done|
  {
    assert DueTasks(m) <= DueTasks(n) - done;
    SubsetIsSmaller(DueTasks(m), DueTasks(n) - done);
  }

  /** A packet that has to arrive now arrives, or is dropped because nobody lives there. */
  lemma ArrivalIsWork(w: World, n: Net, p: Packet)
    requires OnTime(n) && CanHappen(n, Arrive(p)) && p.deadline <= n.now
    ensures Work(After(w, n, Arrive(p))) < Work(n)
  {
    ArrivalPosts(w, n, p);
    ArrivalMakesNothingDue(w, n, p);
    assert After(w, n, Arrive(p)).now == n.now;
    hide After, DueTasks, OnTime;
    ArrivalWeighsLess(w, n, p, After(w, n, Arrive(p)));
  }

  lemma ArrivalWeighsLess(w: World, n: Net, p: Packet, m: Net)
    requires p in n.flight && p.deadline <= n.now == m.now
    requires m.flight == n.flight - multiset{p} +
                         if p.msg == KEEP_ALIVE
                         then multiset{Packet(p.dst, w.route(p.src), KEEP_ALIVE_ACK, n.now + w.delay)} else multiset{}
    ensures Weight(m.flight, DueCost(m.now)) < Weight(n.flight, DueCost(n.now))
  {
    hide Weight;
    WeightOf(n.flight, DueCost(n.now), p);
    var rest := n.flight - multiset{p};
    if p.msg == KEEP_ALIVE {
      WeightAdds(rest, DueCost(n.now), Packet(p.dst, w.route(p.src), KEEP_ALIVE_ACK, n.now + w.delay));
    } else {
      assert rest + multiset{} == rest;
    }
  }

  lemma ArrivalMakesNothingDue(w: World, n: Net, p: Packet)
    requires OnTime(n) && CanHappen(n, Arrive(p))
    ensures |DueTasks(After(w, n, Arrive(p)))| <= |DueTasks(n)|
  {
    hide Mail;
    var m := After(w, n, Arrive(p));
    forall x, i | (x, i) in DueTasks(m)
      ensures (x, i) in DueTasks(n)
    {
      if x == p.dst {
        DeliveryMakesNothingDue(n.eps[p.dst], n.now, p.src, p.msg, i);
      }
    }
    FewerDue(m, n, {});
  }

  lemma VanishIsWork(w: World, n: Net, p: Packet)
    requires CanHappen(n, Vanish(p)) && p.deadline <= n.now
    ensures Work(After(w, n, Vanish(p))) < Work(n)
  {
    WeightOf(n.flight, DueCost(n.now), p);
  }

  // ---------------------------------------------------------------- time passes

  /** If no time can pass, something that has to happen now can happen, and there is less to do after. */
  lemma SomethingToDo(w: World, n: Net) returns (e: Event)
    requires OnTime(n) && !CanHappen(n, Pass(1))
    ensures Allowed(w, n, e) && !e.Drop? && Work(After(w, n, e)) < Work(n) && After(w, n, e).now == n.now
  {
    hide Work, Sound;
    if p :| p in n.flight && !(n.now + 1 <= p.deadline) {
      if p.dst in n.eps {
        e := Arrive(p);
        ArrivalIsWork(w, n, p);
      } else {
        e := Vanish(p);
        VanishIsWork(w, n, p);
      }
    } else {
      var a :| a in n.eps && !n.eps[a].sched.Allows(n.now, 1);
      var tasks := n.eps[a].sched.tasks;
      var id :| id in tasks && tasks[id].enabled && !(n.now + 1 <= tasks[id].due);
      e := At(a, Launch(id));
      LaunchIsWork(w, n, a, id);
    }
  }

  lemma {:induction false} ContinuesOn(run: NetRun, middle: NetRun, first: NetRun)
    requires Continues(run, middle) && Continues(middle, first)
    ensures Continues(run, first)
  {
    if run != middle {
      ContinuesOn(run.prev, middle, first);
    }
  }

  /** Every run can be carried on until one more millisecond has passed. */
  lemma {:induction false} NextMoment(w: World, run: NetRun) returns (next: NetRun)
    requires ValidRun(w, run)
    ensures ValidRun(w, next) && Continues(next, run) && NetState(w, next).now == NetState(w, run).now + 1
    decreases Work(NetState(w, run))
  {
    var n := NetState(w, run);
    hide Work, After;
    if CanHappen(n, Pass(1)) {
      next := Next(run, Pass(1));
      PassTakes(w, n);
    } else {
      RunsAreOnTime(w, run);
      var e := SomethingToDo(w, n);
      next := NextMoment(w, Next(run, e));
      ContinuesOn(next, Next(run, e), run);
    }
  }

  lemma PassTakes(w: World, n: Net)
    requires CanHappen(n, Pass(1))
    ensures After(w, n, Pass(1)).now == n.now + 1
  {
  }

  /** Whatever the delay bound: every valid run can be carried on to any later moment. */
  lemma {:induction false} TimeCanAlwaysPass(w: World, run: NetRun, d: nat) returns (later: NetRun)
    requires ValidRun(w, run)
    ensures ValidRun(w, later) && Continues(later, run) && NetState(w, later).now == NetState(w, run).now + d
    decreases d
  {
    if d == 0 {
      later := run;
    } else {
      var next := NextMoment(w, run);
      later := TimeCanAlwaysPass(w, next, d - 1);
      ContinuesOn(later, next, run);
    }
  }

  // ---------------------------------------------------------------- one endpoint alone

  function DueIds(ep: Endpoint, now: nat): set<nat> {
    set id | id in ep.sched.tasks && ep.sched.IsDue(now, id)
  }

  lemma LaunchTakesOne(ep: Endpoint, now: nat, id: nat)
    requires Sound(ep, now) && ep.sched.IsDue(now, id)
    ensures |DueIds(Apply(ep, now, Launch(id)), now)| < |DueIds(ep, now)|
  {
    var after := Apply(ep, now, Launch(id));
    forall i | i in DueIds(after, now)
      ensures i in DueIds(ep, now) - {id}
    {
      LaunchLeavesLessDue(ep, now, id, i);
    }
    SubsetIsSmaller(DueIds(after, now), DueIds(ep, now) - {id});
  }

  lemma {:induction false} ExtendsOn(run: Run, middle: Run, first: Run)
    requires Extends(run, middle) && Extends(middle, first)
    ensures Extends(run, first)
  {
    if run != middle {
      ExtendsOn(run.prev, middle, first);
    }
  }

  lemma {:induction false} EndpointNextMoment(run: Run) returns (next: Run)
    requires Valid(run)
    ensures Valid(next) && Extends(next, run) && Now(next) == Now(run) + 1
    decreases |DueIds(State(run), Now(run))|
  {
    var ep, now := State(run), Now(run);
    hide Apply, DueIds;
    if ep.sched.Allows(now, 1) {
      next := Wait(run, 1);
    } else {
      var id :| id in ep.sched.tasks && ep.sched.tasks[id].enabled && !(now + 1 <= ep.sched.tasks[id].due);
      RunIsSound(run);
      LaunchTakesOne(ep, now, id);
      next := EndpointNextMoment(Then(run, Launch(id)));
      ExtendsOn(next, Then(run, Launch(id)), run);
    }
  }

  /** Every run of one endpoint has continuations past any moment, to which what `UdpOrphans` says of
      all continuations applies. */
  lemma {:induction false} EndpointTimeCanPass(run: Run, d: nat) returns (later: Run)
    requires Valid(run)
    ensures Valid(later) && Extends(later, run) && Now(later) == Now(run) + d
    decreases d
  {
    if d == 0 {
      later := run;
    } else {
      var next := EndpointNextMoment(run);
      later := EndpointTimeCanPass(next, d - 1);
      ExtendsOn(later, next, run);
    }
  }
}
