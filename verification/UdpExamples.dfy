/**
 Particular runs of the network, event by event. The first shows that both halves of being careful
 are needed: of a user who connects a dead remote while it is in the table, and of one who connects
 it while it waits for its reconnect, each comes to a reconnect that meets a remote that is back.
 */
module UdpExamples {
  import Constants
  import opened IPSockets
  import opened Scheduling
  import opened UdpEndpoint
  import opened UdpInvariants
  import opened UdpRuns
  import opened UdpOrphans
  import opened UdpNetwork
  import opened UdpDraining
  import opened UdpReconnects

  /** The keys that users connect in the run. */
  function Connects(run: NetRun): set<IPSocket> {
    match run
    case Start(_, _) => {}
    case Next(prev, e) => Connects(prev) + if e.At? && e.call.Connect? then {e.call.remote} else {}
  }

  /** The network loses nothing. */
  predicate Lossless(run: NetRun) {
    run.Next? ==> !run.event.Drop? && Lossless(run.prev)
  }

  /** The run is possible and has come to this state. */
  ghost predicate Reaches(w: World, run: NetRun, now: nat, eps: map<IPSocket, Endpoint>, flight: multiset<Packet>) {
    ValidRun(w, run) && NetState(w, run) == Net(now, eps, flight)
  }

  /** `run` is `first` and what came after it, without further connects or losses. */
  predicate Adds(run: NetRun, first: NetRun) {
    run == first ||
    (run.Next? && !(run.event.At? && run.event.call.Connect?) && !run.event.Drop? && Adds(run.prev, first))
  }

  // ---------------------------------------------------------------- what single events do

  lemma Continued(w: World, run: NetRun, n: Net, e: Event, m: Net)
    requires ValidRun(w, run) && NetState(w, run) == n && Allowed(w, n, e) && After(w, n, e) == m
    ensures ValidRun(w, Next(run, e)) && NetState(w, Next(run, e)) == m
  {
    hide After, CanHappen, Disciplined, Spares;
  }

  lemma PassStep(w: World, run: NetRun, now: nat, eps: map<IPSocket, Endpoint>, flight: multiset<Packet>, d: nat)
    returns (next: NetRun)
    requires Reaches(w, run, now, eps, flight)
    requires forall x :: x in eps ==> eps[x].sched.Allows(now, d)
    requires forall p :: p in flight ==> now + d <= p.deadline
    ensures Reaches(w, next, now + d, eps, flight) && next == Next(run, Pass(d))
  {
    hide ValidRun, NetState;
    next := Next(run, Pass(d));
    Continued(w, run, Net(now, eps, flight), Pass(d), Net(now + d, eps, flight));
  }

  lemma CallStepOf(w: World, run: NetRun, now: nat, eps: map<IPSocket, Endpoint>, flight: multiset<Packet>,
                   x: IPSocket, c: Call, after: Endpoint, mail: multiset<Packet>) returns (next: NetRun)
    requires Reaches(w, run, now, eps, flight) && x in eps && !c.Deliver? && c != Say(Constants.QUIT)
    requires c.Connect? && c.remote in eps ==> c.remote !in eps[x].peers
    requires CanCall(eps[x], now, c) && Apply(eps[x], now, c) == after
    requires Mail(w, x, after.outbox, now + w.delay) == mail
    ensures Reaches(w, next, now, eps[x := after], flight + mail) && next == Next(run, At(x, c))
  {
    hide Apply, Mail, ValidRun, NetState;
    next := Next(run, At(x, c));
    Continued(w, run, Net(now, eps, flight), At(x, c), Net(now, eps[x := after], flight + mail));
  }

  lemma ArriveStep(w: World, run: NetRun, now: nat, eps: map<IPSocket, Endpoint>, flight: multiset<Packet>,
                   p: Packet, after: Endpoint, mail: multiset<Packet>) returns (next: NetRun)
    requires Reaches(w, run, now, eps, flight) && p in flight && p.dst in eps
    requires Apply(eps[p.dst], now, Deliver(p.src, p.msg)) == after
    requires Mail(w, p.dst, after.outbox, now + w.delay) == mail
    ensures Reaches(w, next, now, eps[p.dst := after], flight - multiset{p} + mail) && next == Next(run, Arrive(p))
  {
    hide Apply, Mail, ValidRun, NetState;
    next := Next(run, Arrive(p));
    Continued(w, run, Net(now, eps, flight), Arrive(p), Net(now, eps[p.dst := after], flight - multiset{p} + mail));
  }

  /** The endpoint after its ping task id for r, with `left` runs to go, has run. */
  function Rung(ep: Endpoint, now: nat, id: nat, r: IPSocket, left: nat): Endpoint {
    var tasks := ep.sched.tasks;
    Endpoint(ep.peers,
             Schedule(if left <= 1 then tasks - {id} else tasks[id := PingTaskFor(r, now + 1000, left - 1)],
                      ep.sched.nextId),
             multiset{Datagram(KEEP_ALIVE, r)})
  }

  lemma RungIsNext(ep: Endpoint, now: nat, id: nat, r: IPSocket, left: nat)
    requires id in ep.sched.tasks && ep.sched.tasks[id] == PingTaskFor(r, now, left) && 1 <= left <= 3
    ensures CanCall(ep, now, Launch(id)) && Apply(ep, now, Launch(id)) == Rung(ep, now, id, r, left)
    ensures Rung(ep, now, id, r, left).outbox == multiset{Datagram(KEEP_ALIVE, r)}
  {
    BeatState(ep, now, id, r, left);
    LaunchSends(ep, now, id);
    hide Apply;
  }

  lemma PingStep(w: World, run: NetRun, now: nat, eps: map<IPSocket, Endpoint>, flight: multiset<Packet>,
                 x: IPSocket, id: nat, r: IPSocket, left: nat) returns (next: NetRun)
    requires Reaches(w, run, now, eps, flight) && x in eps && 1 <= left <= 3
    requires id in eps[x].sched.tasks && eps[x].sched.tasks[id] == PingTaskFor(r, now, left)
    ensures Reaches(w, next, now, eps[x := Rung(eps[x], now, id, r, left)],
                    flight + multiset{Packet(x, w.route(r), KEEP_ALIVE, now + w.delay)})
    ensures next == Next(run, At(x, Launch(id)))
  {
    hide Apply, CanCall, Mail, Reaches, Rung;
    RungIsNext(eps[x], now, id, r, left);
    MailOfOne(w, x, Datagram(KEEP_ALIVE, r), now + w.delay);
    next := CallStepOf(w, run, now, eps, flight, x, Launch(id), Rung(eps[x], now, id, r, left),
                       multiset{Packet(x, w.route(r), KEEP_ALIVE, now + w.delay)});
  }

  // ---------------------------------------------------------------- one endpoint and a dead remote

  lemma VanishStep(w: World, run: NetRun, now: nat, eps: map<IPSocket, Endpoint>, flight: multiset<Packet>, p: Packet)
    returns (next: NetRun)
    requires Reaches(w, run, now, eps, flight) && p in flight && p.dst !in eps
    ensures Reaches(w, next, now, eps, flight - multiset{p}) && next == Next(run, Vanish(p))
  {
    hide ValidRun, NetState;
    next := Next(run, Vanish(p));
    Continued(w, run, Net(now, eps, flight), Vanish(p), Net(now, eps, flight - multiset{p}));
  }

  /** Endpoint a alone, and nothing in flight. */
  ghost predicate Alone(w: World, run: NetRun, now: nat, a: IPSocket, ep: Endpoint) {
    Reaches(w, run, now, map[a := ep], multiset{})
  }

  /** r is a remote at which nobody lives, as far as a alone is concerned. */
  predicate Dead(w: World, a: IPSocket, r: IPSocket) {
    w.route(a) == a && r != a && w.route(r) != a
  }

  lemma AlonePasses(w: World, run: NetRun, now: nat, a: IPSocket, ep: Endpoint, d: nat) returns (next: NetRun)
    requires Alone(w, run, now, a, ep) && ep.sched.Allows(now, d)
    ensures Alone(w, next, now + d, a, ep) && Adds(next, run)
  {
    next := PassStep(w, run, now, map[a := ep], multiset{}, d);
  }

  /** A ping task runs, and its keep-alive vanishes. */
  lemma AlonePings(w: World, run: NetRun, now: nat, a: IPSocket, ep: Endpoint, id: nat, r: IPSocket, left: nat)
    returns (next: NetRun)
    requires Dead(w, a, r) && Alone(w, run, now, a, ep) && 1 <= left <= 3
    requires id in ep.sched.tasks && ep.sched.tasks[id] == PingTaskFor(r, now, left)
    ensures Alone(w, next, now, a, Rung(ep, now, id, r, left)) && Adds(next, run)
  {
    hide Reaches, Rung;
    var p := Packet(a, w.route(r), KEEP_ALIVE, now + w.delay);
    var sent := PingStep(w, run, now, map[a := ep], multiset{}, a, id, r, left);
    assert Adds(sent, run);
    var eps := map[a := Rung(ep, now, id, r, left)];
    assert map[a := ep][a := Rung(ep, now, id, r, left)] == eps;
    assert multiset{} + multiset{p} == multiset{p};
    next := VanishStep(w, sent, now, eps, multiset{p}, p);
    assert multiset{p} - multiset{p} == multiset{};
  }

  /** A call that sends nothing. */
  lemma AloneActs(w: World, run: NetRun, now: nat, a: IPSocket, ep: Endpoint, c: Call, after: Endpoint)
    returns (next: NetRun)
    requires Alone(w, run, now, a, ep) && (c.Launch? || (c.Connect? && c.remote != a))
    requires CanCall(ep, now, c) && Apply(ep, now, c) == after && after.outbox == multiset{}
    ensures Alone(w, next, now, a, after) && next == Next(run, At(a, c))
  {
    hide Apply, Reaches, CanCall;
    NoMail(w, a, now + w.delay);
    next := CallStepOf(w, run, now, map[a := ep], multiset{}, a, c, after, multiset{});
    assert map[a := ep][a := after] == map[a := after];
    var none: multiset<Packet> := multiset{};
    assert none + none == none;
  }

  lemma {:induction false} AddsOn(run: NetRun, middle: NetRun, first: NetRun)
    requires Adds(run, middle) && Adds(middle, first)
    ensures Adds(run, first)
  {
    if run != middle {
      AddsOn(run.prev, middle, first);
    }
  }

  lemma {:induction false} NothingConnectedSince(w: World, run: NetRun, first: NetRun)
    requires Adds(run, first)
    ensures Connects(run) == Connects(first)
    ensures Lossless(first) ==> Lossless(run)
    ensures PatientRun(w, first) ==> PatientRun(w, run)
    ensures GuardedRun(w, first) ==> GuardedRun(w, run)
  {
    if run != first {
      NothingConnectedSince(w, run.prev, first);
    }
  }

  // ---------------------------------------------------------------- connecting what is in the table

  /** r has been connected twice at time 0; each ping task has `left` runs to go, the next at `due`. */
  function Twice(r: IPSocket, due: nat, left: nat, out: multiset<Datagram>): Endpoint {
    var losts := map[1 := LostTaskFor(r, 4000), 3 := LostTaskFor(r, 4000)];
    var tasks := if left == 0 then losts else losts[0 := PingTaskFor(r, due, left)][2 := PingTaskFor(r, due, left)];
    Endpoint(map[r := Peer(Weak(0), Weak(1))], Schedule(tasks, 4), out)
  }

  /** Both ping tasks run. */
  lemma TwiceRings(r: IPSocket, now: nat, left: nat, out: multiset<Datagram>)
    requires 1 <= left <= 3
    ensures Rung(Rung(Twice(r, now, left, out), now, 0, r, left), now, 2, r, left) ==
            Twice(r, now + 1000, left - 1, multiset{Datagram(KEEP_ALIVE, r)})
  {
    var tasks := Rung(Rung(Twice(r, now, left, out), now, 0, r, left), now, 2, r, left).sched.tasks;
    assert tasks == Twice(r, now + 1000, left - 1, out).sched.tasks;
  }

  lemma TwiceWaits(r: IPSocket, now: nat, left: nat, out: multiset<Datagram>)
    requires now <= 3000
    ensures Twice(r, now + 1000, left, out).sched.Allows(now, 1000)
  {
  }

  lemma TwiceRound(w: World, run: NetRun, now: nat, a: IPSocket, r: IPSocket, left: nat, out: multiset<Datagram>)
    returns (next: NetRun)
    requires Dead(w, a, r) && 1 <= left <= 3 && now <= 3000
    requires Alone(w, run, now, a, Twice(r, now + 1000, left, out))
    ensures Alone(w, next, now + 1000, a, Twice(r, now + 2000, left - 1, multiset{Datagram(KEEP_ALIVE, r)}))
    ensures Adds(next, run)
  {
    var ep := Twice(r, now + 1000, left, out);
    TwiceWaits(r, now, left, out);
    TwiceRings(r, now + 1000, left, out);
    var second := Rung(ep, now + 1000, 0, r, left);
    assert ep.sched.tasks[0] == PingTaskFor(r, now + 1000, left) == second.sched.tasks[2];
    hide Alone, Twice, Rung;
    var waited := AlonePasses(w, run, now, a, ep, 1000);
    var rung := AlonePings(w, waited, now + 1000, a, ep, 0, r, left);
    next := AlonePings(w, rung, now + 1000, a, second, 2, r, left);
    AddsOn(rung, waited, run);
    AddsOn(next, rung, run);
  }

  /** After both comm-lost tasks two reconnects wait. */
  function BothLost(r: IPSocket): Endpoint {
    Endpoint(map[], Schedule(map[4 := ReconnectTaskFor(r, 9000), 5 := ReconnectTaskFor(r, 9000)], 6), multiset{})
  }

  /** After the first comm-lost task. */
  function OneLost(r: IPSocket): Endpoint {
    Endpoint(map[], Schedule(map[3 := LostTaskFor(r, 4000), 4 := ReconnectTaskFor(r, 9000)], 5), multiset{})
  }

  /** After the first reconnect. */
  function OneBack(r: IPSocket): Endpoint {
    Endpoint(map[r := Peer(Weak(6), Weak(7))],
             Schedule(map[5 := ReconnectTaskFor(r, 9000), 6 := PingTaskFor(r, 10000, 3), 7 := LostTaskFor(r, 13000)],
                      8),
             multiset{})
  }

  lemma ConnectStates(r: IPSocket)
    ensures var once := Apply(FRESH, 0, Connect(r));
            once.outbox == multiset{} && Apply(once, 0, Connect(r)) == Twice(r, 1000, 3, multiset{})
  {
    var once := Apply(FRESH, 0, Connect(r));
    assert Apply(once, 0, Connect(r)).sched.tasks == Twice(r, 1000, 3, multiset{}).sched.tasks;
  }

  lemma LossStates(r: IPSocket, due: nat, out: multiset<Datagram>)
    ensures CanCall(Twice(r, due, 0, out), 4000, Launch(1))
    ensures Apply(Twice(r, due, 0, out), 4000, Launch(1)) == OneLost(r)
    ensures CanCall(OneLost(r), 4000, Launch(3)) && Apply(OneLost(r), 4000, Launch(3)) == BothLost(r)
  {
    var one, both := Apply(Twice(r, due, 0, out), 4000, Launch(1)), Apply(OneLost(r), 4000, Launch(3));
    assert one.peers == map[] && one.sched.tasks == OneLost(r).sched.tasks;
    assert both.peers == map[] && both.sched.tasks == BothLost(r).sched.tasks;
  }

  lemma BackStates(r: IPSocket)
    ensures BothLost(r).sched.Allows(4000, 5000)
    ensures CanCall(BothLost(r), 9000, Launch(4)) && Apply(BothLost(r), 9000, Launch(4)) == OneBack(r)
    ensures CanCall(OneBack(r), 9000, Launch(5)) && !Guarded(OneBack(r), 9000, Launch(5), r)
  {
    assert Apply(BothLost(r), 9000, Launch(4)).sched.tasks == OneBack(r).sched.tasks;
  }

  lemma AloneStarts(w: World, a: IPSocket) returns (run: NetRun)
    requires w.route(a) == a
    ensures run == Start(0, {a}) && Alone(w, run, 0, a, FRESH)
  {
    run := Start(0, {a});
    assert NetState(w, run).eps == map[a := FRESH];
  }

  lemma ConnectsTwice(w: World, a: IPSocket, r: IPSocket) returns (run: NetRun)
    requires Dead(w, a, r)
    ensures Alone(w, run, 0, a, Twice(r, 1000, 3, multiset{})) && PatientRun(w, run)
  {
    ConnectStates(r);
    var once := Apply(FRESH, 0, Connect(r));
    assert !Reconnecting(FRESH, r) && !Reconnecting(once, r);
    hide Apply, Alone, Twice;
    var start := AloneStarts(w, a);
    var first := AloneActs(w, start, 0, a, FRESH, Connect(r), once);
    run := AloneActs(w, first, 0, a, once, Connect(r), Twice(r, 1000, 3, multiset{}));
    AloneState(w, start, 0, a, FRESH);
    AloneState(w, first, 0, a, once);
    hide NetState, Reconnecting;
    assert PatientRun(w, first);
  }

  lemma AloneState(w: World, run: NetRun, now: nat, a: IPSocket, ep: Endpoint)
    requires Alone(w, run, now, a, ep)
    ensures ValidRun(w, run) && NetState(w, run) == Net(now, map[a := ep], multiset{})
  {
  }

  lemma TwiceUntilLoss(w: World, first: NetRun, a: IPSocket, r: IPSocket) returns (run: NetRun)
    requires Dead(w, a, r) && Alone(w, first, 0, a, Twice(r, 1000, 3, multiset{}))
    ensures Alone(w, run, 4000, a, Twice(r, 4000, 0, multiset{Datagram(KEEP_ALIVE, r)})) && Adds(run, first)
  {
    var asked := multiset{Datagram(KEEP_ALIVE, r)};
    hide Alone, Twice, Adds;
    TwiceWaits(r, 3000, 0, asked);
    var r1 := TwiceRound(w, first, 0, a, r, 3, multiset{});
    var r2 := TwiceRound(w, r1, 1000, a, r, 2, asked);
    var r3 := TwiceRound(w, r2, 2000, a, r, 1, asked);
    run := AlonePasses(w, r3, 3000, a, Twice(r, 4000, 0, asked), 1000);
    AddsOn(r2, r1, first);
    AddsOn(r3, r2, first);
    AddsOn(run, r3, first);
  }

  lemma TwiceFromLoss(w: World, first: NetRun, a: IPSocket, r: IPSocket, out: multiset<Datagram>) returns (run: NetRun)
    requires Dead(w, a, r) && Alone(w, first, 4000, a, Twice(r, 4000, 0, out))
    ensures Alone(w, run, 9000, a, OneBack(r)) && Adds(run, first)
  {
    LossStates(r, 4000, out);
    BackStates(r);
    hide Apply, Alone, Twice, OneLost, BothLost, CanCall;
    var r1 := AloneActs(w, first, 4000, a, Twice(r, 4000, 0, out), Launch(1), OneLost(r));
    var r2 := AloneActs(w, r1, 4000, a, OneLost(r), Launch(3), BothLost(r));
    assert Adds(r1, first) && Adds(r2, first);
    var r3 := AlonePasses(w, r2, 4000, a, BothLost(r), 5000);
    AddsOn(r3, r2, first);
    run := AloneActs(w, r3, 9000, a, BothLost(r), Launch(4), OneBack(r));
  }

  /** A dead remote is connected twice at once, never while it waits for a reconnect. Both comm-lost
      tasks schedule a reconnect, and the second of these meets what the first has put back. */
  lemma ConnectedWhileKnown(w: World, a: IPSocket, r: IPSocket) returns (run: NetRun)
    requires Dead(w, a, r)
    ensures ValidRun(w, run) && PatientRun(w, run)
    ensures var n := NetState(w, run);
            && a in n.eps && Launchable(n, a, 5)
            && n.eps[a].sched.tasks[5].action == Reconnect(r) && !Guarded(n.eps[a], n.now, Launch(5), r)
  {
    BackStates(r);
    hide Alone, Twice, PatientRun, Adds, NetState;
    var first := ConnectsTwice(w, a, r);
    var lost := TwiceUntilLoss(w, first, a, r);
    run := TwiceFromLoss(w, lost, a, r, multiset{Datagram(KEEP_ALIVE, r)});
    AddsOn(run, lost, first);
    NothingConnectedSince(w, run, first);
    AloneState(w, run, 9000, a, OneBack(r));
  }

  // ---------------------------------------------------------------- connecting what waits

  /** r has been connected once at time 0; the ping task has `left` runs to go, the next at `due`. */
  function Once(r: IPSocket, due: nat, left: nat, out: multiset<Datagram>): Endpoint {
    var lost := map[1 := LostTaskFor(r, 4000)];
    Endpoint(map[r := Peer(Weak(0), Weak(1))],
             Schedule(if left == 0 then lost else lost[0 := PingTaskFor(r, due, left)], 2), out)
  }

  /** Lost at 4 s, r waits for its reconnect at 9 s. */
  function Waiting(r: IPSocket): Endpoint {
    Endpoint(map[], Schedule(map[2 := ReconnectTaskFor(r, 9000)], 3), multiset{})
  }

  /** Connected at 9 s, just before the reconnect runs. */
  function ConnectedAgain(r: IPSocket): Endpoint {
    Endpoint(map[r := Peer(Weak(3), Weak(4))],
             Schedule(map[2 := ReconnectTaskFor(r, 9000), 3 := PingTaskFor(r, 10000, 3), 4 := LostTaskFor(r, 13000)],
                      5),
             multiset{})
  }

  lemma OnceRings(r: IPSocket, now: nat, left: nat, out: multiset<Datagram>)
    requires 1 <= left <= 3
    ensures Rung(Once(r, now, left, out), now, 0, r, left) ==
            Once(r, now + 1000, left - 1, multiset{Datagram(KEEP_ALIVE, r)})
  {
    var tasks := Rung(Once(r, now, left, out), now, 0, r, left).sched.tasks;
    assert tasks == Once(r, now + 1000, left - 1, out).sched.tasks;
  }

  lemma OnceRound(w: World, run: NetRun, now: nat, a: IPSocket, r: IPSocket, left: nat, out: multiset<Datagram>)
    returns (next: NetRun)
    requires Dead(w, a, r) && 1 <= left <= 3 && now <= 3000
    requires Alone(w, run, now, a, Once(r, now + 1000, left, out))
    ensures Alone(w, next, now + 1000, a, Once(r, now + 2000, left - 1, multiset{Datagram(KEEP_ALIVE, r)}))
    ensures Adds(next, run)
  {
    var ep := Once(r, now + 1000, left, out);
    OnceRings(r, now + 1000, left, out);
    assert ep.sched.Allows(now, 1000) && ep.sched.tasks[0] == PingTaskFor(r, now + 1000, left);
    hide Alone, Once, Rung;
    var waited := AlonePasses(w, run, now, a, ep, 1000);
    next := AlonePings(w, waited, now + 1000, a, ep, 0, r, left);
    AddsOn(next, waited, run);
  }

  lemma OnceStates(r: IPSocket, out: multiset<Datagram>)
    ensures Apply(FRESH, 0, Connect(r)) == Once(r, 1000, 3, multiset{})
    ensures CanCall(Once(r, 4000, 0, out), 4000, Launch(1))
    ensures Apply(Once(r, 4000, 0, out), 4000, Launch(1)) == Waiting(r) && Waiting(r).sched.Allows(4000, 5000)
    ensures Apply(Waiting(r), 9000, Connect(r)) == ConnectedAgain(r)
    ensures CanCall(ConnectedAgain(r), 9000, Launch(2)) && !Guarded(ConnectedAgain(r), 9000, Launch(2), r)
  {
    var lost := Apply(Once(r, 4000, 0, out), 4000, Launch(1));
    assert Apply(FRESH, 0, Connect(r)).sched.tasks == Once(r, 1000, 3, multiset{}).sched.tasks;
    assert lost.peers == map[] && lost.sched.tasks == Waiting(r).sched.tasks;
    assert Apply(Waiting(r), 9000, Connect(r)).sched.tasks == ConnectedAgain(r).sched.tasks;
  }

  /** A dead remote is connected, lost, and connected again before its reconnect, never while it is
      in the table: the reconnect meets it there. */
  lemma ConnectedWhileWaiting(w: World, a: IPSocket, r: IPSocket) returns (run: NetRun)
    requires Dead(w, a, r)
    ensures ValidRun(w, run) && GuardedRun(w, run)
    ensures var n := NetState(w, run);
            && a in n.eps && Launchable(n, a, 2)
            && n.eps[a].sched.tasks[2].action == Reconnect(r) && !Guarded(n.eps[a], n.now, Launch(2), r)
  {
    var asked := multiset{Datagram(KEEP_ALIVE, r)};
    assert Once(r, 4000, 0, asked).sched.Allows(3000, 1000);
    OnceStates(r, asked);
    assert Waiting(r).peers == map[];
    hide Apply, Alone, Once, Waiting, CanCall;
    var start := AloneStarts(w, a);
    AloneState(w, start, 0, a, FRESH);
    var first := AloneActs(w, start, 0, a, FRESH, Connect(r), Once(r, 1000, 3, multiset{}));
    assert GuardedRun(w, first);
    hide GuardedRun;
    var r1 := OnceRound(w, first, 0, a, r, 3, multiset{});
    var r2 := OnceRound(w, r1, 1000, a, r, 2, asked);
    var r3 := OnceRound(w, r2, 2000, a, r, 1, asked);
    var r4 := AlonePasses(w, r3, 3000, a, Once(r, 4000, 0, asked), 1000);
    var r5 := AloneActs(w, r4, 4000, a, Once(r, 4000, 0, asked), Launch(1), Waiting(r));
    var r6 := AlonePasses(w, r5, 4000, a, Waiting(r), 5000);
    AddsOn(r2, r1, first);
    AddsOn(r3, r2, first);
    AddsOn(r4, r3, first);
    AddsOn(r6, r5, r4);
    AddsOn(r6, r4, first);
    NothingConnectedSince(w, r6, first);
    AloneState(w, r6, 9000, a, Waiting(r));
    run := AloneActs(w, r6, 9000, a, Waiting(r), Connect(r), ConnectedAgain(r));
    AloneState(w, run, 9000, a, ConnectedAgain(r));
    GuardedConnect(w, r6, a, r);
  }

  lemma GuardedConnect(w: World, run: NetRun, a: IPSocket, r: IPSocket)
    requires GuardedRun(w, run) && a in NetState(w, run).eps && r !in NetState(w, run).eps[a].peers
    ensures GuardedRun(w, Next(run, At(a, Connect(r))))
  {
    hide NetState;
  }
}
