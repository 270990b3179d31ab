/**
 Any number of UDP endpoints joined by a network that delays and loses: a datagram arrives once, at
 any moment up to `delay` after it was sent, or never. Of `tries` keep-alive exchanges in a row
 towards a live peer at most `tries` - 1 may fail; with one try the network loses nothing that
 matters.
 */
module UdpNetwork {
  import opened Constants
  import opened IPSockets
  import opened Scheduling
  import opened UdpEndpoint
  import opened UdpInvariants
  import opened UdpRuns

  datatype Packet = Packet(src: IPSocket, dst: IPSocket, msg: string, deadline: nat)

  datatype Net = Net(now: nat, eps: map<IPSocket, Endpoint>, flight: multiset<Packet>)

  /** The delay bound (loop slack included), where a datagram sent to a key arrives, and how many
      exchanges in a row it takes for one to get through. */
  datatype World = World(delay: nat, route: IPSocket -> IPSocket, tries: nat)

  /** Vanish: nobody lives at the destination. Drop: the network loses a datagram. */
  datatype Event = Pass(d: nat) | At(where: IPSocket, call: Call) | Arrive(p: Packet) | Vanish(p: Packet)
                 | Drop(p: Packet)

  function PacketFor(w: World, src: IPSocket, d: Datagram, deadline: nat): Packet {
    Packet(src, w.route(d.to), d.msg, deadline)
  }

  /** The packets that carry the datagrams of one outbox. */
  ghost function Mail(w: World, src: IPSocket, out: multiset<Datagram>, deadline: nat): multiset<Packet>
    decreases |out|
  {
    if out == multiset{} then multiset{}
    else
      var d :| d in out;
      Mail(w, src, out - multiset{d}, deadline) + multiset{PacketFor(w, src, d, deadline)}
  }

  lemma {:induction false} MailCarries(w: World, src: IPSocket, out: multiset<Datagram>, deadline: nat, d: Datagram)
    requires d in out
    ensures PacketFor(w, src, d, deadline) in Mail(w, src, out, deadline)
    decreases |out|
  {
    var x :| x in out && Mail(w, src, out, deadline) ==
                         Mail(w, src, out - multiset{x}, deadline) + multiset{PacketFor(w, src, x, deadline)};
    var rest, last := Mail(w, src, out - multiset{x}, deadline), PacketFor(w, src, x, deadline);
    if x != d {
      assert d in out - multiset{x};
      MailCarries(w, src, out - multiset{x}, deadline, d);
      assert PacketFor(w, src, d, deadline) in rest + multiset{last};
    } else {
      assert last in rest + multiset{last};
    }
  }

  lemma {:induction false} MailComesFrom(w: World, src: IPSocket, out: multiset<Datagram>, deadline: nat, p: Packet)
    returns (d: Datagram)
    requires p in Mail(w, src, out, deadline)
    ensures d in out && p == PacketFor(w, src, d, deadline)
    decreases |out|
  {
    var x :| x in out && Mail(w, src, out, deadline) ==
                         Mail(w, src, out - multiset{x}, deadline) + multiset{PacketFor(w, src, x, deadline)};
    if p == PacketFor(w, src, x, deadline) {
      d := x;
    } else {
      d := MailComesFrom(w, src, out - multiset{x}, deadline, p);
    }
  }

  ghost predicate CanHappen(n: Net, e: Event) {
    match e
    case Pass(d) =>
      && (forall a :: a in n.eps ==> n.eps[a].sched.Allows(n.now, d))
      && (forall p :: p in n.flight ==> n.now + d <= p.deadline)
    case At(a, c) => a in n.eps && !c.Deliver? && CanCall(n.eps[a], n.now, c)
    case Arrive(p) => p in n.flight && p.dst in n.eps
    case Vanish(p) => p in n.flight && p.dst !in n.eps
    case Drop(p) => p in n.flight && p.dst in n.eps
  }

  /** What endpoint a sends when it handles call c. */
  ghost function Posted(w: World, n: Net, a: IPSocket, c: Call): multiset<Packet>
    requires a in n.eps && CanCall(n.eps[a], n.now, c)
  {
    Mail(w, a, Apply(n.eps[a], n.now, c).outbox, n.now + w.delay)
  }

  /** Endpoint a handles call c, and what it sends is in flight from now on. */
  ghost function Handled(w: World, n: Net, a: IPSocket, c: Call): Net
    requires a in n.eps && CanCall(n.eps[a], n.now, c)
  {
    n.(eps := n.eps[a := Apply(n.eps[a], n.now, c)], flight := n.flight + Posted(w, n, a, c))
  }

  ghost function After(w: World, n: Net, e: Event): Net
    requires CanHappen(n, e)
  {
    match e
    case Pass(d) => n.(now := n.now + d)
    case At(a, c) => Handled(w, n, a, c)
    case Arrive(p) => Handled(w, n.(flight := n.flight - multiset{p}), p.dst, Deliver(p.src, p.msg))
    case Vanish(p) => n.(flight := n.flight - multiset{p})
    case Drop(p) => n.(flight := n.flight - multiset{p})
  }

  datatype NetRun = Start(start: nat, addrs: set<IPSocket>) | Next(prev: NetRun, event: Event)

  ghost function NetState(w: World, run: NetRun): Net {
    match run
    case Start(start, addrs) => Net(start, map a | a in addrs :: FRESH, multiset{})
    case Next(prev, e) => if CanHappen(NetState(w, prev), e) then After(w, NetState(w, prev), e) else NetState(w, prev)
  }

  /** What users may do: nobody types the quit message, and a live remote is connected only while it
      is not in the table. */
  ghost predicate Disciplined(n: Net, e: Event) {
    e.At? && e.where in n.eps ==>
      match e.call
      case Say(text) => text != QUIT
      case Connect(r) => r in n.eps ==> r !in n.eps[e.where].peers
      case _ => true
  }

  // ---------------------------------------------------------------- what the network may lose

  /** How long after b was last heard the last of its `tries` keep-alives goes out. */
  function LastTry(w: World): nat {
    KEEP_ALIVE_PERIOD * w.tries
  }

  /** One of the first `tries` keep-alives from a to b since b was last heard; `deadline` is when a
      gives b up. */
  predicate Asks(w: World, a: IPSocket, b: IPSocket, deadline: nat, p: Packet) {
    && p.src == a && p.dst == b && p.msg == KEEP_ALIVE
    && p.deadline + COMM_LOST_DELAY <= deadline + LastTry(w) + w.delay
  }

  /** An answer from b to one of these, or anything else b has sent to a by then. */
  predicate Tells(w: World, a: IPSocket, b: IPSocket, deadline: nat, p: Packet) {
    p.src == b && p.dst == a && p.deadline + COMM_LOST_DELAY <= deadline + LastTry(w) + 2 * w.delay
  }

  /** One of the first `tries` keep-alives to b since it was heard is still to be sent. */
  predicate TriesLeft(w: World, ep: Endpoint, b: IPSocket)
    requires b in ep.peers && Watched(ep, b)
  {
    && PingLeft(ep, b)
    && var ping := PingTask(ep, b);
       && 1 <= ping.left <= KEEP_ALIVE_PROBES < ping.left + w.tries
       && ping.due + COMM_LOST_DELAY == Deadline(ep, b) + KEEP_ALIVE_PERIOD * (KEEP_ALIVE_PROBES + 1 - ping.left)
  }

  /** Of the first `tries` exchanges with b since a last heard it, one has not failed yet. */
  ghost predicate Assured(w: World, ep: Endpoint, flight: multiset<Packet>, a: IPSocket, b: IPSocket)
    requires b in ep.peers && Watched(ep, b)
  {
    || TriesLeft(w, ep, b)
    || (exists p :: p in flight && Asks(w, a, b, Deadline(ep, b), p))
    || (exists p :: p in flight && Tells(w, a, b, Deadline(ep, b), p))
  }

  /** Losing p leaves every live peer, at every endpoint that knows it, an exchange that can succeed. */
  ghost predicate Spares(w: World, n: Net, p: Packet) {
    forall a, b :: a in n.eps && b in n.eps && b in n.eps[a].peers && Watched(n.eps[a], b) ==>
      Assured(w, n.eps[a], n.flight - multiset{p}, a, b)
  }

  ghost predicate Allowed(w: World, n: Net, e: Event) {
    CanHappen(n, e) && Disciplined(n, e) && (e.Drop? ==> Spares(w, n, e.p))
  }

  ghost predicate ValidRun(w: World, run: NetRun) {
    match run
    case Start(_, addrs) => forall a :: a in addrs ==> w.route(a) == a
    case Next(prev, e) => ValidRun(w, prev) && Allowed(w, NetState(w, prev), e)
  }

  // ---------------------------------------------------------------- the invariant

  /** The last try and its way there and back take less than the time to loss. */
  predicate Fast(w: World) {
    1 <= w.tries <= KEEP_ALIVE_PROBES && LastTry(w) + 2 * w.delay < COMM_LOST_DELAY
  }

  ghost predicate PacketsOk(n: Net) {
    forall p :: p in n.flight ==> p.msg != QUIT && p.src in n.eps && n.now <= p.deadline
  }

  /** Task id is an enabled reconnect. */
  predicate Waits(ep: Endpoint, id: nat) {
    id in ep.sched.tasks && ep.sched.tasks[id].enabled && ep.sched.tasks[id].action.Reconnect?
  }

  /** Nobody waits to connect a live remote. */
  ghost predicate ReconnectsOk(live: set<IPSocket>, ep: Endpoint) {
    forall id :: Waits(ep, id) ==> ep.sched.tasks[id].action.remote !in live
  }

  /** The tasks of live remotes match the table. */
  ghost predicate LiveMatch(live: set<IPSocket>, ep: Endpoint) {
    forall r :: r in live ==> NoOrphans(ep, r)
  }

  ghost predicate EndpointOk(live: set<IPSocket>, ep: Endpoint, now: nat) {
    Sound(ep, now) && LiveMatch(live, ep) && ReconnectsOk(live, ep)
  }

  ghost predicate AllAssured(w: World, n: Net, flight: multiset<Packet>, a: IPSocket)
    requires a in n.eps && AllWatched(n.eps[a])
  {
    forall b :: b in n.eps[a].peers && b in n.eps ==> Assured(w, n.eps[a], flight, a, b)
  }

  ghost predicate Inv(w: World, n: Net) {
    && Fast(w)
    && (forall a :: a in n.eps ==> w.route(a) == a)
    && PacketsOk(n)
    && (forall a :: a in n.eps ==> EndpointOk(n.eps.Keys, n.eps[a], n.now))
    && (forall a :: a in n.eps ==> AllAssured(w, n, n.flight, a))
  }

  lemma InvParts(w: World, n: Net)
    requires Inv(w, n)
    ensures forall y :: y in n.eps ==> w.route(y) == y && EndpointOk(n.eps.Keys, n.eps[y], n.now)
    ensures PacketsOk(n)
  {
  }

  /** With the invariant, no live peer is due to be given up. */
  lemma LivePeersAreInTime(w: World, n: Net, a: IPSocket, b: IPSocket)
    requires Inv(w, n) && a in n.eps && b in n.eps && b in n.eps[a].peers
    ensures Watched(n.eps[a], b) && n.now < Deadline(n.eps[a], b)
  {
    assert EndpointOk(n.eps.Keys, n.eps[a], n.now) && AllAssured(w, n, n.flight, a);
    assert Assured(w, n.eps[a], n.flight, a, b);
  }

  // ---------------------------------------------------------------- one call at one endpoint

  lemma LaunchReconnects(ep: Endpoint, now: nat, launched: nat, id: nat)
    requires Sound(ep, now) && ep.sched.IsDue(now, launched)
    requires Waits(RunTask(ep, now, launched), id)
    ensures var after := RunTask(ep, now, launched);
            || (id in ep.sched.tasks && ep.sched.tasks[id] == after.sched.tasks[id] && id != launched)
            || (&& id == ep.sched.nextId
                && ep.sched.tasks[launched].action == CommLost(after.sched.tasks[id].action.remote))
  {
    assert Shaped(ep.sched.tasks[launched]);
  }

  lemma DeliverReconnects(ep: Endpoint, now: nat, from: IPSocket, msg: string, id: nat)
    requires Sound(ep, now) && Waits(Receive(ep, now, from, msg), id)
    ensures id in ep.sched.tasks && ep.sched.tasks[id] == Receive(ep, now, from, msg).sched.tasks[id]
  {
    assert from in ep.peers ==> Watched(ep, from);
  }

  /** Only a loss schedules a reconnect, and a reconnect that runs is used up. */
  lemma NewReconnects(ep: Endpoint, now: nat, c: Call, id: nat)
    requires Sound(ep, now) && CanCall(ep, now, c) && Waits(Apply(ep, now, c), id)
    ensures var after := Apply(ep, now, c);
            || (id in ep.sched.tasks && ep.sched.tasks[id] == after.sched.tasks[id] && c != Launch(id))
            || (&& c.Launch? && id == ep.sched.nextId
                && ep.sched.tasks[c.id].action == CommLost(after.sched.tasks[id].action.remote))
  {
    hide RunTask, Receive;
    QuietIsSound(ep, multiset{}, now);
    if c.Launch? {
      LaunchReconnects(ep.(outbox := multiset{}), now, c.id, id);
    } else if c.Deliver? {
      DeliverReconnects(ep.(outbox := multiset{}), now, c.from, c.msg, id);
    }
  }

  /** What the discipline asks of a call at one endpoint. */
  ghost predicate CallOk(live: set<IPSocket>, ep: Endpoint, now: nat, c: Call)
    requires CanCall(ep, now, c)
  {
    match c
    case Launch(id) => forall r :: ep.sched.tasks[id].action == CommLost(r) ==> r !in live
    case Deliver(from, msg) => from in live && msg != QUIT
    case Connect(r) => r in live ==> r !in ep.peers
    case Say(text) => text != QUIT
    case Forget(_) => true
  }

  lemma CallOkIsGuarded(live: set<IPSocket>, ep: Endpoint, now: nat, c: Call, r: IPSocket)
    requires EndpointOk(live, ep, now) && CanCall(ep, now, c) && CallOk(live, ep, now, c) && r in live
    ensures Guarded(ep, now, c, r)
  {
    if c.Launch? && ep.sched.tasks[c.id].action == Reconnect(r) {
      assert Waits(ep, c.id);
    }
  }

  lemma CallKeepsReconnects(live: set<IPSocket>, ep: Endpoint, now: nat, c: Call)
    requires EndpointOk(live, ep, now) && CanCall(ep, now, c) && CallOk(live, ep, now, c)
    ensures ReconnectsOk(live, Apply(ep, now, c))
  {
    hide Apply;
    var after := Apply(ep, now, c);
    forall id | Waits(after, id)
      ensures after.sched.tasks[id].action.remote !in live
    {
      NewReconnects(ep, now, c, id);
      if id in ep.sched.tasks && ep.sched.tasks[id] == after.sched.tasks[id] {
        assert Waits(ep, id);
      }
    }
  }

  lemma NoQuitIsSent(live: set<IPSocket>, ep: Endpoint, now: nat, c: Call, d: Datagram)
    requires CanCall(ep, now, c) && CallOk(live, ep, now, c) && d in Apply(ep, now, c).outbox
    ensures d.msg != QUIT
  {
  }

  lemma KeepAliveIsAnswered(ep: Endpoint, now: nat, from: IPSocket)
    ensures Datagram(KEEP_ALIVE_ACK, from) in Apply(ep, now, Deliver(from, KEEP_ALIVE)).outbox
  {
  }

  lemma PingIsSent(ep: Endpoint, now: nat, id: nat, r: IPSocket)
    requires CanCall(ep, now, Launch(id)) && ep.sched.tasks[id].action == Ping(r)
    ensures Datagram(KEEP_ALIVE, r) in Apply(ep, now, Launch(id)).outbox
  {
  }

  /** The packets that assure a of b are all still there. */
  ghost predicate WitnessesStay(w: World, a: IPSocket, b: IPSocket, deadline: nat,
                                flight: multiset<Packet>, later: multiset<Packet>) {
    forall p :: p in flight && (Asks(w, a, b, deadline, p) || Tells(w, a, b, deadline, p)) ==> p in later
  }

  lemma UntouchedStaysAssured(w: World, ep: Endpoint, after: Endpoint, a: IPSocket, b: IPSocket,
                              flight: multiset<Packet>, later: multiset<Packet>)
    requires b in ep.peers && Watched(ep, b) && Untouched(ep, after, b)
    requires Assured(w, ep, flight, a, b) && WitnessesStay(w, a, b, Deadline(ep, b), flight, later)
    ensures Assured(w, after, later, a, b)
  {
  }

  /** One of the first pings that runs is in flight afterwards; a later one changes nothing. */
  lemma PingedStaysAssured(w: World, ep: Endpoint, after: Endpoint, now: nat, a: IPSocket, b: IPSocket,
                           flight: multiset<Packet>, later: multiset<Packet>)
    requires b in ep.peers && Watched(ep, b) && PingLeft(ep, b) && Pinged(ep, after, now, b)
    requires PingTask(ep, b).due == now && Packet(a, b, KEEP_ALIVE, now + w.delay) in later
    requires Assured(w, ep, flight, a, b) && WitnessesStay(w, a, b, Deadline(ep, b), flight, later)
    ensures Assured(w, after, later, a, b)
  {
    if TriesLeft(w, ep, b) {
      assert Asks(w, a, b, Deadline(after, b), Packet(a, b, KEEP_ALIVE, now + w.delay));
    }
  }

  /** At the endpoint that handles a call, every live peer of the table is assured afterwards. */
  lemma CallerStaysAssured(w: World, live: set<IPSocket>, ep: Endpoint, now: nat, c: Call,
                           a: IPSocket, b: IPSocket, flight: multiset<Packet>, later: multiset<Packet>)
    requires EndpointOk(live, ep, now) && CanCall(ep, now, c) && CallOk(live, ep, now, c)
    requires b in Apply(ep, now, c).peers && w.route(b) == b && w.tries >= 1
    requires b in ep.peers && !Hears(ep, now, c, b) ==>
               Assured(w, ep, flight, a, b) && WitnessesStay(w, a, b, Deadline(ep, b), flight, later)
    requires Mail(w, a, Apply(ep, now, c).outbox, now + w.delay) <= later
    ensures Watched(Apply(ep, now, c), b) && Assured(w, Apply(ep, now, c), later, a, b)
  {
    var after := Apply(ep, now, c);
    CallStep(ep, now, c, b);
    hide Apply, LiveMatch, ReconnectsOk, Mail, Assured, Pinged, Untouched, WitnessesStay;
    if Hears(ep, now, c, b) {
      RestartedIsAssured(w, after, now, a, b, later);
    } else if RunsPingOf(ep, c, b) {
      PingIsSent(ep, now, c.id, b);
      MailCarries(w, a, after.outbox, now + w.delay, Datagram(KEEP_ALIVE, b));
      PingedStaysAssured(w, ep, after, now, a, b, flight, later);
    } else {
      UntouchedStaysAssured(w, ep, after, a, b, flight, later);
    }
  }

  lemma RestartedIsAssured(w: World, after: Endpoint, now: nat, a: IPSocket, b: IPSocket, later: multiset<Packet>)
    requires Restarted(after, now, b) && w.tries >= 1
    ensures Assured(w, after, later, a, b)
  {
  }

  // ---------------------------------------------------------------- one step of the network

  lemma StartIsOk(w: World, start: nat, addrs: set<IPSocket>)
    requires Fast(w) && forall a :: a in addrs ==> w.route(a) == a
    ensures Inv(w, NetState(w, Start(start, addrs)))
  {
  }

  lemma PassKeeps(w: World, n: Net, d: nat)
    requires Inv(w, n) && CanHappen(n, Pass(d))
    ensures Inv(w, After(w, n, Pass(d)))
  {
    var m := After(w, n, Pass(d));
    forall a | a in n.eps
      ensures EndpointOk(m.eps.Keys, m.eps[a], m.now) && AllAssured(w, m, m.flight, a)
    {
      assert EndpointOk(n.eps.Keys, n.eps[a], n.now) && AllAssured(w, n, n.flight, a);
      SoundWaits(n.eps[a], n.now, d);
    }
  }

  /** A packet to nobody is nobody's witness. */
  lemma VanishAssured(w: World, n: Net, p: Packet, a: IPSocket, b: IPSocket)
    requires a in n.eps && b in n.eps && b in n.eps[a].peers && p.dst !in n.eps
    requires Watched(n.eps[a], b) && Assured(w, n.eps[a], n.flight, a, b)
    ensures Assured(w, n.eps[a], n.flight - multiset{p}, a, b)
  {
    UntouchedIsReflexive(n.eps[a], b);
    assert WitnessesStay(w, a, b, Deadline(n.eps[a], b), n.flight, n.flight - multiset{p});
    hide Watched, Assured, WitnessesStay, Untouched;
    UntouchedStaysAssured(w, n.eps[a], n.eps[a], a, b, n.flight, n.flight - multiset{p});
  }

  lemma VanishKeeps(w: World, n: Net, p: Packet)
    requires Inv(w, n) && CanHappen(n, Vanish(p))
    ensures Inv(w, After(w, n, Vanish(p)))
  {
    var m := After(w, n, Vanish(p));
    hide Assured, LiveMatch, ReconnectsOk, TasksSound, Watched;
    forall a | a in n.eps
      ensures AllAssured(w, m, m.flight, a)
    {
      assert EndpointOk(n.eps.Keys, n.eps[a], n.now) && AllAssured(w, n, n.flight, a);
      forall b | b in n.eps[a].peers && b in n.eps
        ensures Assured(w, n.eps[a], m.flight, a, b)
      {
        VanishAssured(w, n, p, a, b);
      }
    }
  }

  lemma DropKeeps(w: World, n: Net, p: Packet)
    requires Inv(w, n) && CanHappen(n, Drop(p)) && Spares(w, n, p)
    ensures Inv(w, After(w, n, Drop(p)))
  {
    var m := After(w, n, Drop(p));
    hide Assured, LiveMatch, ReconnectsOk, TasksSound, Watched;
    forall a | a in n.eps
      ensures AllAssured(w, m, m.flight, a)
    {
      assert EndpointOk(n.eps.Keys, n.eps[a], n.now);
    }
  }

  lemma PostedIsOk(w: World, n: Net, a: IPSocket, c: Call, p: Packet)
    requires a in n.eps && CanCall(n.eps[a], n.now, c) && CallOk(n.eps.Keys, n.eps[a], n.now, c)
    requires p in Posted(w, n, a, c)
    ensures p.msg != QUIT && p.src == a && n.now <= p.deadline
  {
    hide Apply, Mail, CallOk;
    var d := MailComesFrom(w, a, Apply(n.eps[a], n.now, c).outbox, n.now + w.delay, p);
    NoQuitIsSent(n.eps.Keys, n.eps[a], n.now, c, d);
  }

  lemma HandledPackets(w: World, n: Net, a: IPSocket, c: Call)
    requires PacketsOk(n) && a in n.eps && CanCall(n.eps[a], n.now, c) && CallOk(n.eps.Keys, n.eps[a], n.now, c)
    ensures PacketsOk(Handled(w, n, a, c))
  {
    hide Apply, Mail, CallOk, Posted;
    var m := Handled(w, n, a, c);
    forall p | p in m.flight
      ensures p.msg != QUIT && p.src in m.eps && m.now <= p.deadline
    {
      if p !in n.flight {
        PostedIsOk(w, n, a, c, p);
      }
    }
  }

  lemma HandledEndpoint(w: World, n: Net, a: IPSocket, c: Call)
    requires a in n.eps && EndpointOk(n.eps.Keys, n.eps[a], n.now)
    requires CanCall(n.eps[a], n.now, c) && CallOk(n.eps.Keys, n.eps[a], n.now, c)
    ensures EndpointOk(n.eps.Keys, Apply(n.eps[a], n.now, c), n.now)
  {
    var live, ep := n.eps.Keys, n.eps[a];
    CallKeepsSound(ep, n.now, c);
    CallKeepsReconnects(live, ep, n.now, c);
    forall r | r in live
      ensures NoOrphans(Apply(ep, n.now, c), r)
    {
      CallOkIsGuarded(live, ep, n.now, c, r);
      CallStep(ep, n.now, c, r);
    }
  }

  /** What handling a call asks of the packets in flight before it: `flight` held every witness. */
  ghost predicate WitnessesCovered(w: World, n: Net, a: IPSocket, c: Call, flight: multiset<Packet>)
    requires a in n.eps && AllWatched(n.eps[a]) && CanCall(n.eps[a], n.now, c)
  {
    forall b :: b in n.eps && b in n.eps[a].peers && !Hears(n.eps[a], n.now, c, b) ==>
      WitnessesStay(w, a, b, Deadline(n.eps[a], b), flight, n.flight)
  }

  lemma HandledCallerOne(w: World, n: Net, a: IPSocket, c: Call, flight: multiset<Packet>, b: IPSocket)
    requires a in n.eps && EndpointOk(n.eps.Keys, n.eps[a], n.now) && AllAssured(w, n, flight, a)
    requires CanCall(n.eps[a], n.now, c) && CallOk(n.eps.Keys, n.eps[a], n.now, c)
    requires WitnessesCovered(w, n, a, c, flight)
    requires b in n.eps && w.route(b) == b && w.tries >= 1 && b in Handled(w, n, a, c).eps[a].peers
    ensures var m := Handled(w, n, a, c);
            Watched(m.eps[a], b) && Assured(w, m.eps[a], m.flight, a, b)
  {
    hide Apply, Hears, Mail, Assured, LiveMatch, ReconnectsOk, TasksSound, CallOk, Watched, Asks, Tells;
    CallerStaysAssured(w, n.eps.Keys, n.eps[a], n.now, c, a, b, flight, Handled(w, n, a, c).flight);
  }

  lemma HandledCaller(w: World, n: Net, a: IPSocket, c: Call, flight: multiset<Packet>)
    requires a in n.eps && EndpointOk(n.eps.Keys, n.eps[a], n.now) && AllAssured(w, n, flight, a)
    requires w.tries >= 1 && forall b :: b in n.eps ==> w.route(b) == b
    requires CanCall(n.eps[a], n.now, c) && CallOk(n.eps.Keys, n.eps[a], n.now, c)
    requires WitnessesCovered(w, n, a, c, flight)
    ensures var m := Handled(w, n, a, c);
            AllWatched(m.eps[a]) && AllAssured(w, m, m.flight, a)
  {
    var m := Handled(w, n, a, c);
    HandledEndpoint(w, n, a, c);
    hide Apply, Mail, Assured, LiveMatch, ReconnectsOk, TasksSound, CallOk, Watched, WitnessesCovered;
    forall b | b in m.eps[a].peers && b in m.eps
      ensures Assured(w, m.eps[a], m.flight, a, b)
    {
      HandledCallerOne(w, n, a, c, flight, b);
    }
  }

  /** A call made at one endpoint keeps the invariant of the whole network. */
  lemma AtKeeps(w: World, n: Net, a: IPSocket, c: Call)
    requires Inv(w, n) && CanHappen(n, At(a, c)) && Disciplined(n, At(a, c))
    ensures Inv(w, After(w, n, At(a, c)))
  {
    var m := After(w, n, At(a, c));
    assert EndpointOk(n.eps.Keys, n.eps[a], n.now) && AllAssured(w, n, n.flight, a);
    DueLossIsOfTheDead(w, n, a, c);
    HandledPackets(w, n, a, c);
    HandledEndpoint(w, n, a, c);
    HandledCaller(w, n, a, c, n.flight);
    assert m.eps.Keys == n.eps.Keys;
    forall x | x in n.eps
      ensures EndpointOk(m.eps.Keys, m.eps[x], m.now) && AllAssured(w, m, m.flight, x)
    {
      if x != a {
        assert EndpointOk(n.eps.Keys, n.eps[x], n.now) && AllAssured(w, n, n.flight, x);
        MorePacketsStayAssured(w, n, m, x);
      }
    }
  }

  lemma DueLossIsOfTheDead(w: World, n: Net, a: IPSocket, c: Call)
    requires Inv(w, n) && CanHappen(n, At(a, c)) && Disciplined(n, At(a, c))
    ensures CallOk(n.eps.Keys, n.eps[a], n.now, c)
  {
    var ep := n.eps[a];
    assert EndpointOk(n.eps.Keys, ep, n.now);
    if c.Launch? && ep.sched.tasks[c.id].action.CommLost? {
      var r := ep.sched.tasks[c.id].action.remote;
      if r in n.eps {
        assert NoOrphans(ep, r) && Adopted(ep, c.id);
        LivePeersAreInTime(w, n, a, r);
      }
    }
  }

  lemma MorePacketsStayAssured(w: World, n: Net, m: Net, x: IPSocket)
    requires x in n.eps && x in m.eps && m.eps[x] == n.eps[x] && m.eps.Keys == n.eps.Keys && n.flight <= m.flight
    requires AllWatched(n.eps[x]) && AllAssured(w, n, n.flight, x)
    ensures AllAssured(w, m, m.flight, x)
  {
    forall b | b in n.eps[x].peers && b in n.eps
      ensures Assured(w, n.eps[x], m.flight, x, b)
    {
      assert Assured(w, n.eps[x], n.flight, x, b);
    }
  }

  /** An arriving packet is a witness at its destination only for its sender, who is now heard. */
  lemma ArrivalCovers(w: World, n: Net, p: Packet)
    requires Inv(w, n) && CanHappen(n, Arrive(p))
    ensures AllWatched(n.eps[p.dst])
    ensures WitnessesCovered(w, n.(flight := n.flight - multiset{p}), p.dst, Deliver(p.src, p.msg), n.flight)
  {
    assert EndpointOk(n.eps.Keys, n.eps[p.dst], n.now);
  }

  /** An arriving keep-alive is replaced by an acknowledgement that comes back in time. */
  lemma AnswerTells(w: World, n: Net, p: Packet, x: IPSocket, b: IPSocket, deadline: nat)
    requires CanHappen(n, Arrive(p)) && Asks(w, x, b, deadline, p)
    requires n.now <= p.deadline && x in n.eps && w.route(x) == x
    ensures exists answer :: answer in Posted(w, n, b, Deliver(p.src, p.msg)) && Tells(w, x, b, deadline, answer)
  {
    hide Apply, Mail;
    KeepAliveIsAnswered(n.eps[b], n.now, x);
    var out := Apply(n.eps[b], n.now, Deliver(x, KEEP_ALIVE)).outbox;
    MailCarries(w, b, out, n.now + w.delay, Datagram(KEEP_ALIVE_ACK, x));
    var answer := Packet(b, x, KEEP_ALIVE_ACK, n.now + w.delay);
    assert answer in Posted(w, n, b, Deliver(x, KEEP_ALIVE));
    assert Tells(w, x, b, deadline, answer);
  }

  lemma WithoutOthers(w: World, x: IPSocket, b: IPSocket, deadline: nat,
                      flight: multiset<Packet>, p: Packet, mail: multiset<Packet>)
    requires !Asks(w, x, b, deadline, p) && !Tells(w, x, b, deadline, p)
    ensures WitnessesStay(w, x, b, deadline, flight, flight - multiset{p} + mail)
  {
    hide Asks, Tells;
  }

  lemma ToldIsAssured(w: World, ep: Endpoint, x: IPSocket, b: IPSocket,
                      flight: multiset<Packet>, mail: multiset<Packet>)
    requires b in ep.peers && Watched(ep, b)
    requires exists answer :: answer in mail && Tells(w, x, b, Deadline(ep, b), answer)
    ensures Assured(w, ep, flight + mail, x, b)
  {
    hide Tells, Watched;
    var answer :| answer in mail && Tells(w, x, b, Deadline(ep, b), answer);
    assert answer in flight + mail;
  }

  /** At an endpoint the packet does not arrive at, every live peer stays assured. */
  lemma OthersStayAssured(w: World, n: Net, p: Packet, x: IPSocket, b: IPSocket)
    requires CanHappen(n, Arrive(p)) && n.now <= p.deadline && p.msg != QUIT
    requires x in n.eps && x != p.dst && b in n.eps && b in n.eps[x].peers && Watched(n.eps[x], b)
    requires w.route(x) == x && Assured(w, n.eps[x], n.flight, x, b)
    ensures Assured(w, n.eps[x], n.flight - multiset{p} + Posted(w, n, p.dst, Deliver(p.src, p.msg)), x, b)
  {
    var ep, deadline := n.eps[x], Deadline(n.eps[x], b);
    var mail := Posted(w, n, p.dst, Deliver(p.src, p.msg));
    hide Posted;
    if Asks(w, x, b, deadline, p) {
      AnswerTells(w, n, p, x, b, deadline);
      hide Assured;
      ToldIsAssured(w, ep, x, b, n.flight - multiset{p}, mail);
    } else {
      assert !Tells(w, x, b, deadline, p);
      hide Watched, Assured, Asks, Tells;
      WithoutOthers(w, x, b, deadline, n.flight, p, mail);
      UntouchedIsReflexive(ep, b);
      UntouchedStaysAssured(w, ep, ep, x, b, n.flight, n.flight - multiset{p} + mail);
    }
  }

  lemma ArriveOthers(w: World, n: Net, p: Packet, x: IPSocket)
    requires Inv(w, n) && CanHappen(n, Arrive(p)) && x in n.eps && x != p.dst
    ensures var m := After(w, n, Arrive(p));
            m.eps.Keys == n.eps.Keys && EndpointOk(m.eps.Keys, m.eps[x], m.now) && AllAssured(w, m, m.flight, x)
  {
    var m := After(w, n, Arrive(p));
    InvParts(w, n);
    assert EndpointOk(n.eps.Keys, n.eps[x], n.now) && AllAssured(w, n, n.flight, x);
    hide Apply, Posted, Assured, LiveMatch, ReconnectsOk, TasksSound, Watched, Inv;
    assert m.eps.Keys == n.eps.Keys && m.eps[x] == n.eps[x];
    assert m.flight == n.flight - multiset{p} + Posted(w, n, p.dst, Deliver(p.src, p.msg)) by {
      ArriveFlight(w, n, p);
    }
    forall b | b in n.eps[x].peers && b in n.eps
      ensures Assured(w, n.eps[x], m.flight, x, b)
    {
      OthersStayAssured(w, n, p, x, b);
    }
  }

  lemma ArriveFlight(w: World, n: Net, p: Packet)
    requires CanHappen(n, Arrive(p))
    ensures After(w, n, Arrive(p)).flight == n.flight - multiset{p} + Posted(w, n, p.dst, Deliver(p.src, p.msg))
  {
    hide Apply, Mail;
  }

  lemma ArriveHere(w: World, n: Net, p: Packet)
    requires Inv(w, n) && CanHappen(n, Arrive(p))
    ensures var m := After(w, n, Arrive(p));
            PacketsOk(m) && EndpointOk(m.eps.Keys, m.eps[p.dst], m.now) && AllAssured(w, m, m.flight, p.dst)
  {
    hide Apply, Posted, Assured, LiveMatch, ReconnectsOk, Sound, WitnessesCovered;
    var m := After(w, n, Arrive(p));
    var rest := n.(flight := n.flight - multiset{p});
    var c := Deliver(p.src, p.msg);
    ArrivalCovers(w, n, p);
    assert EndpointOk(n.eps.Keys, n.eps[p.dst], n.now) && AllAssured(w, n, n.flight, p.dst);
    assert PacketsOk(rest) && CallOk(rest.eps.Keys, rest.eps[p.dst], rest.now, c);
    HandledPackets(w, rest, p.dst, c);
    HandledEndpoint(w, rest, p.dst, c);
    HandledCaller(w, rest, p.dst, c, n.flight);
    assert m.eps.Keys == n.eps.Keys;
  }

  /** An arriving packet keeps the invariant of the whole network. */
  lemma ArriveKeeps(w: World, n: Net, p: Packet)
    requires Inv(w, n) && CanHappen(n, Arrive(p))
    ensures Inv(w, After(w, n, Arrive(p)))
  {
    var m := After(w, n, Arrive(p));
    ArriveHere(w, n, p);
    hide Apply, Posted, Assured, LiveMatch, ReconnectsOk, Sound;
    assert m.eps.Keys == n.eps.Keys;
    forall x | x in m.eps
      ensures EndpointOk(m.eps.Keys, m.eps[x], m.now) && AllWatched(m.eps[x]) && AllAssured(w, m, m.flight, x)
    {
      if x != p.dst {
        ArriveOthers(w, n, p, x);
      }
    }
  }

  // ---------------------------------------------------------------- whole runs

  lemma {:induction false} RunsKeepInv(w: World, run: NetRun)
    requires Fast(w) && ValidRun(w, run)
    ensures Inv(w, NetState(w, run))
  {
    match run
    case Start(start, addrs) => StartIsOk(w, start, addrs);
    case Next(prev, e) =>
      RunsKeepInv(w, prev);
      var n := NetState(w, prev);
      match e {
        case Pass(d) => PassKeeps(w, n, d);
        case At(a, c) => AtKeeps(w, n, a, c);
        case Arrive(p) => ArriveKeeps(w, n, p);
        case Vanish(p) => VanishKeeps(w, n, p);
        case Drop(p) => DropKeeps(w, n, p);
      }
  }

  /** `run` is `first` and what came after it. */
  predicate Continues(run: NetRun, first: NetRun) {
    run == first || (run.Next? && Continues(run.prev, first))
  }

  /** Task id of endpoint a can run now. */
  predicate Launchable(n: Net, a: IPSocket, id: nat)
    requires a in n.eps
  {
    n.eps[a].sched.IsDue(n.now, id)
  }

  lemma CallKeepsLivePeer(live: set<IPSocket>, ep: Endpoint, now: nat, c: Call, b: IPSocket)
    requires Sound(ep, now) && CanCall(ep, now, c) && CallOk(live, ep, now, c) && b in live && b in ep.peers
    ensures b in Apply(ep, now, c).peers
  {
    CallStep(ep, now, c, b);
    hide Apply;
  }

  lemma HandledKeepsLivePeer(w: World, n: Net, x: IPSocket, c: Call, a: IPSocket, b: IPSocket)
    requires x in n.eps && Sound(n.eps[x], n.now)
    requires CanCall(n.eps[x], n.now, c) && CallOk(n.eps.Keys, n.eps[x], n.now, c)
    requires a in n.eps && b in n.eps && b in n.eps[a].peers
    ensures var m := Handled(w, n, x, c);
            m.eps.Keys == n.eps.Keys && b in m.eps[a].peers
  {
    if x == a {
      CallKeepsLivePeer(n.eps.Keys, n.eps[a], n.now, c, b);
    }
    hide Apply, Posted, CallOk;
  }

  lemma StepKeepsLivePeer(w: World, n: Net, e: Event, a: IPSocket, b: IPSocket)
    requires Inv(w, n) && Allowed(w, n, e) && a in n.eps && b in n.eps && b in n.eps[a].peers
    ensures var m := After(w, n, e);
            m.eps.Keys == n.eps.Keys && b in m.eps[a].peers
  {
    InvParts(w, n);
    hide Handled, Inv, Assured, LiveMatch, ReconnectsOk;
    match e
    case Pass(_) =>
    case At(x, c) =>
      DueLossIsOfTheDead(w, n, x, c);
      HandledKeepsLivePeer(w, n, x, c, a, b);
    case Arrive(p) => HandledKeepsLivePeer(w, n.(flight := n.flight - multiset{p}), p.dst, Deliver(p.src, p.msg), a, b);
    case Vanish(_) =>
    case Drop(_) =>
  }

  /** If one of every `tries` exchanges in a row gets through, `tries` seconds and a round trip are
      shorter than 4 s and nobody quits, then, however many endpoints there are and whatever they do,
      no comm-lost task for a live remote can ever run, the table's own or any other. */
  lemma NoLiveRemoteIsLost(w: World, run: NetRun, a: IPSocket, id: nat, b: IPSocket)
    requires Fast(w) && ValidRun(w, run)
    requires a in NetState(w, run).eps && b in NetState(w, run).eps && Launchable(NetState(w, run), a, id)
    ensures NetState(w, run).eps[a].sched.tasks[id].action != CommLost(b)
  {
    RunsKeepInv(w, run);
    DueLossIsOfTheDead(w, NetState(w, run), a, Launch(id));
  }

  /** Under the same conditions a live peer, once in a table, is in it for ever after; at every
      moment its own comm-lost task is enabled and not yet due. */
  lemma {:induction false} LivePeersAreNeverLost(w: World, run: NetRun, first: NetRun, a: IPSocket, b: IPSocket)
    requires Fast(w) && ValidRun(w, run) && Continues(run, first)
    requires var n := NetState(w, first); a in n.eps && b in n.eps && b in n.eps[a].peers
    ensures var n := NetState(w, run);
            && a in n.eps && b in n.eps && b in n.eps[a].peers
            && Watched(n.eps[a], b) && n.now < Deadline(n.eps[a], b)
            && forall id :: Launchable(n, a, id) ==> n.eps[a].sched.tasks[id].action != CommLost(b)
  {
    hide After, Inv, Allowed, CanHappen, Fast, Deadline;
    RunsKeepInv(w, run);
    if run != first {
      LivePeersAreNeverLost(w, run.prev, first, a, b);
      RunsKeepInv(w, run.prev);
      StepKeepsLivePeer(w, NetState(w, run.prev), run.event, a, b);
    }
    LivePeersAreInTime(w, NetState(w, run), a, b);
    forall id | Launchable(NetState(w, run), a, id)
      ensures NetState(w, run).eps[a].sched.tasks[id].action != CommLost(b)
    {
      NoLiveRemoteIsLost(w, run, a, id, b);
    }
  }

  /** Under the same conditions the tasks for live remotes match every table, and no endpoint ever
      waits to connect a live remote again. */
  lemma LiveRemotesMatchTables(w: World, run: NetRun, a: IPSocket, b: IPSocket)
    requires Fast(w) && ValidRun(w, run)
    requires a in NetState(w, run).eps && b in NetState(w, run).eps
    ensures var ep := NetState(w, run).eps[a];
            && NoOrphans(ep, b)
            && forall id :: Waits(ep, id) ==> ep.sched.tasks[id].action != Reconnect(b)
  {
    RunsKeepInv(w, run);
    var n := NetState(w, run);
    assert EndpointOk(n.eps.Keys, n.eps[a], n.now);
  }
}
