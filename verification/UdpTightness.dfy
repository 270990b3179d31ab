/**
 The bound of `UdpNetwork` cannot be improved, on a network that loses nothing and for users who
 connect only what they can type. If one period and a round trip take as long as the time to loss, an
 endpoint can lose another that is alive, that it knows from what it has received, and that answers
 every keep-alive as soon as it arrives: the first answer is still on its way when the comm-lost task
 is due.
 */
module UdpTightness {
  import opened IPSockets
  import opened Scheduling
  import opened UdpEndpoint
  import opened UdpInvariants
  import opened UdpRuns
  import opened UdpOrphans
  import opened UdpNetwork
  import opened UdpDraining
  import opened UdpExamples

  /** Two addresses, each its own canonical form, and another key that reaches the second. */
  predicate Apart(w: World, a: IPSocket, b: IPSocket, t: IPSocket) {
    a != b && w.route(a) == a && w.route(b) == b && t != b && w.route(t) == b
  }

  function Pair(a: IPSocket, b: IPSocket, x: Endpoint, y: Endpoint): map<IPSocket, Endpoint> {
    map[a := x, b := y]
  }

  // ---------------------------------------------------------------- the packets and the endpoints

  /** A keep-alive from a to b, sent at s. */
  function Ask(w: World, a: IPSocket, b: IPSocket, s: nat): Packet {
    Packet(a, b, KEEP_ALIVE, s + w.delay)
  }

  /** An answer from b to a, sent at s. */
  function Reply(w: World, a: IPSocket, b: IPSocket, s: nat): Packet {
    Packet(b, a, KEEP_ALIVE_ACK, s + w.delay)
  }

  const CHAT := "x"

  /** A line of chat from a to b, sent at s. */
  function Chat(w: World, a: IPSocket, b: IPSocket, s: nat): Packet {
    Packet(a, b, CHAT, s + w.delay)
  }

  /** An endpoint that knows r alone. */
  function Knowing(r: IPSocket, ping: nat, left: nat, lost: nat, out: multiset<Datagram>): Endpoint {
    Endpoint(map[r := Peer(Weak(0), Weak(1))],
             Schedule(map[0 := PingTaskFor(r, ping, left), 1 := LostTaskFor(r, lost)], 2), out)
  }

  /** Endpoint b, which has last heard a at time h. */
  function Listener(a: IPSocket, h: nat, out: multiset<Datagram>): Endpoint {
    Knowing(a, h + 1000, 3, h + 4000, out)
  }

  /** Endpoint a, which connected t at 0 s and heard b at 1 s, n seconds after that. */
  function Talker(t: IPSocket, b: IPSocket, n: nat, out: multiset<Datagram>): Endpoint {
    var lost := map[3 := LostTaskFor(b, 5000)];
    if n >= 3 then
      Endpoint(map[b := Peer(Weak(2), Weak(3))], Schedule(lost[4 := ReconnectTaskFor(t, 9000)], 5), out)
    else
      var both := lost[1 := LostTaskFor(t, 4000)][2 := PingTaskFor(b, 2000 + 1000 * n, 3 - n)];
      Endpoint(map[t := Peer(Weak(0), Weak(1)), b := Peer(Weak(2), Weak(3))],
               Schedule(if n == 2 then both else both[0 := PingTaskFor(t, 2000 + 1000 * n, 2 - n)], 4), out)
  }

  lemma ConnectState(t: IPSocket)
    ensures Apply(FRESH, 0, Connect(t)) == Knowing(t, 1000, 3, 4000, multiset{})
  {
    assert Apply(FRESH, 0, Connect(t)).sched.tasks == Knowing(t, 1000, 3, 4000, multiset{}).sched.tasks;
  }

  lemma FirstRing(t: IPSocket)
    ensures Rung(Knowing(t, 1000, 3, 4000, multiset{}), 1000, 0, t, 3) ==
            Knowing(t, 2000, 2, 4000, multiset{Datagram(KEEP_ALIVE, t)})
  {
    assert Rung(Knowing(t, 1000, 3, 4000, multiset{}), 1000, 0, t, 3).sched.tasks ==
           Knowing(t, 2000, 2, 4000, multiset{}).sched.tasks;
  }

  /** A message comes in at b, from a new peer or from one whose tasks both stand. */
  lemma ListenState(y: Endpoint, a: IPSocket, now: nat, msg: string)
    requires y == FRESH || exists h, out :: y == Listener(a, h, out)
    requires msg == KEEP_ALIVE || msg == CHAT
    ensures Apply(y, now, Deliver(a, msg)) ==
            Listener(a, now, if msg == KEEP_ALIVE then multiset{Datagram(KEEP_ALIVE_ACK, a)} else multiset{})
  {
    var after := Apply(y, now, Deliver(a, msg));
    AnswerToMessage(y, now, a, msg);
    assert after.sched.tasks == Listener(a, now, multiset{}).sched.tasks;
  }

  /** The first answer comes in at a under b's own address. */
  lemma TalkerState(t: IPSocket, b: IPSocket, out: multiset<Datagram>)
    requires t != b
    ensures Apply(Knowing(t, 2000, 2, 4000, out), 1000, Deliver(b, KEEP_ALIVE_ACK)) == Talker(t, b, 0, multiset{})
  {
    var after := Apply(Knowing(t, 2000, 2, 4000, out), 1000, Deliver(b, KEEP_ALIVE_ACK));
    assert after.sched.tasks == Talker(t, b, 0, multiset{}).sched.tasks;
    assert after.peers == Talker(t, b, 0, multiset{}).peers;
  }

  lemma ChatState(t: IPSocket, b: IPSocket)
    requires t != b
    ensures Apply(Talker(t, b, 0, multiset{}), 1000, Say(CHAT)) ==
            Talker(t, b, 0, multiset{Datagram(CHAT, t), Datagram(CHAT, b)})
  {
    assert Letters(CHAT, {t, b}) == {Datagram(CHAT, t), Datagram(CHAT, b)};
    assert Talker(t, b, 0, multiset{}).peers.Keys == {t, b};
    assert multiset({Datagram(CHAT, t), Datagram(CHAT, b)}) == multiset{Datagram(CHAT, t), Datagram(CHAT, b)};
    var none: multiset<Datagram> := multiset{};
    assert none + multiset{Datagram(CHAT, t), Datagram(CHAT, b)} == multiset{Datagram(CHAT, t), Datagram(CHAT, b)};
  }

  /** Both ping tasks of a run, for t and for b. */
  lemma TalkerRings(t: IPSocket, b: IPSocket, n: nat, out: multiset<Datagram>)
    requires n < 2 && t != b
    ensures var now := 2000 + 1000 * n;
            Rung(Rung(Talker(t, b, n, out), now, 0, t, 2 - n), now, 2, b, 3 - n) ==
            Talker(t, b, n + 1, multiset{Datagram(KEEP_ALIVE, b)})
  {
    var now := 2000 + 1000 * n;
    var after := Rung(Rung(Talker(t, b, n, out), now, 0, t, 2 - n), now, 2, b, 3 - n);
    assert after.sched.tasks == Talker(t, b, n + 1, out).sched.tasks;
  }

  /** a after it has given t up. */
  function Bereft(t: IPSocket, b: IPSocket): Endpoint {
    Endpoint(map[b := Peer(Weak(2), Weak(3))],
             Schedule(map[2 := PingTaskFor(b, 4000, 1), 3 := LostTaskFor(b, 5000), 4 := ReconnectTaskFor(t, 9000)], 5),
             multiset{})
  }

  lemma BereftState(t: IPSocket, b: IPSocket, out: multiset<Datagram>)
    requires t != b
    ensures CanCall(Talker(t, b, 2, out), 4000, Launch(1))
    ensures Apply(Talker(t, b, 2, out), 4000, Launch(1)) == Bereft(t, b)
  {
    var ep := Talker(t, b, 2, multiset{});
    assert ep.sched.tasks[1] == LostTaskFor(t, 4000);
    var taken := ep.(sched := ep.sched.Consume(4000, 1));
    assert taken.sched.tasks == map[2 := PingTaskFor(b, 4000, 1), 3 := LostTaskFor(b, 5000)];
    TalkerLoses(t, b, taken);
    hide Lose;
  }

  lemma TalkerLoses(t: IPSocket, b: IPSocket, taken: Endpoint)
    requires t != b && taken.outbox == multiset{}
    requires taken.peers == map[t := Peer(Weak(0), Weak(1)), b := Peer(Weak(2), Weak(3))]
    requires taken.sched == Schedule(map[2 := PingTaskFor(b, 4000, 1), 3 := LostTaskFor(b, 5000)], 4)
    ensures Lose(taken, 4000, t) == Bereft(t, b)
  {
    var after := Lose(taken, 4000, t);
    assert after.peers == Bereft(t, b).peers;
    assert after.sched.tasks == Bereft(t, b).sched.tasks;
  }

  lemma BereftRings(t: IPSocket, b: IPSocket)
    ensures Rung(Bereft(t, b), 4000, 2, b, 1) == Talker(t, b, 3, multiset{Datagram(KEEP_ALIVE, b)})
  {
    assert Rung(Bereft(t, b), 4000, 2, b, 1).sched.tasks == Talker(t, b, 3, multiset{}).sched.tasks;
  }

  lemma TalkerAllows(t: IPSocket, b: IPSocket, n: nat, out: multiset<Datagram>, now: nat, d: nat)
    requires n <= 3 && now + d <= 2000 + 1000 * n
    ensures Talker(t, b, n, out).sched.Allows(now, d)
  {
  }

  lemma ListenerAllows(a: IPSocket, h: nat, out: multiset<Datagram>, now: nat, d: nat)
    requires now + d <= h + 1000
    ensures Listener(a, h, out).sched.Allows(now, d)
  {
  }

  // ---------------------------------------------------------------- the steps

  ghost predicate At2(w: World, run: NetRun, now: nat, a: IPSocket, b: IPSocket, x: Endpoint, y: Endpoint,
                      flight: multiset<Packet>) {
    Reaches(w, run, now, Pair(a, b, x, y), flight)
  }

  /** What b sends in answer. */
  function Answer(w: World, a: IPSocket, b: IPSocket, now: nat, msg: string): multiset<Packet> {
    if msg == KEEP_ALIVE then multiset{Reply(w, a, b, now)} else multiset{}
  }

  lemma ListenStep(w: World, run: NetRun, now: nat, a: IPSocket, b: IPSocket, t: IPSocket, x: Endpoint, y: Endpoint,
                   flight: multiset<Packet>, p: Packet, later: multiset<Packet>)
    returns (next: NetRun, out: multiset<Datagram>)
    requires Apart(w, a, b, t) && At2(w, run, now, a, b, x, y, flight)
    requires y == FRESH || exists h, out :: y == Listener(a, h, out)
    requires p in flight && p.src == a && p.dst == b && (p.msg == KEEP_ALIVE || p.msg == CHAT)
    requires later == flight - multiset{p} + Answer(w, a, b, now, p.msg)
    ensures At2(w, next, now, a, b, x, Listener(a, now, out), later) && Adds(next, run)
  {
    hide Apply, Mail, Reaches, Listener;
    out := if p.msg == KEEP_ALIVE then multiset{Datagram(KEEP_ALIVE_ACK, a)} else multiset{};
    ListenState(y, a, now, p.msg);
    ListenerSends(a, now, out);
    if p.msg == KEEP_ALIVE {
      MailOfOne(w, b, Datagram(KEEP_ALIVE_ACK, a), now + w.delay);
    } else {
      NoMail(w, b, now + w.delay);
    }
    next := ArriveStep(w, run, now, Pair(a, b, x, y), flight, p, Listener(a, now, out), Answer(w, a, b, now, p.msg));
    assert Pair(a, b, x, y)[b := Listener(a, now, out)] == Pair(a, b, x, Listener(a, now, out));
  }

  /** Two copies of a keep-alive come in and are both answered. */
  lemma ListenTwice(w: World, run: NetRun, now: nat, a: IPSocket, b: IPSocket, t: IPSocket, x: Endpoint,
                    h: nat, said: multiset<Datagram>, rest: multiset<Packet>, p: Packet, later: multiset<Packet>)
    returns (next: NetRun, out: multiset<Datagram>)
    requires Apart(w, a, b, t) && p.src == a && p.dst == b && p.msg == KEEP_ALIVE
    requires At2(w, run, now, a, b, x, Listener(a, h, said), rest + multiset{p, p})
    requires later == rest + multiset{Reply(w, a, b, now), Reply(w, a, b, now)}
    ensures At2(w, next, now, a, b, x, Listener(a, now, out), later) && Adds(next, run)
  {
    hide At2, Listener, Adds, Reply;
    var middle := rest + multiset{p, Reply(w, a, b, now)};
    var r1, o1 := ListenStep(w, run, now, a, b, t, x, Listener(a, h, said), rest + multiset{p, p}, p, middle);
    next, out := ListenStep(w, r1, now, a, b, t, x, Listener(a, now, o1), middle, p, later);
    AddsOn(next, r1, run);
  }

  lemma ListenerSends(a: IPSocket, h: nat, out: multiset<Datagram>)
    ensures Listener(a, h, out).outbox == out
  {
  }

  lemma RingStep(w: World, run: NetRun, now: nat, a: IPSocket, b: IPSocket, t: IPSocket, x: Endpoint, y: Endpoint,
                 flight: multiset<Packet>, id: nat, r: IPSocket, left: nat, later: multiset<Packet>)
    returns (next: NetRun)
    requires Apart(w, a, b, t) && At2(w, run, now, a, b, x, y, flight) && (r == b || r == t) && 1 <= left <= 3
    requires id in x.sched.tasks && x.sched.tasks[id] == PingTaskFor(r, now, left)
    requires later == flight + multiset{Ask(w, a, b, now)}
    ensures At2(w, next, now, a, b, Rung(x, now, id, r, left), y, later) && Adds(next, run)
  {
    hide Reaches, Rung;
    next := PingStep(w, run, now, Pair(a, b, x, y), flight, a, id, r, left);
    assert Pair(a, b, x, y)[a := Rung(x, now, id, r, left)] == Pair(a, b, Rung(x, now, id, r, left), y);
  }

  lemma SpeakStep(w: World, run: NetRun, now: nat, a: IPSocket, b: IPSocket, t: IPSocket, x: Endpoint, y: Endpoint,
                  flight: multiset<Packet>, c: Call, after: Endpoint, mail: multiset<Packet>, later: multiset<Packet>)
    returns (next: NetRun)
    requires Apart(w, a, b, t) && At2(w, run, now, a, b, x, y, flight) && (c.Launch? || c == Say(CHAT))
    requires CanCall(x, now, c) && Apply(x, now, c) == after && Mail(w, a, after.outbox, now + w.delay) == mail
    requires later == flight + mail
    ensures At2(w, next, now, a, b, after, y, later) && Adds(next, run)
  {
    hide Apply, Mail, Reaches, CanCall;
    next := CallStepOf(w, run, now, Pair(a, b, x, y), flight, a, c, after, mail);
    assert Pair(a, b, x, y)[a := after] == Pair(a, b, after, y);
  }

  /** a receives something that it does not answer. */
  lemma ReceiveStep(w: World, run: NetRun, now: nat, a: IPSocket, b: IPSocket, t: IPSocket, x: Endpoint, y: Endpoint,
                    flight: multiset<Packet>, p: Packet, after: Endpoint, later: multiset<Packet>)
    returns (next: NetRun)
    requires Apart(w, a, b, t) && At2(w, run, now, a, b, x, y, flight) && p in flight && p.dst == a
    requires Apply(x, now, Deliver(p.src, p.msg)) == after && after.outbox == multiset{}
    requires later == flight - multiset{p}
    ensures At2(w, next, now, a, b, after, y, later) && Adds(next, run)
  {
    hide Apply, Mail, Reaches;
    NoMail(w, a, now + w.delay);
    next := ArriveStep(w, run, now, Pair(a, b, x, y), flight, p, after, multiset{});
    assert Pair(a, b, x, y)[a := after] == Pair(a, b, after, y);
    assert flight - multiset{p} + multiset{} == later;
  }

  lemma IdleStep(w: World, run: NetRun, now: nat, a: IPSocket, b: IPSocket, x: Endpoint, y: Endpoint,
                 flight: multiset<Packet>, d: nat) returns (next: NetRun)
    requires At2(w, run, now, a, b, x, y, flight) && x.sched.Allows(now, d) && y.sched.Allows(now, d)
    requires forall p :: p in flight ==> now + d <= p.deadline
    ensures At2(w, next, now + d, a, b, x, y, flight) && Adds(next, run)
  {
    hide Reaches;
    next := PassStep(w, run, now, Pair(a, b, x, y), flight, d);
  }

  lemma WaitStep(w: World, run: NetRun, now: nat, a: IPSocket, b: IPSocket, t: IPSocket,
                 n: nat, out: multiset<Datagram>, h: nat, said: multiset<Datagram>, flight: multiset<Packet>, d: nat)
    returns (next: NetRun)
    requires At2(w, run, now, a, b, Talker(t, b, n, out), Listener(a, h, said), flight)
    requires n <= 3 && now + d <= 2000 + 1000 * n && now + d <= h + 1000
    requires forall p :: p in flight ==> now + d <= p.deadline
    ensures At2(w, next, now + d, a, b, Talker(t, b, n, out), Listener(a, h, said), flight) && Adds(next, run)
  {
    TalkerAllows(t, b, n, out, now, d);
    ListenerAllows(a, h, said, now, d);
    hide At2, Talker, Listener;
    next := IdleStep(w, run, now, a, b, Talker(t, b, n, out), Listener(a, h, said), flight, d);
  }

  lemma TwoRings(w: World, run: NetRun, now: nat, a: IPSocket, b: IPSocket, t: IPSocket, x: Endpoint, y: Endpoint,
                 flight: multiset<Packet>, left0: nat, left2: nat, after: Endpoint, later: multiset<Packet>)
    returns (next: NetRun)
    requires Apart(w, a, b, t) && At2(w, run, now, a, b, x, y, flight) && 1 <= left0 <= 3 && 1 <= left2 <= 3
    requires 0 in x.sched.tasks && x.sched.tasks[0] == PingTaskFor(t, now, left0)
    requires 2 in x.sched.tasks && x.sched.tasks[2] == PingTaskFor(b, now, left2)
    requires Rung(Rung(x, now, 0, t, left0), now, 2, b, left2) == after
    requires later == flight + multiset{Ask(w, a, b, now), Ask(w, a, b, now)}
    ensures At2(w, next, now, a, b, after, y, later) && Adds(next, run)
  {
    var middle := Rung(x, now, 0, t, left0);
    assert 2 in middle.sched.tasks && middle.sched.tasks[2] == PingTaskFor(b, now, left2);
    hide Rung, At2, Adds;
    var first := RingStep(w, run, now, a, b, t, x, y, flight, 0, t, left0, flight + multiset{Ask(w, a, b, now)});
    next := RingStep(w, first, now, a, b, t, middle, y, flight + multiset{Ask(w, a, b, now)}, 2, b, left2, later);
    AddsOn(next, first, run);
  }

  /** a's two ping tasks run at the same moment, each sending b a keep-alive. */
  lemma TwoAsks(w: World, run: NetRun, a: IPSocket, b: IPSocket, t: IPSocket, n: nat, out: multiset<Datagram>,
                y: Endpoint, flight: multiset<Packet>, later: multiset<Packet>) returns (next: NetRun)
    requires Apart(w, a, b, t) && n < 2
    requires At2(w, run, 2000 + 1000 * n, a, b, Talker(t, b, n, out), y, flight)
    requires later == flight + multiset{Ask(w, a, b, 2000 + 1000 * n), Ask(w, a, b, 2000 + 1000 * n)}
    ensures At2(w, next, 2000 + 1000 * n, a, b, Talker(t, b, n + 1, multiset{Datagram(KEEP_ALIVE, b)}), y, later)
    ensures Adds(next, run)
  {
    hide Rung, At2, Adds;
    TalkerRings(t, b, n, out);
    next := TwoRings(w, run, 2000 + 1000 * n, a, b, t, Talker(t, b, n, out), y, flight, 2 - n, 3 - n,
                     Talker(t, b, n + 1, multiset{Datagram(KEEP_ALIVE, b)}), later);
  }

  // ---------------------------------------------------------------- the run

  /** Both endpoints come up, and a connects t. */
  lemma UntilConnect(w: World, a: IPSocket, b: IPSocket, t: IPSocket) returns (run: NetRun)
    requires Apart(w, a, b, t)
    ensures At2(w, run, 0, a, b, Knowing(t, 1000, 3, 4000, multiset{}), FRESH, multiset{})
    ensures Connects(run) == {t} && Lossless(run)
  {
    run := Start(0, {a, b});
    assert NetState(w, run).eps == Pair(a, b, FRESH, FRESH);
    var after := Knowing(t, 1000, 3, 4000, multiset{});
    ConnectState(t);
    NoMail(w, a, w.delay);
    run := CallStepOf(w, run, 0, Pair(a, b, FRESH, FRESH), multiset{}, a, Connect(t), after, multiset{});
    hide Apply, Reaches, Knowing;
    assert Pair(a, b, FRESH, FRESH)[a := after] == Pair(a, b, after, FRESH);
    var none: multiset<Packet> := multiset{};
    assert none + none == none;
  }

  /** a asks at 1 s, and the question takes no time at all. */
  lemma UntilAnswered(w: World, first: NetRun, a: IPSocket, b: IPSocket, t: IPSocket)
    returns (run: NetRun, out: multiset<Datagram>)
    requires Apart(w, a, b, t) && At2(w, first, 0, a, b, Knowing(t, 1000, 3, 4000, multiset{}), FRESH, multiset{})
    ensures At2(w, run, 1000, a, b, Knowing(t, 2000, 2, 4000, multiset{Datagram(KEEP_ALIVE, t)}),
                Listener(a, 1000, out), multiset{Reply(w, a, b, 1000)})
    ensures Adds(run, first)
  {
    var none: multiset<Packet> := multiset{};
    var x, k := Knowing(t, 1000, 3, 4000, multiset{}), Ask(w, a, b, 1000);
    assert x.sched.Allows(0, 1000) && FRESH.sched.Allows(0, 1000) && x.sched.tasks[0] == PingTaskFor(t, 1000, 3);
    FirstRing(t);
    hide At2, Knowing, Listener, Rung, Adds;
    var r1 := IdleStep(w, first, 0, a, b, x, FRESH, none, 1000);
    var r2 := RingStep(w, r1, 1000, a, b, t, x, FRESH, none, 0, t, 3, multiset{k});
    var z := Knowing(t, 2000, 2, 4000, multiset{Datagram(KEEP_ALIVE, t)});
    run, out := ListenStep(w, r2, 1000, a, b, t, z, FRESH, multiset{k}, k, multiset{Reply(w, a, b, 1000)});
    AddsOn(r2, r1, first);
    AddsOn(run, r2, first);
  }

  /** Nor does the answer. */
  lemma UntilMet(w: World, first: NetRun, a: IPSocket, b: IPSocket, t: IPSocket, asked: multiset<Datagram>, y: Endpoint)
    returns (run: NetRun)
    requires Apart(w, a, b, t)
    requires At2(w, first, 1000, a, b, Knowing(t, 2000, 2, 4000, asked), y, multiset{Reply(w, a, b, 1000)})
    ensures At2(w, run, 1000, a, b, Talker(t, b, 0, multiset{}), y, multiset{}) && Adds(run, first)
  {
    TalkerState(t, b, asked);
    TalkerSends(t, b, 0, multiset{});
    hide Apply, At2, Talker, Knowing;
    var p := Reply(w, a, b, 1000);
    run := ReceiveStep(w, first, 1000, a, b, t, Knowing(t, 2000, 2, 4000, asked), y, multiset{p}, p,
                       Talker(t, b, 0, multiset{}), multiset{});
  }

  lemma TalkerSends(t: IPSocket, b: IPSocket, n: nat, out: multiset<Datagram>)
    ensures Talker(t, b, n, out).outbox == out
  {
  }

  lemma ChatMail(w: World, a: IPSocket, b: IPSocket, t: IPSocket)
    requires Apart(w, a, b, t)
    ensures Mail(w, a, multiset{Datagram(CHAT, t), Datagram(CHAT, b)}, 1000 + w.delay) ==
            multiset{Chat(w, a, b, 1000), Chat(w, a, b, 1000)}
  {
    MailOfTwo(w, a, Datagram(CHAT, t), Datagram(CHAT, b), 1000 + w.delay);
    hide Mail;
  }

  /** a says something, which reaches b once under either key. */
  lemma UntilChat(w: World, first: NetRun, a: IPSocket, b: IPSocket, t: IPSocket, y: Endpoint)
    returns (run: NetRun, said: multiset<Datagram>)
    requires Apart(w, a, b, t) && At2(w, first, 1000, a, b, Talker(t, b, 0, multiset{}), y, multiset{})
    ensures At2(w, run, 1000, a, b, Talker(t, b, 0, said), y, multiset{Chat(w, a, b, 1000), Chat(w, a, b, 1000)})
    ensures Adds(run, first)
  {
    said := multiset{Datagram(CHAT, t), Datagram(CHAT, b)};
    var mail := multiset{Chat(w, a, b, 1000), Chat(w, a, b, 1000)};
    hide Apply, At2, Talker, Mail, Chat;
    ChatState(t, b);
    TalkerSends(t, b, 0, said);
    ChatMail(w, a, b, t);
    run := SpeakStep(w, first, 1000, a, b, t, Talker(t, b, 0, multiset{}), y, multiset{}, Say(CHAT),
                     Talker(t, b, 0, said), mail, mail);
  }

  /** The chat arrives at 2 s and 2.5 s, each time just before b would ask for itself. */
  lemma ChatHolds(w: World, first: NetRun, a: IPSocket, b: IPSocket, t: IPSocket,
                  said: multiset<Datagram>, said0: multiset<Datagram>)
    returns (run: NetRun, out: multiset<Datagram>)
    requires Apart(w, a, b, t) && w.delay >= 1500
    requires At2(w, first, 1000, a, b, Talker(t, b, 0, said), Listener(a, 1000, said0),
                 multiset{Chat(w, a, b, 1000), Chat(w, a, b, 1000)})
    ensures At2(w, run, 2500, a, b, Talker(t, b, 1, multiset{Datagram(KEEP_ALIVE, b)}), Listener(a, 2500, out),
                multiset{Ask(w, a, b, 2000), Ask(w, a, b, 2000)})
    ensures Adds(run, first)
  {
    hide At2, Talker, Listener, Adds;
    var c, k := Chat(w, a, b, 1000), Ask(w, a, b, 2000);
    var asked := multiset{Datagram(KEEP_ALIVE, b)};
    var r1 := WaitStep(w, first, 1000, a, b, t, 0, said, 1000, said0, multiset{c, c}, 1000);
    var r2, o2 := ListenStep(w, r1, 2000, a, b, t, Talker(t, b, 0, said), Listener(a, 1000, said0),
                             multiset{c, c}, c, multiset{c});
    var r3 := TwoAsks(w, r2, a, b, t, 0, said, Listener(a, 2000, o2), multiset{c}, multiset{c, k, k});
    var r4 := WaitStep(w, r3, 2000, a, b, t, 1, asked, 2000, o2, multiset{c, k, k}, 500);
    run, out := ListenStep(w, r4, 2500, a, b, t, Talker(t, b, 1, asked), Listener(a, 2000, o2),
                           multiset{c, k, k}, c, multiset{k, k});
    AddsOn(r2, r1, first);
    AddsOn(r3, r2, first);
    AddsOn(r4, r3, first);
    AddsOn(run, r4, first);
  }

  /** a asks twice at 3 s; its questions of 2 s arrive at 3.5 s and are answered. */
  lemma FirstAnswers(w: World, first: NetRun, a: IPSocket, b: IPSocket, t: IPSocket, said0: multiset<Datagram>)
    returns (run: NetRun, out: multiset<Datagram>)
    requires Apart(w, a, b, t) && w.delay >= 1500
    requires At2(w, first, 2500, a, b, Talker(t, b, 1, multiset{Datagram(KEEP_ALIVE, b)}), Listener(a, 2500, said0),
                 multiset{Ask(w, a, b, 2000), Ask(w, a, b, 2000)})
    ensures At2(w, run, 3500, a, b, Talker(t, b, 2, multiset{Datagram(KEEP_ALIVE, b)}), Listener(a, 3500, out),
                multiset{Ask(w, a, b, 3000), Ask(w, a, b, 3000), Reply(w, a, b, 3500), Reply(w, a, b, 3500)})
    ensures Adds(run, first)
  {
    hide At2, Talker, Listener, Adds;
    var k, m, r := Ask(w, a, b, 2000), Ask(w, a, b, 3000), Reply(w, a, b, 3500);
    var asked := multiset{Datagram(KEEP_ALIVE, b)};
    var r1 := WaitStep(w, first, 2500, a, b, t, 1, asked, 2500, said0, multiset{k, k}, 500);
    var r2 := TwoAsks(w, r1, a, b, t, 1, asked, Listener(a, 2500, said0), multiset{k, k},
                      multiset{m, m} + multiset{k, k});
    var r3 := WaitStep(w, r2, 3000, a, b, t, 2, asked, 2500, said0, multiset{m, m} + multiset{k, k}, 500);
    run, out := ListenTwice(w, r3, 3500, a, b, t, Talker(t, b, 2, asked), 2500, said0, multiset{m, m}, k,
                            multiset{m, m, r, r});
    AddsOn(r2, r1, first);
    AddsOn(r3, r2, first);
    AddsOn(run, r3, first);
  }

  /** At 4 s a gives t up and sends b the last keep-alive. */
  lemma LastAsk(w: World, first: NetRun, a: IPSocket, b: IPSocket, t: IPSocket, y: Endpoint, flight: multiset<Packet>)
    returns (run: NetRun)
    requires Apart(w, a, b, t)
    requires At2(w, first, 4000, a, b, Talker(t, b, 2, multiset{Datagram(KEEP_ALIVE, b)}), y, flight)
    ensures At2(w, run, 4000, a, b, Talker(t, b, 3, multiset{Datagram(KEEP_ALIVE, b)}), y,
                flight + multiset{Ask(w, a, b, 4000)})
    ensures Adds(run, first)
  {
    var x, z := Talker(t, b, 2, multiset{Datagram(KEEP_ALIVE, b)}), Bereft(t, b);
    BereftState(t, b, multiset{Datagram(KEEP_ALIVE, b)});
    BereftRings(t, b);
    NoMail(w, a, 4000 + w.delay);
    assert z.outbox == multiset{} && z.sched.tasks[2] == PingTaskFor(b, 4000, 1);
    hide Apply, At2, Talker, Bereft, Rung, CanCall, Mail, Adds;
    var lost := SpeakStep(w, first, 4000, a, b, t, x, y, flight, Launch(1), z, multiset{}, flight);
    run := RingStep(w, lost, 4000, a, b, t, z, y, flight, 2, b, 1, flight + multiset{Ask(w, a, b, 4000)});
    AddsOn(run, lost, first);
  }

  /** What is in flight at 3.5 s. */
  function OnTheWay(w: World, a: IPSocket, b: IPSocket): multiset<Packet> {
    multiset{Ask(w, a, b, 3000), Ask(w, a, b, 3000), Reply(w, a, b, 3500), Reply(w, a, b, 3500)}
  }

  /** What is in flight at 4 s and not yet due at 4.5 s. */
  function Later(w: World, a: IPSocket, b: IPSocket): multiset<Packet> {
    multiset{Reply(w, a, b, 3500), Reply(w, a, b, 3500), Ask(w, a, b, 4000)}
  }

  /** What is in flight at 5 s. */
  function AtTheEnd(w: World, a: IPSocket, b: IPSocket): multiset<Packet> {
    Later(w, a, b) + multiset{Reply(w, a, b, 4500), Reply(w, a, b, 4500)}
  }

  lemma Flights(w: World, a: IPSocket, b: IPSocket)
    requires w.delay >= 1500
    ensures OnTheWay(w, a, b) + multiset{Ask(w, a, b, 4000)} ==
            Later(w, a, b) + multiset{Ask(w, a, b, 3000), Ask(w, a, b, 3000)}
    ensures forall p :: p in OnTheWay(w, a, b) ==> 4000 <= p.deadline
    ensures forall p :: p in OnTheWay(w, a, b) + multiset{Ask(w, a, b, 4000)} ==> 4500 <= p.deadline
    ensures forall p :: p in AtTheEnd(w, a, b) ==> 5000 <= p.deadline
  {
  }

  /** The second questions arrive at 4.5 s, and a's last is on its way. */
  lemma LastAnswers(w: World, first: NetRun, a: IPSocket, b: IPSocket, t: IPSocket,
                    x: Endpoint, said0: multiset<Datagram>)
    returns (run: NetRun, out: multiset<Datagram>)
    requires Apart(w, a, b, t)
    requires At2(w, first, 4500, a, b, x, Listener(a, 3500, said0),
                 Later(w, a, b) + multiset{Ask(w, a, b, 3000), Ask(w, a, b, 3000)})
    ensures At2(w, run, 4500, a, b, x, Listener(a, 4500, out), AtTheEnd(w, a, b)) && Adds(run, first)
  {
    hide At2, Listener, Adds, Reply, Later;
    run, out := ListenTwice(w, first, 4500, a, b, t, x, 3500, said0, Later(w, a, b), Ask(w, a, b, 3000),
                            AtTheEnd(w, a, b));
  }

  /** At 5 s the answers of 3.5 s are still on their way. */
  lemma UntilLoss(w: World, first: NetRun, a: IPSocket, b: IPSocket, t: IPSocket, said0: multiset<Datagram>)
    returns (run: NetRun, out: multiset<Datagram>)
    requires Apart(w, a, b, t) && w.delay >= 1500
    requires At2(w, first, 3500, a, b, Talker(t, b, 2, multiset{Datagram(KEEP_ALIVE, b)}), Listener(a, 3500, said0),
                 OnTheWay(w, a, b))
    ensures At2(w, run, 5000, a, b, Talker(t, b, 3, multiset{Datagram(KEEP_ALIVE, b)}), Listener(a, 4500, out),
                AtTheEnd(w, a, b))
    ensures Adds(run, first)
  {
    hide At2, Talker, Listener, Adds, OnTheWay, Later, AtTheEnd, Ask;
    Flights(w, a, b);
    var asked := multiset{Datagram(KEEP_ALIVE, b)};
    var flight := OnTheWay(w, a, b) + multiset{Ask(w, a, b, 4000)};
    var r1 := WaitStep(w, first, 3500, a, b, t, 2, asked, 3500, said0, OnTheWay(w, a, b), 500);
    var r2 := LastAsk(w, r1, a, b, t, Listener(a, 3500, said0), OnTheWay(w, a, b));
    var r3 := WaitStep(w, r2, 4000, a, b, t, 3, asked, 3500, said0, flight, 500);
    var r4;
    r4, out := LastAnswers(w, r3, a, b, t, Talker(t, b, 3, asked), said0);
    run := WaitStep(w, r4, 4500, a, b, t, 3, asked, 4500, out, AtTheEnd(w, a, b), 500);
    AddsOn(r2, r1, first);
    AddsOn(r3, r2, first);
    AddsOn(r4, r3, first);
    AddsOn(run, r4, first);
  }

  /** All of it together. */
  lemma WholeRun(w: World, a: IPSocket, b: IPSocket, t: IPSocket) returns (run: NetRun, out: multiset<Datagram>)
    requires Apart(w, a, b, t) && w.delay >= 1500
    ensures At2(w, run, 5000, a, b, Talker(t, b, 3, multiset{Datagram(KEEP_ALIVE, b)}), Listener(a, 4500, out),
                AtTheEnd(w, a, b))
    ensures Connects(run) == {t} && Lossless(run)
  {
    hide At2, Talker, Listener, Knowing, Adds, Connects, Lossless;
    var asked := multiset{Datagram(KEEP_ALIVE, t)};
    var first := UntilConnect(w, a, b, t);
    var r1, o1 := UntilAnswered(w, first, a, b, t);
    var r2 := UntilMet(w, r1, a, b, t, asked, Listener(a, 1000, o1));
    var r3, said := UntilChat(w, r2, a, b, t, Listener(a, 1000, o1));
    var r4, o4 := ChatHolds(w, r3, a, b, t, said, o1);
    var r5, o5 := FirstAnswers(w, r4, a, b, t, o4);
    run, out := UntilLoss(w, r5, a, b, t, o5);
    AddsOn(r2, r1, first);
    AddsOn(r3, r2, first);
    AddsOn(r4, r3, first);
    AddsOn(r5, r4, first);
    AddsOn(run, r5, first);
    NothingConnectedSince(w, run, first);
  }

  // ---------------------------------------------------------------- the bound is exact

  /** Some endpoint can run a comm-lost task for a live peer of its table. */
  ghost predicate GivesUpLive(n: Net) {
    exists a, b, id :: a in n.eps && b in n.eps && CanGiveUp(n, a, b, id)
  }

  predicate CanGiveUp(n: Net, a: IPSocket, b: IPSocket, id: nat)
    requires a in n.eps
  {
    b in n.eps[a].peers && Launchable(n, a, id) && n.eps[a].sched.tasks[id].action == CommLost(b)
  }

  /** Users connect only keys that are not decoded addresses, and the network loses nothing. */
  predicate Ordinary(w: World, run: NetRun) {
    Lossless(run) && forall r :: r in Connects(run) ==> w.route(r) != r
  }

  /** On a network that is not fast, any two endpoints can come to the point where one gives up the
      other although it is alive and has answered all that reached it. Only t was ever connected: the
      peer that is lost has come into the table by being heard. */
  lemma SlowNetworkLosesLivePeer(w: World, a: IPSocket, b: IPSocket, t: IPSocket) returns (run: NetRun)
    requires Apart(w, a, b, t) && w.tries == 1 && !Fast(w)
    ensures ValidRun(w, run) && Lossless(run) && Connects(run) == {t}
    ensures var n := NetState(w, run);
            && a in n.eps && b in n.eps && CanGiveUp(n, a, b, 3)
            && CanHappen(n, At(a, Launch(3))) && b !in After(w, n, At(a, Launch(3))).eps[a].peers
  {
    hide Adds, After, ValidRun, Lossless, Connects;
    var out;
    run, out := WholeRun(w, a, b, t);
    GivenUp(w, NetState(w, run), a, b, 3);
  }

  lemma GivenUp(w: World, n: Net, a: IPSocket, b: IPSocket, id: nat)
    requires a in n.eps && CanGiveUp(n, a, b, id)
    ensures CanHappen(n, At(a, Launch(id))) && b !in After(w, n, At(a, Launch(id))).eps[a].peers
  {
    hide Mail;
  }

  /** On a network that loses nothing, one period and a round trip shorter than the time to loss is
      exactly what it takes for no live peer ever to be given up; no less is enough even if users
      connect only what they can type. */
  lemma LiveAreSafeIffFast(w: World, a: IPSocket, b: IPSocket, t: IPSocket)
    requires Apart(w, a, b, t) && w.tries == 1
    ensures Fast(w) <==> forall run :: ValidRun(w, run) && Lossless(run) ==> !GivesUpLive(NetState(w, run))
    ensures Fast(w) <==> forall run :: ValidRun(w, run) && Ordinary(w, run) ==> !GivesUpLive(NetState(w, run))
  {
    if Fast(w) {
      forall run | ValidRun(w, run)
        ensures !GivesUpLive(NetState(w, run))
      {
        FastNeverGivesUp(w, run);
      }
    } else {
      var run := SlowNetworkLosesLivePeer(w, a, b, t);
      assert GivesUpLive(NetState(w, run)) && Ordinary(w, run);
    }
  }

  lemma FastNeverGivesUp(w: World, run: NetRun)
    requires Fast(w) && ValidRun(w, run)
    ensures !GivesUpLive(NetState(w, run))
  {
    var n := NetState(w, run);
    hide NetState, ValidRun, Fast;
    if x, y, id :| x in n.eps && y in n.eps && CanGiveUp(n, x, y, id) {
      NoLiveRemoteIsLost(w, run, x, id, y);
    }
  }

  // ---------------------------------------------------------------- real addresses

  /** The network as sockets see it: a datagram sent to a key arrives from where the key leads. */
  function Real(inet: Inet, delay: nat): World {
    World(delay, s => Route(inet, s), 1)
  }

  /** The key a user types for b. */
  function Typed(inet: Inet, b: IPSocket): IPSocket {
    FromText(inet, CStr(b.addr), b.port)
  }

  /** What the user types for a decoded address leads there, and is another key. */
  lemma TypedLeadsThere(inet: Inet, b: IPSocket)
    requires Lawful(inet) && Decoded(inet, b)
    ensures Route(inet, Typed(inet, b)) == b && Typed(inet, b) != b && NUL !in Typed(inet, b).addr
  {
    var text := inet.ntop(b.family, AddressOf(inet, b).value);
    CStrOfPadded(text, TextLen(b.family));
    var t := Typed(inet, b);
    CStrOfText(text);
    assert t.family == b.family && SameEndpoint(inet, t, b);
    RouteIsCanonical(inet, t);
    DecodedKeysEqualIff(inet, Route(inet, t), b);
    TextKeyIsNotDecoded(inet, t, b);
  }

  lemma {:induction false} CStrOfText(t: string)
    requires NUL !in t
    ensures CStr(t) == t
  {
    if t != [] {
      CStrOfText(t[1..]);
    }
  }

  /** For real addresses: between any two endpoints, live peers are safe from users who connect what
      they type exactly when one period and a round trip are shorter than the time to loss. */
  lemma TypedAreSafeIffFast(inet: Inet, delay: nat, a: IPSocket, b: IPSocket)
    requires Lawful(inet) && Decoded(inet, a) && Decoded(inet, b) && a != b
    ensures var w := Real(inet, delay);
            KEEP_ALIVE_PERIOD + 2 * delay < COMM_LOST_DELAY <==>
            forall run :: ValidRun(w, run) && Ordinary(w, run) ==> !GivesUpLive(NetState(w, run))
  {
    RouteIsCanonical(inet, a);
    RouteIsCanonical(inet, b);
    TypedLeadsThere(inet, b);
    LiveAreSafeIffFast(Real(inet, delay), a, b, Typed(inet, b));
  }
}
