/**
 What the three keep-alives are for. `UdpNetwork` shows that a peer survives if one of every `tries`
 exchanges gets through and the last of them is in time; here, that this is exactly what it takes, for
 one, two or three tries: on a network that is any slower the exchanges that get through come too late.
 */
module UdpLosses {
  import opened IPSockets
  import opened Scheduling
  import opened UdpEndpoint
  import opened UdpInvariants
  import opened UdpRuns
  import opened UdpOrphans
  import opened UdpNetwork
  import opened UdpDraining
  import opened UdpExamples
  import opened UdpTightness

  /** Endpoint b, which heard a at 1 s, has sent it n keep-alives since. */
  function Waiter(a: IPSocket, n: nat, out: multiset<Datagram>): Endpoint {
    if n < 3 then Knowing(a, 2000 + 1000 * n, 3 - n, 5000, out)
    else Endpoint(map[a := Peer(Weak(0), Weak(1))], Schedule(map[1 := LostTaskFor(a, 5000)], 2), out)
  }

  /** A keep-alive from b to a, sent at s. */
  function Back(w: World, a: IPSocket, b: IPSocket, s: nat): Packet {
    Packet(b, a, KEEP_ALIVE, s + w.delay)
  }

  lemma WaiterRings(a: IPSocket, n: nat, out: multiset<Datagram>)
    requires n < 3
    ensures Rung(Waiter(a, n, out), 2000 + 1000 * n, 0, a, 3 - n) ==
            Waiter(a, n + 1, multiset{Datagram(KEEP_ALIVE, a)})
  {
    assert Rung(Waiter(a, n, out), 2000 + 1000 * n, 0, a, 3 - n).sched.tasks == Waiter(a, n + 1, out).sched.tasks;
  }

  lemma WaiterAllows(a: IPSocket, n: nat, out: multiset<Datagram>, now: nat, d: nat)
    requires n <= 3 && now + d <= 2000 + 1000 * n
    ensures Waiter(a, n, out).sched.Allows(now, d)
  {
  }

  // ---------------------------------------------------------------- what may be lost

  lemma SparesBoth(w: World, a: IPSocket, b: IPSocket, t: IPSocket, now: nat, x: Endpoint, y: Endpoint,
                   flight: multiset<Packet>, p: Packet)
    requires Apart(w, a, b, t) && x.peers.Keys <= {t, b} && y.peers.Keys == {a}
    requires b in x.peers && Watched(x, b) && Assured(w, x, flight - multiset{p}, a, b)
    requires Watched(y, a) && Assured(w, y, flight - multiset{p}, b, a)
    ensures Spares(w, Net(now, Pair(a, b, x, y), flight), p)
  {
    hide Assured, Watched;
    assert t != a;
  }

  lemma TalkerWatches(w: World, t: IPSocket, b: IPSocket, n: nat, out: multiset<Datagram>)
    requires t != b && n <= 3
    ensures var x := Talker(t, b, n, out);
            && x.peers.Keys <= {t, b} && b in x.peers && Watched(x, b) && Deadline(x, b) == 5000
            && (n < 3 && n < w.tries ==> TriesLeft(w, x, b))
  {
  }

  lemma WaiterWatches(w: World, a: IPSocket, n: nat, out: multiset<Datagram>)
    requires n <= 3
    ensures var y := Waiter(a, n, out);
            && y.peers.Keys == {a} && Watched(y, a) && Deadline(y, a) == 5000
            && (n < 3 && n < w.tries ==> TriesLeft(w, y, a))
  {
  }

  /** While both have keep-alives to send, anything may be lost. */
  lemma SparesEarly(w: World, a: IPSocket, b: IPSocket, t: IPSocket, now: nat, n: nat, out: multiset<Datagram>,
                    said: multiset<Datagram>, flight: multiset<Packet>, p: Packet)
    requires Apart(w, a, b, t) && n < 3 && n < w.tries
    ensures Spares(w, Net(now, Pair(a, b, Talker(t, b, n, out), Waiter(a, n, said)), flight), p)
  {
    TalkerWatches(w, t, b, n, out);
    WaiterWatches(w, a, n, said);
    hide Talker, Waiter, TriesLeft, Watched;
    SparesBoth(w, a, b, t, now, Talker(t, b, n, out), Waiter(a, n, said), flight, p);
  }

  /** While a's keep-alive of its last try is in flight, anything else may be lost. */
  lemma SparesLate(w: World, a: IPSocket, b: IPSocket, t: IPSocket, n: nat, out: multiset<Datagram>,
                   said: multiset<Datagram>, flight: multiset<Packet>, p: Packet)
    requires Apart(w, a, b, t) && 1 <= n <= 3 && n == w.tries
    requires Ask(w, a, b, 1000 + 1000 * n) in flight - multiset{p}
    ensures Spares(w, Net(1000 + 1000 * n, Pair(a, b, Talker(t, b, n, out), Waiter(a, n, said)), flight), p)
  {
    TalkerWatches(w, t, b, n, out);
    WaiterWatches(w, a, n, said);
    var q := Ask(w, a, b, 1000 + 1000 * n);
    assert Asks(w, a, b, 5000, q) && Tells(w, b, a, 5000, q);
    hide Talker, Waiter, TriesLeft, Watched, Asks, Tells;
    SparesBoth(w, a, b, t, 1000 + 1000 * n, Talker(t, b, n, out), Waiter(a, n, said), flight, p);
  }

  // ---------------------------------------------------------------- the steps

  lemma DropStep(w: World, run: NetRun, now: nat, a: IPSocket, b: IPSocket, t: IPSocket, x: Endpoint, y: Endpoint,
                 flight: multiset<Packet>, p: Packet, later: multiset<Packet>) returns (next: NetRun)
    requires Apart(w, a, b, t) && At2(w, run, now, a, b, x, y, flight) && p in flight && (p.dst == a || p.dst == b)
    requires Spares(w, Net(now, Pair(a, b, x, y), flight), p) && later == flight - multiset{p}
    ensures At2(w, next, now, a, b, x, y, later) && Connects(next) == Connects(run)
  {
    hide ValidRun, NetState, Spares;
    next := Next(run, Drop(p));
    Continued(w, run, Net(now, Pair(a, b, x, y), flight), Drop(p), Net(now, Pair(a, b, x, y), later));
  }

  lemma BackStep(w: World, run: NetRun, now: nat, a: IPSocket, b: IPSocket, t: IPSocket, x: Endpoint, y: Endpoint,
                 flight: multiset<Packet>, left: nat, after: Endpoint, later: multiset<Packet>) returns (next: NetRun)
    requires Apart(w, a, b, t) && At2(w, run, now, a, b, x, y, flight) && 1 <= left <= 3
    requires 0 in y.sched.tasks && y.sched.tasks[0] == PingTaskFor(a, now, left)
    requires Rung(y, now, 0, a, left) == after && later == flight + multiset{Back(w, a, b, now)}
    ensures At2(w, next, now, a, b, x, after, later) && Adds(next, run)
  {
    hide Reaches, Rung;
    next := PingStep(w, run, now, Pair(a, b, x, y), flight, b, 0, a, left);
    assert Pair(a, b, x, y)[b := after] == Pair(a, b, x, after);
  }

  lemma WaiterStep(w: World, run: NetRun, a: IPSocket, b: IPSocket, t: IPSocket, n: nat, x: Endpoint,
                   said: multiset<Datagram>, flight: multiset<Packet>, later: multiset<Packet>) returns (next: NetRun)
    requires Apart(w, a, b, t) && n < 3
    requires At2(w, run, 2000 + 1000 * n, a, b, x, Waiter(a, n, said), flight)
    requires later == flight + multiset{Back(w, a, b, 2000 + 1000 * n)}
    ensures At2(w, next, 2000 + 1000 * n, a, b, x, Waiter(a, n + 1, multiset{Datagram(KEEP_ALIVE, a)}), later)
    ensures Connects(next) == Connects(run)
  {
    WaiterRings(a, n, said);
    assert Waiter(a, n, said).sched.tasks[0] == PingTaskFor(a, 2000 + 1000 * n, 3 - n);
    hide At2, Rung, Waiter, Back, Adds, Connects;
    next := BackStep(w, run, 2000 + 1000 * n, a, b, t, x, Waiter(a, n, said), flight, 3 - n,
                     Waiter(a, n + 1, multiset{Datagram(KEEP_ALIVE, a)}), later);
    NothingConnectedSince(w, next, run);
  }

  /** A second passes. */
  lemma SecondPasses(w: World, run: NetRun, a: IPSocket, b: IPSocket, t: IPSocket, n: nat, out: multiset<Datagram>,
                     said: multiset<Datagram>, flight: multiset<Packet>) returns (next: NetRun)
    requires At2(w, run, 1000 + 1000 * n, a, b, Talker(t, b, n, out), Waiter(a, n, said), flight) && n < 3
    requires forall p :: p in flight ==> 2000 + 1000 * n <= p.deadline
    ensures At2(w, next, 2000 + 1000 * n, a, b, Talker(t, b, n, out), Waiter(a, n, said), flight)
    ensures Connects(next) == Connects(run)
  {
    TalkerAllows(t, b, n, out, 1000 + 1000 * n, 1000);
    WaiterAllows(a, n, said, 1000 + 1000 * n, 1000);
    hide At2, Talker, Waiter;
    next := IdleStep(w, run, 1000 + 1000 * n, a, b, Talker(t, b, n, out), Waiter(a, n, said), flight, 1000);
    NothingConnectedSince(w, next, run);
  }

  /** All three endpoints' keep-alives of one second: a's to t and to b, and b's to a. */
  lemma AllAsk(w: World, run: NetRun, a: IPSocket, b: IPSocket, t: IPSocket, n: nat, out: multiset<Datagram>,
               said: multiset<Datagram>) returns (next: NetRun)
    requires Apart(w, a, b, t) && n < 2
    requires At2(w, run, 2000 + 1000 * n, a, b, Talker(t, b, n, out), Waiter(a, n, said), multiset{})
    ensures var k := Ask(w, a, b, 2000 + 1000 * n);
            At2(w, next, 2000 + 1000 * n, a, b, Talker(t, b, n + 1, multiset{Datagram(KEEP_ALIVE, b)}),
                Waiter(a, n + 1, multiset{Datagram(KEEP_ALIVE, a)}), multiset{k, k, Back(w, a, b, 2000 + 1000 * n)})
    ensures Connects(next) == Connects(run)
  {
    hide At2, Talker, Waiter, Ask, Back, Adds, Connects;
    var k := Ask(w, a, b, 2000 + 1000 * n);
    var r1 := TwoAsks(w, run, a, b, t, n, out, Waiter(a, n, said), multiset{}, multiset{k, k});
    NothingConnectedSince(w, r1, run);
    next := WaiterStep(w, r1, a, b, t, n, Talker(t, b, n + 1, multiset{Datagram(KEEP_ALIVE, b)}), said, multiset{k, k},
                       multiset{k, k, Back(w, a, b, 2000 + 1000 * n)});
  }

  /** A second in which all keep-alives are lost. */
  lemma FailedSecond(w: World, run: NetRun, a: IPSocket, b: IPSocket, t: IPSocket, n: nat, out: multiset<Datagram>,
                     said: multiset<Datagram>) returns (next: NetRun)
    requires Apart(w, a, b, t) && n < 2 && n + 1 < w.tries
    requires At2(w, run, 1000 + 1000 * n, a, b, Talker(t, b, n, out), Waiter(a, n, said), multiset{})
    ensures At2(w, next, 2000 + 1000 * n, a, b, Talker(t, b, n + 1, multiset{Datagram(KEEP_ALIVE, b)}),
                Waiter(a, n + 1, multiset{Datagram(KEEP_ALIVE, a)}), multiset{})
    ensures Connects(next) == Connects(run)
  {
    var now, k, l := 2000 + 1000 * n, Ask(w, a, b, 2000 + 1000 * n), Back(w, a, b, 2000 + 1000 * n);
    var asked, back := multiset{Datagram(KEEP_ALIVE, b)}, multiset{Datagram(KEEP_ALIVE, a)};
    var x, y := Talker(t, b, n + 1, asked), Waiter(a, n + 1, back);
    assert k.dst == b && l.dst == a;
    hide At2, Talker, Waiter, Ask, Back, Spares, Connects;
    SparesEarly(w, a, b, t, now, n + 1, asked, back, multiset{k, k, l}, k);
    SparesEarly(w, a, b, t, now, n + 1, asked, back, multiset{k, l}, k);
    SparesEarly(w, a, b, t, now, n + 1, asked, back, multiset{l}, l);
    var r1 := SecondPasses(w, run, a, b, t, n, out, said, multiset{});
    var r2 := AllAsk(w, r1, a, b, t, n, out, said);
    var r3 := DropStep(w, r2, now, a, b, t, x, y, multiset{k, k, l}, k, multiset{k, l});
    var r4 := DropStep(w, r3, now, a, b, t, x, y, multiset{k, l}, k, multiset{l});
    next := DropStep(w, r4, now, a, b, t, x, y, multiset{l}, l, multiset{});
  }

  // ---------------------------------------------------------------- two tries

  lemma HeardStep(w: World, run: NetRun, now: nat, a: IPSocket, b: IPSocket, t: IPSocket, x: Endpoint, y: Endpoint,
                  flight: multiset<Packet>, p: Packet, after: Endpoint, later: multiset<Packet>) returns (next: NetRun)
    requires Apart(w, a, b, t) && At2(w, run, now, a, b, x, y, flight) && p in flight
    requires p.src == a && p.dst == b && p.msg == KEEP_ALIVE && Apply(y, now, Deliver(a, KEEP_ALIVE)) == after
    requires later == flight - multiset{p} + multiset{Reply(w, a, b, now)}
    ensures At2(w, next, now, a, b, x, after, later) && Connects(next) == Connects(run)
  {
    AnswerToMessage(y, now, a, KEEP_ALIVE);
    hide Apply, Mail, Reaches;
    MailOfOne(w, b, Datagram(KEEP_ALIVE_ACK, a), now + w.delay);
    next := ArriveStep(w, run, now, Pair(a, b, x, y), flight, p, after, multiset{Reply(w, a, b, now)});
    assert Pair(a, b, x, y)[b := after] == Pair(a, b, x, after);
  }

  /** b hears a when it still has a keep-alive to send. */
  lemma WaiterHears(a: IPSocket, said: multiset<Datagram>)
    ensures Apply(Waiter(a, 2, said), 4000, Deliver(a, KEEP_ALIVE)) ==
            Listener(a, 4000, multiset{Datagram(KEEP_ALIVE_ACK, a)})
  {
    var after := Apply(Waiter(a, 2, said), 4000, Deliver(a, KEEP_ALIVE));
    AnswerToMessage(Waiter(a, 2, said), 4000, a, KEEP_ALIVE);
    assert after.sched.tasks == Listener(a, 4000, multiset{}).sched.tasks;
  }

  /** Where both stand at 1 s: they have just heard each other. */
  lemma UntilFirstHeard(w: World, a: IPSocket, b: IPSocket, t: IPSocket) returns (run: NetRun, out: multiset<Datagram>)
    requires Apart(w, a, b, t)
    ensures At2(w, run, 1000, a, b, Talker(t, b, 0, multiset{}), Waiter(a, 0, out), multiset{}) && Connects(run) == {t}
  {
    hide At2, Talker, Knowing, Adds, Connects;
    var first := UntilConnect(w, a, b, t);
    var answered;
    answered, out := UntilAnswered(w, first, a, b, t);
    run := UntilMet(w, answered, a, b, t, multiset{Datagram(KEEP_ALIVE, t)}, Listener(a, 1000, out));
    AddsOn(run, answered, first);
    NothingConnectedSince(w, run, first);
  }

  /** In the second of the last try anything is lost but one keep-alive of a's. */
  lemma LateDrop(w: World, run: NetRun, a: IPSocket, b: IPSocket, t: IPSocket, n: nat, out: multiset<Datagram>,
                 said: multiset<Datagram>, flight: multiset<Packet>, p: Packet, later: multiset<Packet>)
    returns (next: NetRun)
    requires Apart(w, a, b, t) && 1 <= n <= 3 && n == w.tries
    requires At2(w, run, 1000 + 1000 * n, a, b, Talker(t, b, n, out), Waiter(a, n, said), flight)
    requires p in flight && later == flight - multiset{p} && Ask(w, a, b, 1000 + 1000 * n) in later
    requires p == Ask(w, a, b, 1000 + 1000 * n) || p == Back(w, a, b, 1000 + 1000 * n)
    ensures At2(w, next, 1000 + 1000 * n, a, b, Talker(t, b, n, out), Waiter(a, n, said), later)
    ensures Connects(next) == Connects(run)
  {
    hide At2, Talker, Waiter, Spares, Connects;
    SparesLate(w, a, b, t, n, out, said, flight, p);
    next := DropStep(w, run, 1000 + 1000 * n, a, b, t, Talker(t, b, n, out), Waiter(a, n, said), flight, p, later);
  }

  lemma AskIsNotBack(w: World, a: IPSocket, b: IPSocket, t: IPSocket, s: nat)
    requires Apart(w, a, b, t)
    ensures Ask(w, a, b, s) != Back(w, a, b, s)
  {
  }

  /** The exchange of 2 s fails; of that of 3 s one keep-alive gets through. */
  lemma SecondTry(w: World, run: NetRun, a: IPSocket, b: IPSocket, t: IPSocket, out: multiset<Datagram>)
    returns (next: NetRun)
    requires Apart(w, a, b, t) && w.tries == 2
    requires At2(w, run, 1000, a, b, Talker(t, b, 0, multiset{}), Waiter(a, 0, out), multiset{})
    ensures At2(w, next, 3000, a, b, Talker(t, b, 2, multiset{Datagram(KEEP_ALIVE, b)}),
                Waiter(a, 2, multiset{Datagram(KEEP_ALIVE, a)}), multiset{Ask(w, a, b, 3000)})
    ensures Connects(next) == Connects(run)
  {
    hide At2, Talker, Waiter, Ask, Back, Connects;
    var asked, back := multiset{Datagram(KEEP_ALIVE, b)}, multiset{Datagram(KEEP_ALIVE, a)};
    var k, l := Ask(w, a, b, 3000), Back(w, a, b, 3000);
    AskIsNotBack(w, a, b, t, 3000);
    var r1 := FailedSecond(w, run, a, b, t, 0, multiset{}, out);
    var r2 := SecondPasses(w, r1, a, b, t, 1, asked, back, multiset{});
    var r3 := AllAsk(w, r2, a, b, t, 1, asked, back);
    var r4 := LateDrop(w, r3, a, b, t, 2, asked, back, multiset{k, k, l}, k, multiset{k, l});
    next := LateDrop(w, r4, a, b, t, 2, asked, back, multiset{k, l}, l, multiset{k});
  }


  /** It arrives at 4 s; at 5 s its answer does not. */
  lemma SecondTryIsLate(w: World, run: NetRun, a: IPSocket, b: IPSocket, t: IPSocket)
    returns (next: NetRun, flight: multiset<Packet>, y: Endpoint)
    requires Apart(w, a, b, t) && w.delay >= 1000
    requires At2(w, run, 3000, a, b, Talker(t, b, 2, multiset{Datagram(KEEP_ALIVE, b)}),
                 Waiter(a, 2, multiset{Datagram(KEEP_ALIVE, a)}), multiset{Ask(w, a, b, 3000)})
    ensures At2(w, next, 5000, a, b, Talker(t, b, 3, multiset{Datagram(KEEP_ALIVE, b)}), y, flight)
    ensures Connects(next) == Connects(run)
  {
    var k, r, l := Ask(w, a, b, 3000), Reply(w, a, b, 4000), Ask(w, a, b, 4000);
    var asked, back := multiset{Datagram(KEEP_ALIVE, b)}, multiset{Datagram(KEEP_ALIVE, a)};
    y, flight := Listener(a, 4000, multiset{Datagram(KEEP_ALIVE_ACK, a)}), multiset{r} + multiset{l};
    TalkerAllows(t, b, 3, asked, 4000, 1000);
    ListenerAllows(a, 4000, multiset{Datagram(KEEP_ALIVE_ACK, a)}, 4000, 1000);
    WaiterHears(a, back);
    hide At2, Apply, Talker, Waiter, Listener, Connects, Adds;
    var r1 := SecondPasses(w, run, a, b, t, 2, asked, back, multiset{k});
    var r2 := HeardStep(w, r1, 4000, a, b, t, Talker(t, b, 2, asked), Waiter(a, 2, back),
                        multiset{k}, k, y, multiset{r});
    var r3 := LastAsk(w, r2, a, b, t, y, multiset{r});
    next := IdleStep(w, r3, 4000, a, b, Talker(t, b, 3, asked), y, flight, 1000);
    NothingConnectedSince(w, r3, r2);
    NothingConnectedSince(w, next, r3);
  }

  // ---------------------------------------------------------------- three tries

  /** b at 4.5 s, heard after its last keep-alive. */
  function Late(a: IPSocket): Endpoint {
    Endpoint(map[a := Peer(Weak(2), Weak(1))],
             Schedule(map[1 := LostTaskFor(a, 8500), 2 := PingTaskFor(a, 5500, 3)], 3),
             multiset{Datagram(KEEP_ALIVE_ACK, a)})
  }

  lemma LateHears(a: IPSocket, said: multiset<Datagram>)
    ensures Apply(Waiter(a, 3, said), 4500, Deliver(a, KEEP_ALIVE)) == Late(a)
  {
    var after := Apply(Waiter(a, 3, said), 4500, Deliver(a, KEEP_ALIVE));
    AnswerToMessage(Waiter(a, 3, said), 4500, a, KEEP_ALIVE);
    assert after.sched.tasks == Late(a).sched.tasks && after.peers == Late(a).peers;
  }

  /** The exchanges of 2 s and 3 s fail; a's keep-alive of 4 s gets through. */
  lemma ThirdTry(w: World, run: NetRun, a: IPSocket, b: IPSocket, t: IPSocket, out: multiset<Datagram>)
    returns (next: NetRun)
    requires Apart(w, a, b, t) && w.tries == 3
    requires At2(w, run, 1000, a, b, Talker(t, b, 0, multiset{}), Waiter(a, 0, out), multiset{})
    ensures At2(w, next, 4000, a, b, Talker(t, b, 3, multiset{Datagram(KEEP_ALIVE, b)}),
                Waiter(a, 3, multiset{Datagram(KEEP_ALIVE, a)}), multiset{Ask(w, a, b, 4000)})
    ensures Connects(next) == Connects(run)
  {
    hide At2, Talker, Waiter, Ask, Back, Connects, Adds;
    var k, l := Ask(w, a, b, 4000), Back(w, a, b, 4000);
    AskIsNotBack(w, a, b, t, 4000);
    var asked, back := multiset{Datagram(KEEP_ALIVE, b)}, multiset{Datagram(KEEP_ALIVE, a)};
    var none: multiset<Packet> := multiset{};
    var r1 := FailedSecond(w, run, a, b, t, 0, multiset{}, out);
    var r2 := FailedSecond(w, r1, a, b, t, 1, asked, back);
    var r3 := SecondPasses(w, r2, a, b, t, 2, asked, back, none);
    var r4 := LastAsk(w, r3, a, b, t, Waiter(a, 2, back), none);
    NothingConnectedSince(w, r4, r3);
    assert none + multiset{k} == multiset{k};
    var r5 := WaiterStep(w, r4, a, b, t, 2, Talker(t, b, 3, asked), back, multiset{k}, multiset{k, l});
    next := LateDrop(w, r5, a, b, t, 3, asked, back, multiset{k, l}, l, multiset{k});
  }

  /** It arrives at 4.5 s; at 5 s its answer does not. */
  lemma ThirdTryIsLate(w: World, run: NetRun, a: IPSocket, b: IPSocket, t: IPSocket)
    returns (next: NetRun, flight: multiset<Packet>, y: Endpoint)
    requires Apart(w, a, b, t) && w.delay >= 500
    requires At2(w, run, 4000, a, b, Talker(t, b, 3, multiset{Datagram(KEEP_ALIVE, b)}),
                 Waiter(a, 3, multiset{Datagram(KEEP_ALIVE, a)}), multiset{Ask(w, a, b, 4000)})
    ensures At2(w, next, 5000, a, b, Talker(t, b, 3, multiset{Datagram(KEEP_ALIVE, b)}), y, flight)
    ensures Connects(next) == Connects(run)
  {
    var k, x := Ask(w, a, b, 4000), Talker(t, b, 3, multiset{Datagram(KEEP_ALIVE, b)});
    var z := Waiter(a, 3, multiset{Datagram(KEEP_ALIVE, a)});
    y, flight := Late(a), multiset{Reply(w, a, b, 4500)};
    TalkerAllows(t, b, 3, multiset{Datagram(KEEP_ALIVE, b)}, 4000, 500);
    TalkerAllows(t, b, 3, multiset{Datagram(KEEP_ALIVE, b)}, 4500, 500);
    WaiterAllows(a, 3, multiset{Datagram(KEEP_ALIVE, a)}, 4000, 500);
    LateHears(a, multiset{Datagram(KEEP_ALIVE, a)});
    assert y.sched.Allows(4500, 500);
    hide At2, Apply, Talker, Waiter, Late, Connects, Adds;
    var r1 := IdleStep(w, run, 4000, a, b, x, z, multiset{k}, 500);
    NothingConnectedSince(w, r1, run);
    var r2 := HeardStep(w, r1, 4500, a, b, t, x, z, multiset{k}, k, y, flight);
    next := IdleStep(w, r2, 4500, a, b, x, y, flight, 500);
    NothingConnectedSince(w, next, r2);
  }

  // ---------------------------------------------------------------- the bound is exact

  /** On a network that is too slow for its number of tries, any two endpoints can come to the point
      where one gives up the other although one exchange in so many gets through. */
  lemma SlowTriesLoseLivePeer(w: World, a: IPSocket, b: IPSocket, t: IPSocket) returns (run: NetRun)
    requires Apart(w, a, b, t) && 1 <= w.tries <= KEEP_ALIVE_PROBES && !Fast(w)
    ensures ValidRun(w, run) && Connects(run) == {t}
    ensures var n := NetState(w, run); a in n.eps && b in n.eps && CanGiveUp(n, a, b, 3)
  {
    if w.tries == 1 {
      run := SlowNetworkLosesLivePeer(w, a, b, t);
    } else {
      hide At2, Talker, Waiter, Connects;
      var met, out := UntilFirstHeard(w, a, b, t);
      var flight, y;
      if w.tries == 2 {
        var tried := SecondTry(w, met, a, b, t, out);
        run, flight, y := SecondTryIsLate(w, tried, a, b, t);
      } else {
        var tried := ThirdTry(w, met, a, b, t, out);
        run, flight, y := ThirdTryIsLate(w, tried, a, b, t);
      }
      TalkerGivesUp(w, run, a, b, t, y, flight);
    }
  }

  lemma TalkerGivesUp(w: World, run: NetRun, a: IPSocket, b: IPSocket, t: IPSocket,
                      y: Endpoint, flight: multiset<Packet>)
    requires Apart(w, a, b, t)
    requires At2(w, run, 5000, a, b, Talker(t, b, 3, multiset{Datagram(KEEP_ALIVE, b)}), y, flight)
    ensures ValidRun(w, run)
    ensures var n := NetState(w, run); a in n.eps && b in n.eps && CanGiveUp(n, a, b, 3)
  {
  }

  /** If one of every `tries` exchanges gets through, then `tries` periods and a round trip shorter than
      the time to loss is exactly what it takes for no live peer ever to be given up; no less is enough
      even if users connect only keys that are not decoded addresses. */
  lemma LiveAreSafeIffTriesFast(w: World, a: IPSocket, b: IPSocket, t: IPSocket)
    requires Apart(w, a, b, t) && 1 <= w.tries <= KEEP_ALIVE_PROBES
    ensures Fast(w) <==>
            forall run :: ValidRun(w, run) && (forall r :: r in Connects(run) ==> w.route(r) != r) ==>
              !GivesUpLive(NetState(w, run))
  {
    if Fast(w) {
      forall run | ValidRun(w, run)
        ensures !GivesUpLive(NetState(w, run))
      {
        FastNeverGivesUp(w, run);
      }
    } else {
      var run := SlowTriesLoseLivePeer(w, a, b, t);
      assert GivesUpLive(NetState(w, run));
    }
  }
}
