/**
 Messages die out: if nothing but deliveries happens, every `ka` is answered by one `kack`,
 nothing else is answered, and the datagrams in flight run out.
 */
module UdpDraining {
  import opened IPSockets
  import opened UdpEndpoint
  import opened UdpRuns
  import opened UdpNetwork

  /** A keep-alive is worth itself and the acknowledgement it will cause. */
  function Cost(p: Packet): nat {
    if p.msg == KEEP_ALIVE then 2 else 1
  }

  ghost function Weight(m: multiset<Packet>, cost: Packet -> nat): nat
    decreases |m|
  {
    if m == multiset{} then 0
    else
      var p :| p in m;
      cost(p) + Weight(m - multiset{p}, cost)
  }

  lemma {:induction false} WeightOf(m: multiset<Packet>, cost: Packet -> nat, p: Packet)
    requires p in m
    ensures Weight(m, cost) == cost(p) + Weight(m - multiset{p}, cost)
    decreases |m|
  {
    var q :| q in m && Weight(m, cost) == cost(q) + Weight(m - multiset{q}, cost);
    if q != p {
      var rest := m - multiset{q} - multiset{p};
      assert rest == m - multiset{p} - multiset{q};
      assert p in m - multiset{q} && q in m - multiset{p};
      WeightOf(m - multiset{q}, cost, p);
      WeightOf(m - multiset{p}, cost, q);
    }
  }

  lemma WeightAdds(m: multiset<Packet>, cost: Packet -> nat, p: Packet)
    ensures Weight(m + multiset{p}, cost) == Weight(m, cost) + cost(p)
  {
    WeightOf(m + multiset{p}, cost, p);
    assert m + multiset{p} - multiset{p} == m;
  }

  lemma InEitherOrder(m: multiset<Packet>, p: Packet, q: Packet)
    ensures m + multiset{p} + multiset{q} == m + multiset{q} + multiset{p}
    ensures multiset{p} + multiset{q} == multiset{p, q}
  {
  }

  lemma {:induction false} MailOf(w: World, src: IPSocket, out: multiset<Datagram>, deadline: nat, d: Datagram)
    requires d in out
    ensures Mail(w, src, out, deadline) ==
            Mail(w, src, out - multiset{d}, deadline) + multiset{PacketFor(w, src, d, deadline)}
    decreases |out|
  {
    var x :| x in out && Mail(w, src, out, deadline) ==
                         Mail(w, src, out - multiset{x}, deadline) + multiset{PacketFor(w, src, x, deadline)};
    if x != d {
      hide PacketFor, Mail;
      assert out - multiset{x} - multiset{d} == out - multiset{d} - multiset{x};
      assert d in out - multiset{x} && x in out - multiset{d};
      MailOf(w, src, out - multiset{x}, deadline, d);
      MailOf(w, src, out - multiset{d}, deadline, x);
      InEitherOrder(Mail(w, src, out - multiset{x} - multiset{d}, deadline),
                    PacketFor(w, src, d, deadline), PacketFor(w, src, x, deadline));
    }
  }

  lemma MailOfOne(w: World, src: IPSocket, d: Datagram, deadline: nat)
    ensures Mail(w, src, multiset{d}, deadline) == multiset{PacketFor(w, src, d, deadline)}
  {
    MailOf(w, src, multiset{d}, deadline, d);
    assert multiset{d} - multiset{d} == multiset{};
  }

  lemma MailOfTwo(w: World, src: IPSocket, d: Datagram, e: Datagram, deadline: nat)
    ensures Mail(w, src, multiset{d, e}, deadline) ==
            multiset{PacketFor(w, src, d, deadline), PacketFor(w, src, e, deadline)}
  {
    hide PacketFor, Mail;
    MailOf(w, src, multiset{d, e}, deadline, e);
    assert multiset{d, e} - multiset{e} == multiset{d};
    MailOfOne(w, src, d, deadline);
    InEitherOrder(multiset{}, PacketFor(w, src, d, deadline), PacketFor(w, src, e, deadline));
  }

  lemma NoMail(w: World, src: IPSocket, deadline: nat)
    ensures Mail(w, src, multiset{}, deadline) == multiset{}
  {
  }

  /** What a task that runs sends: one keep-alive if it is a ping task, nothing otherwise. */
  lemma LaunchSends(ep: Endpoint, now: nat, id: nat)
    requires ep.sched.IsDue(now, id)
    ensures Apply(ep, now, Launch(id)).outbox ==
            if ep.sched.tasks[id].action.Ping? then multiset{Datagram(KEEP_ALIVE, ep.sched.tasks[id].action.remote)}
            else multiset{}
  {
  }

  /** What handling a message sends: one acknowledgement for a keep-alive, nothing for the rest. */
  lemma AnswerToMessage(ep: Endpoint, now: nat, from: IPSocket, msg: string)
    ensures Apply(ep, now, Deliver(from, msg)).outbox ==
            if msg == KEEP_ALIVE then multiset{Datagram(KEEP_ALIVE_ACK, from)} else multiset{}
  {
  }

  lemma ArrivalPosts(w: World, n: Net, p: Packet)
    requires CanHappen(n, Arrive(p))
    ensures After(w, n, Arrive(p)).flight ==
            n.flight - multiset{p} +
            if p.msg == KEEP_ALIVE then multiset{Packet(p.dst, w.route(p.src), KEEP_ALIVE_ACK, n.now + w.delay)}
            else multiset{}
  {
    AnswerToMessage(n.eps[p.dst], n.now, p.src, p.msg);
    hide Apply;
    if p.msg == KEEP_ALIVE {
      MailOfOne(w, p.dst, Datagram(KEEP_ALIVE_ACK, p.src), n.now + w.delay);
    }
  }

  /** Every delivery takes exactly one from the weight of the datagrams in flight. */
  lemma ArrivalWeighsOne(w: World, n: Net, p: Packet)
    requires CanHappen(n, Arrive(p))
    ensures Weight(After(w, n, Arrive(p)).flight, Cost) + 1 == Weight(n.flight, Cost)
  {
    ArrivalPosts(w, n, p);
    WeightOf(n.flight, Cost, p);
    if p.msg == KEEP_ALIVE {
      WeightAdds(n.flight - multiset{p}, Cost, Packet(p.dst, w.route(p.src), KEEP_ALIVE_ACK, n.now + w.delay));
    } else {
      assert n.flight - multiset{p} + multiset{} == n.flight - multiset{p};
    }
  }

  /** The deliveries of `packets`, one after another, are possible from n. */
  ghost predicate Deliverable(w: World, n: Net, packets: seq<Packet>)
    decreases |packets|
  {
    packets == [] || (CanHappen(n, Arrive(packets[0])) && Deliverable(w, After(w, n, Arrive(packets[0])), packets[1..]))
  }

  ghost function Delivered(w: World, n: Net, packets: seq<Packet>): Net
    requires Deliverable(w, n, packets)
    decreases |packets|
  {
    if packets == [] then n else Delivered(w, After(w, n, Arrive(packets[0])), packets[1..])
  }

  /** The length of a delivery-only run and the weight it leaves add up to the weight it started
      with: no such run is longer than that, and one that empties the network has that length. */
  lemma {:induction false} DeliveriesRunOut(w: World, n: Net, packets: seq<Packet>)
    requires Deliverable(w, n, packets)
    ensures |packets| + Weight(Delivered(w, n, packets).flight, Cost) == Weight(n.flight, Cost)
    decreases |packets|
  {
    if packets != [] {
      ArrivalWeighsOne(w, n, packets[0]);
      DeliveriesRunOut(w, After(w, n, Arrive(packets[0])), packets[1..]);
    }
  }

  /** Everything in flight is between live endpoints. */
  ghost predicate AmongLive(w: World, n: Net) {
    && (forall a :: a in n.eps ==> w.route(a) == a)
    && (forall p :: p in n.flight ==> p.src in n.eps && p.dst in n.eps)
  }

  lemma ArrivalStaysAmongLive(w: World, n: Net, p: Packet)
    requires AmongLive(w, n) && CanHappen(n, Arrive(p))
    ensures AmongLive(w, After(w, n, Arrive(p)))
  {
    ArrivalPosts(w, n, p);
    hide Apply, Posted;
    assert After(w, n, Arrive(p)).eps.Keys == n.eps.Keys;
  }

  lemma NothingLeftIff(n: Net)
    requires forall p :: p in n.flight ==> p.dst in n.eps
    ensures (forall p :: !CanHappen(n, Arrive(p))) <==> Weight(n.flight, Cost) == 0
  {
    if n.flight != multiset{} {
      var p :| p in n.flight;
      assert CanHappen(n, Arrive(p));
      WeightOf(n.flight, Cost, p);
    }
  }

  /** A delivery-only run among live endpoints can be carried on exactly until nothing is in flight,
      and then exactly Weight(n.flight, Cost) datagrams have been delivered. */
  lemma {:induction false} DeliveriesEnd(w: World, n: Net, packets: seq<Packet>)
    requires Deliverable(w, n, packets) && AmongLive(w, n)
    ensures var m := Delivered(w, n, packets);
            (forall p :: !CanHappen(m, Arrive(p))) <==> |packets| == Weight(n.flight, Cost)
    decreases |packets|
  {
    if packets == [] {
      NothingLeftIff(n);
    } else {
      ArrivalStaysAmongLive(w, n, packets[0]);
      ArrivalWeighsOne(w, n, packets[0]);
      hide After, AmongLive;
      DeliveriesEnd(w, After(w, n, Arrive(packets[0])), packets[1..]);
    }
  }
}
