/**
 One receive() of the SCTP socket: the selected descriptors are handled concurrently, one handler
 each. A handler refers to its buffer outside the lock from the moment it has found it until it has
 read what arrived; peeling off and removing are under the lock; scheduling a reconnect after a
 loss is a step of its own. Any interleaving of the steps is a run.
 */
module SctpBatch {
  import opened FiniteSets
  import opened Wrappers
  import opened IPSockets
  import opened SctpTable
  import FileDescriptors

  /** What sctp_recvmsg gives a handler: an exception, text, or a notification with its sender. */
  datatype Received = Failure | Text(msg: string) | Notice(x: Notification, from: IPSocket)

  type Plan = map<int, Received>

  /** Where a handler is. Threw: it ended with an exception. Crashed: the search for its buffer ran
      off the table, or it used a buffer that had been given back. */
  datatype Phase = Idle | Holding(buffer: nat) | Filled(buffer: nat) | Acting(x: Notification, from: IPSocket)
                 | Owing(from: IPSocket) | Done | Threw | Crashed

  datatype Batch = Batch(table: Socket, mem: map<nat, Received>, phase: map<int, Phase>)

  /** The association a notification is about, if it is about one. */
  function About(r: Received): Option<AssocId> {
    if r.Notice? then
      match r.x
      case CommUp(id) => Some(id)
      case ShutdownComp(id) => Some(id)
      case CommLost(id) => Some(id)
      case _ => None
    else None
  }

  /** Only watched descriptors are selected; and notifications about a peeled-off association arrive
      on its own descriptor and nowhere else (section 9.2 of RFC 6458). */
  ghost predicate Selects(init: Socket, plan: Plan, selected: set<int>) {
    && selected <= plan.Keys
    && (forall f :: f in selected ==> f == init.mainFd || Peeled(init, f))
    && (forall f, id :: f in selected && About(plan[f]) == Some(id) ==>
          if f == init.mainFd then id !in init.peers else id in init.peers && init.peers[id].fd.fd == f)
  }

  function Start(init: Socket, selected: set<int>): Batch {
    Batch(init, map[], map f | f in selected :: Idle)
  }

  predicate CanStep(b: Batch, f: int, p: Peeling) {
    f in b.phase && b.phase[f] !in {Done, Threw, Crashed} && FreshChoice(b.table, p)
  }

  function Move(b: Batch, f: int, to: Phase): Batch {
    b.(phase := b.phase[f := to])
  }

  /** The buffer that the search under the lock finds for descriptor f. */
  ghost function Found(s: Socket, f: int): Option<nat> {
    if f == s.mainFd then Some(s.mainBuffer)
    else if Peeled(s, f) then
      var id :| id in s.peers && s.peers[id].fd.fd == f;
      Some(s.peers[id].buffer)
    else None
  }

  /** The locked part of what a notification asks for. */
  function Act(b: Batch, f: int, x: Notification, from: IPSocket, p: Peeling): Batch {
    match x
    case CommUp(id) => Move(b, f, if p.Peels? then Done else Threw).(table := PeelOff(b.table, id, p))
    case CantStart => Move(b, f, Done).(table := Reestablish(b.table, from))
    case ShutdownComp(id) => Move(b, f, Done).(table := Remove(b.table, id))
    case CommLost(id) => Move(b, f, Owing(from)).(table := Remove(b.table, id))
    case Other => Move(b, f, Done)
  }

  ghost function Step(b: Batch, plan: Plan, f: int, p: Peeling): Batch
    requires CanStep(b, f, p)
  {
    match b.phase[f]
    case Idle =>
      (match Found(b.table, f)
       case Some(m) => Move(b, f, Holding(m))
       case None => Move(b, f, Crashed))
    case Holding(m) =>
      if m !in b.table.buffers || f !in plan then Move(b, f, Crashed)
      else if plan[f].Failure? then Move(b, f, Threw)
      else Move(b, f, Filled(m)).(mem := b.mem[m := plan[f]])
    case Filled(m) =>
      if m !in b.table.buffers || m !in b.mem then Move(b, f, Crashed)
      else if b.mem[m].Notice? then Move(b, f, Acting(b.mem[m].x, b.mem[m].from))
      else Move(b, f, Done)
    case Acting(x, from) => Act(b, f, x, from, p)
    case Owing(from) => Move(b, f, Done).(table := Reestablish(b.table, from))
    case _ => b
  }

  // ---------------------------------------------------------------- the invariant

  predicate HandlerOk(plan: Plan, b: Batch, f: int, m: Option<nat>)
    requires f in b.phase && f in plan
  {
    match b.phase[f]
    case Holding(x) => m == Some(x)
    case Filled(x) => m == Some(x) && !plan[f].Failure? && x in b.mem && b.mem[x] == plan[f]
    case Acting(x, from) => plan[f] == Notice(x, from)
    case Owing(from) => plan[f].Notice? && plan[f].x.CommLost? && plan[f].from == from
    case Threw => plan[f].Failure? || (plan[f].Notice? && plan[f].x.CommUp?)
    case Crashed => false
    case _ => true
  }

  /** The handler of f has removed the association it was told about. */
  predicate Took(plan: Plan, b: Batch, f: int) {
    && f in b.phase && f in plan && plan[f].Notice?
    && (|| (plan[f].x.ShutdownComp? && b.phase[f] == Done)
        || (plan[f].x.CommLost? && (b.phase[f] == Done || b.phase[f].Owing?)))
  }

  /** The handler of the main descriptor has peeled off association id. */
  predicate BroughtUp(plan: Plan, b: Batch, id: AssocId) {
    var f := b.table.mainFd;
    f in b.phase && f in plan && plan[f].Notice? && plan[f].x == CommUp(id) && b.phase[f] == Done
  }

  /** The handler of f has scheduled a reconnect to r. */
  predicate Asked(plan: Plan, b: Batch, f: int, r: IPSocket) {
    && f in b.phase && f in plan && b.phase[f] == Done
    && plan[f].Notice? && (plan[f].x == CantStart || plan[f].x.CommLost?) && plan[f].from == r
  }

  function Askers(plan: Plan, b: Batch, r: IPSocket): set<int> {
    set f | f in b.phase && Asked(plan, b, f, r)
  }

  ghost predicate HandlersOk(init: Socket, plan: Plan, selected: set<int>, b: Batch) {
    && b.phase.Keys == selected <= plan.Keys
    && forall f :: f in selected ==> HandlerOk(plan, b, f, Found(init, f))
  }

  /** The table holds the old entries that no handler has removed and what the main one has added. */
  ghost predicate TableMatches(init: Socket, plan: Plan, b: Batch) {
    && TableOk(b.table) && b.table.mainFd == init.mainFd && b.table.mainBuffer == init.mainBuffer
    && (forall id :: id in init.peers ==>
          if Took(plan, b, init.peers[id].fd.fd) then id !in b.table.peers
          else id in b.table.peers && b.table.peers[id] == init.peers[id])
    && (forall id :: id !in init.peers ==> (id in b.table.peers <==> BroughtUp(plan, b, id)))
  }

  ghost predicate PendingMatches(init: Socket, plan: Plan, b: Batch) {
    forall r :: b.table.pending[r] == init.pending[r] + |Askers(plan, b, r)|
  }

  ghost predicate Inv(init: Socket, plan: Plan, selected: set<int>, b: Batch) {
    && TableOk(init) && Selects(init, plan, selected)
    && HandlersOk(init, plan, selected, b) && TableMatches(init, plan, b) && PendingMatches(init, plan, b)
  }

  lemma StartIsOk(init: Socket, plan: Plan, selected: set<int>)
    requires TableOk(init) && Selects(init, plan, selected)
    ensures Inv(init, plan, selected, Start(init, selected))
  {
    var b := Start(init, selected);
    forall r
      ensures Askers(plan, b, r) == {}
    {
    }
  }

  /** Each selected descriptor has a buffer, and no two have the same. */
  lemma FoundIsPrivate(s: Socket, f: int, g: int)
    requires TableOk(s) && (f == s.mainFd || Peeled(s, f)) && (g == s.mainFd || Peeled(s, g))
    ensures Found(s, f).Some? && Found(s, f).value in s.buffers
    ensures Found(s, f) == Found(s, g) ==> f == g
  {
  }

  /** While its handler has not removed it, a descriptor's buffer is where it was. */
  lemma FoundStays(init: Socket, plan: Plan, selected: set<int>, b: Batch, f: int)
    requires Inv(init, plan, selected, b) && f in selected && !Took(plan, b, f)
    ensures Found(init, f).Some? && Found(b.table, f) == Found(init, f) && Found(init, f).value in b.table.buffers
  {
    FoundIsPrivate(init, f, f);
    if f != init.mainFd {
      var id :| id in init.peers && init.peers[id].fd.fd == f && Found(init, f) == Some(init.peers[id].buffer);
      assert id in b.table.peers && b.table.peers[id] == init.peers[id];
      assert Peeled(b.table, f);
    }
  }

  // ---------------------------------------------------------------- steps that leave the table alone

  lemma QuietSelf(plan: Plan, b: Batch, f: int, p: Peeling, m: nat)
    requires CanStep(b, f, p) && !b.phase[f].Acting? && !b.phase[f].Owing?
    requires f in plan && HandlerOk(plan, b, f, Some(m)) && Found(b.table, f) == Some(m) && m in b.table.buffers
    ensures var c := Step(b, plan, f, p);
            && c.table == b.table && c.phase.Keys == b.phase.Keys
            && HandlerOk(plan, c, f, Some(m))
            && (forall g :: g in b.phase && g != f ==> c.phase[g] == b.phase[g])
            && (c.mem == b.mem || c.mem == b.mem[m := plan[f]])
            && (c.phase[f] == Done ==> plan[f].Text?) && !c.phase[f].Owing?
  {
    hide Found, FreshChoice;
  }

  lemma QuietOther(init: Socket, plan: Plan, selected: set<int>, b: Batch, c: Batch, f: int, g: int)
    requires TableOk(init) && Selects(init, plan, selected) && f in selected && g in selected && g != f
    requires g in b.phase && g in plan && HandlerOk(plan, b, g, Found(init, g))
    requires g in c.phase && c.phase[g] == b.phase[g] && f in plan
    requires Found(init, f).Some? && (c.mem == b.mem || c.mem == b.mem[Found(init, f).value := plan[f]])
    ensures HandlerOk(plan, c, g, Found(init, g))
  {
    FoundIsPrivate(init, f, g);
    hide Found, TableOk, Selects;
  }

  lemma QuietTable(init: Socket, plan: Plan, b: Batch, c: Batch, f: int)
    requires TableMatches(init, plan, b) && PendingMatches(init, plan, b)
    requires c.table == b.table && c.phase.Keys == b.phase.Keys && f in b.phase && f in plan
    requires forall g :: g in b.phase && g != f ==> c.phase[g] == b.phase[g]
    requires b.phase[f] != Done && !b.phase[f].Owing?
    requires (c.phase[f] == Done ==> plan[f].Text?) && !c.phase[f].Owing?
    ensures TableMatches(init, plan, c) && PendingMatches(init, plan, c)
  {
    assert forall g :: Took(plan, c, g) <==> Took(plan, b, g);
    assert forall id :: BroughtUp(plan, c, id) <==> BroughtUp(plan, b, id);
    forall r
      ensures Askers(plan, c, r) == Askers(plan, b, r)
    {
      assert forall g :: Asked(plan, c, g, r) <==> Asked(plan, b, g, r);
    }
  }

  lemma QuietStep(init: Socket, plan: Plan, selected: set<int>, b: Batch, f: int, p: Peeling)
    requires Inv(init, plan, selected, b) && CanStep(b, f, p) && !b.phase[f].Acting? && !b.phase[f].Owing?
    ensures Inv(init, plan, selected, Step(b, plan, f, p))
  {
    var c := Step(b, plan, f, p);
    FoundStays(init, plan, selected, b, f);
    assert HandlerOk(plan, b, f, Found(init, f));
    hide Step, HandlerOk, TableMatches, PendingMatches, TableOk, Found, Selects;
    QuietSelf(plan, b, f, p, Found(init, f).value);
    QuietTable(init, plan, b, c, f);
    forall g | g in selected
      ensures HandlerOk(plan, c, g, Found(init, g))
    {
      if g != f {
        QuietOther(init, plan, selected, b, c, f, g);
      }
    }
  }

  // ---------------------------------------------------------------- steps under the lock

  /** Handler f alone has moved, and the main descriptor and buffer are what they were. */
  ghost predicate OneMoved(b: Batch, c: Batch, f: int) {
    && f in b.phase && c.phase.Keys == b.phase.Keys && c.mem == b.mem
    && (forall g :: g in b.phase && g != f ==> c.phase[g] == b.phase[g])
    && c.table.mainFd == b.table.mainFd && c.table.mainBuffer == b.table.mainBuffer
  }

  /** The handler of f removes the association it was told about. */
  lemma TakeMatches(init: Socket, plan: Plan, selected: set<int>, b: Batch, c: Batch, f: int, id: AssocId)
    requires TableOk(init) && Selects(init, plan, selected) && TableMatches(init, plan, b)
    requires f in selected && OneMoved(b, c, f) && TableOk(c.table) && c.table.peers == b.table.peers - {id}
    requires plan[f].Notice? && (plan[f].x == ShutdownComp(id) || plan[f].x == CommLost(id)) && Took(plan, c, f)
    ensures TableMatches(init, plan, c)
  {
    assert About(plan[f]) == Some(id);
    assert forall g :: g != f ==> (Took(plan, c, g) <==> Took(plan, b, g));
    assert forall k :: BroughtUp(plan, c, k) <==> BroughtUp(plan, b, k);
    hide Took, BroughtUp;
    assert forall k :: k in init.peers ==> init.peers[k].fd.fd != init.mainFd;
    assert f == init.mainFd ==> id !in init.peers;
  }

  /** The handler of the main descriptor peels an association off; on any other nothing changes. */
  lemma BringMatches(init: Socket, plan: Plan, selected: set<int>, b: Batch, c: Batch, f: int, id: AssocId, p: Peeling)
    requires TableOk(init) && Selects(init, plan, selected) && TableMatches(init, plan, b)
    requires f in selected && OneMoved(b, c, f) && TableOk(c.table) && FreshChoice(b.table, p)
    requires c.table == PeelOff(b.table, id, p)
    requires plan[f].Notice? && plan[f].x == CommUp(id)
    requires b.phase[f] != Done && c.phase[f] == if p.Peels? then Done else Threw
    ensures TableMatches(init, plan, c)
  {
    assert About(plan[f]) == Some(id);
    PeelOffKeepsOk(b.table, id, p);
    assert forall g :: Took(plan, c, g) <==> Took(plan, b, g);
    assert forall k :: BroughtUp(plan, c, k) <==> BroughtUp(plan, b, k) || (f == init.mainFd && k == id && p.Peels?);
    assert !Took(plan, b, f) && (f == init.mainFd ==> !BroughtUp(plan, b, id));
    hide Took, BroughtUp, PeelOff, FreshChoice, Peeled, TableOk;
    if f == init.mainFd {
      assert id !in init.peers && id !in b.table.peers;
    } else {
      assert id in init.peers && id in b.table.peers && c.table == b.table;
    }
  }

  /** Steps that only schedule a reconnect, or do nothing. */
  lemma AskMatches(init: Socket, plan: Plan, b: Batch, c: Batch, f: int)
    requires TableMatches(init, plan, b) && OneMoved(b, c, f) && f in plan && plan[f].Notice?
    requires c.table == b.table.(pending := c.table.pending) && c.phase[f] == Done
    requires (b.phase[f].Owing? && plan[f].x.CommLost?) || plan[f].x.CantStart? || plan[f].x.Other?
    ensures TableMatches(init, plan, c)
  {
    PendingIsApart(b.table, c.table);
    assert forall g :: Took(plan, c, g) <==> Took(plan, b, g);
    assert forall k :: BroughtUp(plan, c, k) <==> BroughtUp(plan, b, k);
    hide Took, BroughtUp, TableOk;
  }

  lemma ActMovesOne(b: Batch, f: int, x: Notification, from: IPSocket, p: Peeling)
    requires f in b.phase
    ensures var c := Act(b, f, x, from, p);
            && OneMoved(b, c, f)
            && c.phase[f] == match x
                             case CommUp(_) => if p.Peels? then Done else Threw
                             case CommLost(_) => Owing(from)
                             case _ => Done
  {
    hide FileDescriptors.HandedOn, FileDescriptors.ClosedBy;
  }

  lemma ActMoves(plan: Plan, b: Batch, f: int, p: Peeling, m: Option<nat>)
    requires CanStep(b, f, p) && f in plan && HandlerOk(plan, b, f, m) && (b.phase[f].Acting? || b.phase[f].Owing?)
    ensures var c := Step(b, plan, f, p);
            && OneMoved(b, c, f) && HandlerOk(plan, c, f, m) && plan[f].Notice?
            && if b.phase[f].Acting? then
                 plan[f] == Notice(b.phase[f].x, b.phase[f].from) && c == Act(b, f, plan[f].x, plan[f].from, p)
               else
                 plan[f].x.CommLost? && c == Move(b, f, Done).(table := Reestablish(b.table, plan[f].from))
  {
    hide Found, FreshChoice, Act;
    if b.phase[f].Acting? {
      ActMovesOne(b, f, b.phase[f].x, b.phase[f].from, p);
    }
  }

  lemma ActTable(init: Socket, plan: Plan, selected: set<int>, b: Batch, f: int, p: Peeling)
    requires Inv(init, plan, selected, b) && CanStep(b, f, p) && (b.phase[f].Acting? || b.phase[f].Owing?)
    ensures TableMatches(init, plan, Step(b, plan, f, p))
  {
    var c := Step(b, plan, f, p);
    assert HandlerOk(plan, b, f, Found(init, f)) && TableOk(b.table);
    hide Step, HandlerOk, TableOk, Selects, TableMatches, PendingMatches, OneMoved, Peeled;
    ActMoves(plan, b, f, p, Found(init, f));
    if b.phase[f].Acting? {
      match b.phase[f].x
      case CommUp(id) =>
        PeelOffKeepsOk(b.table, id, p);
        BringMatches(init, plan, selected, b, c, f, id, p);
      case ShutdownComp(id) =>
        RemoveKeepsOk(b.table, id);
        TakeMatches(init, plan, selected, b, c, f, id);
      case CommLost(id) =>
        RemoveKeepsOk(b.table, id);
        TakeMatches(init, plan, selected, b, c, f, id);
      case _ => AskMatches(init, plan, b, c, f);
    } else {
      AskMatches(init, plan, b, c, f);
    }
  }

  lemma ActAsks(plan: Plan, b: Batch, f: int, p: Peeling, m: Option<nat>, r: IPSocket)
    requires TableOk(b.table)
    requires CanStep(b, f, p) && f in plan && HandlerOk(plan, b, f, m) && (b.phase[f].Acting? || b.phase[f].Owing?)
    ensures var c := Step(b, plan, f, p);
            && !Asked(plan, b, f, r)
            && c.table.pending[r] == b.table.pending[r] + if Asked(plan, c, f, r) then 1 else 0
  {
    hide Step, PeelOff, HandlerOk, TableOk;
    ActMoves(plan, b, f, p, m);
    if b.phase[f].Acting? && b.phase[f].x.CommUp? {
      PeelOffKeepsOk(b.table, b.phase[f].x.id, p);
    }
  }

  lemma AskersStep(plan: Plan, b: Batch, c: Batch, f: int, r: IPSocket)
    requires OneMoved(b, c, f) && !Asked(plan, b, f, r)
    ensures |Askers(plan, c, r)| == |Askers(plan, b, r)| + if Asked(plan, c, f, r) then 1 else 0
  {
    assert forall g :: g != f ==> (Asked(plan, c, g, r) <==> Asked(plan, b, g, r));
    if Asked(plan, c, f, r) {
      assert Askers(plan, c, r) == Askers(plan, b, r) + {f};
    } else {
      assert Askers(plan, c, r) == Askers(plan, b, r);
    }
  }

  lemma OthersStayOk(plan: Plan, b: Batch, c: Batch, f: int, g: int, m: Option<nat>)
    requires OneMoved(b, c, f) && g in b.phase && g != f && g in plan && HandlerOk(plan, b, g, m)
    ensures HandlerOk(plan, c, g, m)
  {
  }

  lemma ActStep(init: Socket, plan: Plan, selected: set<int>, b: Batch, f: int, p: Peeling)
    requires Inv(init, plan, selected, b) && CanStep(b, f, p) && (b.phase[f].Acting? || b.phase[f].Owing?)
    ensures Inv(init, plan, selected, Step(b, plan, f, p))
  {
    var c := Step(b, plan, f, p);
    assert f in selected && HandlerOk(plan, b, f, Found(init, f)) && TableOk(b.table);
    hide Step, HandlerOk, TableOk, Selects, TableMatches, Found, CanStep, Askers, Asked;
    ActTable(init, plan, selected, b, f, p);
    ActMoves(plan, b, f, p, Found(init, f));
    forall r
      ensures c.table.pending[r] == init.pending[r] + |Askers(plan, c, r)|
    {
      ActAsks(plan, b, f, p, Found(init, f), r);
      AskersStep(plan, b, c, f, r);
    }
    forall g | g in selected
      ensures HandlerOk(plan, c, g, Found(init, g))
    {
      if g != f {
        OthersStayOk(plan, b, c, f, g, Found(init, g));
      }
    }
  }

  /** Any step of any handler keeps the invariant, whatever kernel and pool have in store. */
  lemma StepKeepsInv(init: Socket, plan: Plan, selected: set<int>, b: Batch, f: int, p: Peeling)
    requires Inv(init, plan, selected, b) && CanStep(b, f, p)
    ensures Inv(init, plan, selected, Step(b, plan, f, p))
  {
    if b.phase[f].Acting? || b.phase[f].Owing? {
      ActStep(init, plan, selected, b, f, p);
    } else {
      QuietStep(init, plan, selected, b, f, p);
    }
  }

  // ---------------------------------------------------------------- whole batches

  /** An interleaving: which handler moves next, and what kernel and pool had in store then. */
  datatype Run = Selected | Stepped(prev: Run, f: int, p: Peeling)

  ghost function State(init: Socket, plan: Plan, selected: set<int>, run: Run): Batch {
    match run
    case Selected => Start(init, selected)
    case Stepped(prev, f, p) =>
      var b := State(init, plan, selected, prev);
      if CanStep(b, f, p) then Step(b, plan, f, p) else b
  }

  ghost predicate Valid(init: Socket, plan: Plan, selected: set<int>, run: Run) {
    run.Stepped? ==>
      Valid(init, plan, selected, run.prev) && CanStep(State(init, plan, selected, run.prev), run.f, run.p)
  }

  lemma {:induction false} RunKeepsInv(init: Socket, plan: Plan, selected: set<int>, run: Run)
    requires TableOk(init) && Selects(init, plan, selected) && Valid(init, plan, selected, run)
    ensures Inv(init, plan, selected, State(init, plan, selected, run))
  {
    hide Inv, Step, Start, CanStep;
    match run
    case Selected => StartIsOk(init, plan, selected);
    case Stepped(prev, f, p) =>
      RunKeepsInv(init, plan, selected, prev);
      StepKeepsInv(init, plan, selected, State(init, plan, selected, prev), f, p);
  }

  /** Handler f refers to buffer m outside the lock. */
  predicate Uses(b: Batch, f: int, m: nat) {
    f in b.phase && (b.phase[f] == Holding(m) || b.phase[f] == Filled(m))
  }

  /** In every interleaving: the search always finds its entry; a buffer used outside the lock is the
      one the search would find again, no two handlers use the same one, and a handler reads what it
      received itself. */
  lemma HandlersAreSafe(init: Socket, plan: Plan, selected: set<int>, run: Run)
    requires TableOk(init) && Selects(init, plan, selected) && Valid(init, plan, selected, run)
    ensures var b := State(init, plan, selected, run);
            && (forall f :: f in selected ==> f in b.phase && b.phase[f] != Crashed)
            && (forall f, m: nat :: Uses(b, f, m) ==> Found(b.table, f) == Some(m) && m in b.table.buffers)
            && (forall f, g, m: nat :: Uses(b, f, m) && Uses(b, g, m) ==> f == g)
            && (forall f, m: nat :: Uses(b, f, m) && b.phase[f].Filled? ==>
                  f in plan && m in b.mem && b.mem[m] == plan[f])
  {
    RunKeepsInv(init, plan, selected, run);
    var b := State(init, plan, selected, run);
    assert Selects(init, plan, selected) && TableOk(init);
    hide State, Inv, Valid, TableOk, Selects, Found;
    forall f | f in selected
      ensures f in b.phase && b.phase[f] != Crashed
    {
      NoCrash(init, plan, selected, b, f);
    }
    forall f, m | Uses(b, f, m)
      ensures UseIsSafe(init, plan, selected, b, f, m)
    {
      UserIsSafe(init, plan, selected, b, f, m);
    }
    forall f, g, m | Uses(b, f, m) && Uses(b, g, m)
      ensures f == g
    {
      assert UseIsSafe(init, plan, selected, b, f, m) && UseIsSafe(init, plan, selected, b, g, m);
      OwnBuffers(init, plan, selected, f, g);
    }
  }

  lemma NoCrash(init: Socket, plan: Plan, selected: set<int>, b: Batch, f: int)
    requires Inv(init, plan, selected, b) && f in selected
    ensures f in b.phase && b.phase[f] != Crashed
  {
    hide TableOk, Selects, TableMatches, PendingMatches, Found;
    assert HandlerOk(plan, b, f, Found(init, f));
  }

  lemma OwnBuffers(init: Socket, plan: Plan, selected: set<int>, f: int, g: int)
    requires TableOk(init) && Selects(init, plan, selected) && f in selected && g in selected
    ensures Found(init, f) == Found(init, g) ==> f == g
  {
    hide TableOk, Found, Peeled;
    FoundIsPrivate(init, f, g);
  }

  ghost predicate UseIsSafe(init: Socket, plan: Plan, selected: set<int>, b: Batch, f: int, m: nat) {
    && f in selected && f in plan && Found(init, f) == Some(m)
    && Found(b.table, f) == Some(m) && m in b.table.buffers
    && (f in b.phase && b.phase[f].Filled? ==> m in b.mem && b.mem[m] == plan[f])
  }

  lemma UserIsSafe(init: Socket, plan: Plan, selected: set<int>, b: Batch, f: int, m: nat)
    requires Inv(init, plan, selected, b) && Uses(b, f, m)
    ensures UseIsSafe(init, plan, selected, b, f, m)
  {
    FoundStays(init, plan, selected, b, f);
    hide Found, TableOk, TableMatches, PendingMatches, Selects;
    assert HandlerOk(plan, b, f, Found(init, f));
  }

  predicate Finished(b: Batch) {
    forall f :: f in b.phase ==> b.phase[f] == Done || b.phase[f] == Threw
  }

  /** A selected descriptor has received the end or the loss of its association. */
  predicate Ends(plan: Plan, selected: set<int>, f: int) {
    f in selected && f in plan && plan[f].Notice? && (plan[f].x.ShutdownComp? || plan[f].x.CommLost?)
  }

  /** Selected descriptors whose notification asks for a reconnect to r. */
  function Callers(plan: Plan, selected: set<int>, r: IPSocket): set<int> {
    set f | f in selected && f in plan && plan[f].Notice?
            && (plan[f].x.CantStart? || plan[f].x.CommLost?) && plan[f].from == r
  }

  /** However the handlers interleave, the batch ends with exactly the old entries whose descriptors
      have not received an end or a loss, as they were, and the one association the main descriptor
      has peeled off, if any; and each failed or lost association has left one reconnect. */
  lemma BatchResult(init: Socket, plan: Plan, selected: set<int>, run: Run)
    requires TableOk(init) && Selects(init, plan, selected) && Valid(init, plan, selected, run)
    requires Finished(State(init, plan, selected, run))
    ensures var b := State(init, plan, selected, run);
            && TableOk(b.table)
            && (forall id :: id in init.peers ==>
                  if Ends(plan, selected, init.peers[id].fd.fd) then id !in b.table.peers
                  else id in b.table.peers && b.table.peers[id] == init.peers[id])
            && (forall id :: id !in init.peers ==> (id in b.table.peers <==> BroughtUp(plan, b, id)))
            && (forall r :: b.table.pending[r] == init.pending[r] + |Callers(plan, selected, r)|)
  {
    hide State, Valid, Inv, TableOk, Selects, BroughtUp, Took, Askers;
    RunKeepsInv(init, plan, selected, run);
    var b := State(init, plan, selected, run);
    InvParts(init, plan, selected, b);
    forall id | id in init.peers
      ensures Took(plan, b, init.peers[id].fd.fd) <==> Ends(plan, selected, init.peers[id].fd.fd)
    {
      TookIsEnd(plan, selected, b, init.peers[id].fd.fd);
    }
    forall r
      ensures Askers(plan, b, r) == Callers(plan, selected, r)
    {
      AskersAreCallers(plan, selected, b, r);
    }
  }

  /** What a finished handler has come to. */
  ghost predicate AllHandled(plan: Plan, selected: set<int>, b: Batch) {
    && b.phase.Keys == selected <= plan.Keys && Finished(b)
    && forall f :: f in selected && b.phase[f] == Threw ==> plan[f].Failure? || (plan[f].Notice? && plan[f].x.CommUp?)
  }

  lemma InvParts(init: Socket, plan: Plan, selected: set<int>, b: Batch)
    requires Inv(init, plan, selected, b) && Finished(b)
    ensures TableMatches(init, plan, b) && PendingMatches(init, plan, b) && AllHandled(plan, selected, b)
  {
    assert forall f :: f in selected ==> HandlerOk(plan, b, f, Found(init, f));
    hide Found, TableOk, Selects, TableMatches, PendingMatches;
  }

  lemma TookIsEnd(plan: Plan, selected: set<int>, b: Batch, f: int)
    requires AllHandled(plan, selected, b)
    ensures Took(plan, b, f) <==> Ends(plan, selected, f)
  {
  }

  lemma AskersAreCallers(plan: Plan, selected: set<int>, b: Batch, r: IPSocket)
    requires AllHandled(plan, selected, b)
    ensures Askers(plan, b, r) == Callers(plan, selected, r)
  {
  }

  // ---------------------------------------------------------------- what a peel-off comes to

  /** What kernel and pool had in store when handler f last moved. */
  function LastPeeling(run: Run, f: int): Option<Peeling> {
    match run
    case Selected => None
    case Stepped(prev, g, p) => if g == f then Some(p) else LastPeeling(prev, f)
  }

  /** The handler of f, told of a COMM_UP for id, has thrown just if the peel-off failed; if it has not,
      and it is the main descriptor's, the new peer has what kernel and pool have handed out. */
  predicate PeelingShows(b: Batch, f: int, last: Option<Peeling>, id: AssocId)
    requires f in b.phase
  {
    && (b.phase[f] == Threw ==> last.Some? && !last.value.Peels?)
    && (b.phase[f] == Done ==> last.Some? && last.value.Peels?)
    && (b.phase[f] == Done && f == b.table.mainFd ==>
          EntryOf(b.table, id) == Some(Peer(FileDescriptors.Desc(last.value.n, true), last.value.buffer)))
  }

  /** It has not ended before it acts. */
  lemma NotEndedYet(plan: Plan, b: Batch, f: int, p: Peeling, m: Option<nat>)
    requires CanStep(b, f, p) && f in plan && HandlerOk(plan, b, f, m) && plan[f].Notice? && !plan[f].x.CommLost?
    requires !b.phase[f].Acting?
    ensures f in Step(b, plan, f, p).phase && Step(b, plan, f, p).phase[f] !in {Done, Threw}
  {
    hide Found, FreshChoice;
  }

  /** What the main descriptor is told to peel off is not in the table yet. */
  lemma MainIsNew(init: Socket, plan: Plan, selected: set<int>, b: Batch, id: AssocId)
    requires Selects(init, plan, selected) && TableMatches(init, plan, b) && init.mainFd in selected
    requires plan[init.mainFd].Notice? && plan[init.mainFd].x == CommUp(id)
    requires init.mainFd in b.phase && b.phase[init.mainFd] != Done
    ensures id !in b.table.peers
  {
    assert About(plan[init.mainFd]) == Some(id);
    hide TableOk, Peeled, Took;
  }

  lemma PeelingStepSelf(init: Socket, plan: Plan, selected: set<int>, b: Batch, f: int, p: Peeling, id: AssocId)
    requires Inv(init, plan, selected, b) && CanStep(b, f, p)
    requires plan[f].Notice? && plan[f].x == CommUp(id)
    ensures f in Step(b, plan, f, p).phase && PeelingShows(Step(b, plan, f, p), f, Some(p), id)
  {
    assert HandlerOk(plan, b, f, Found(init, f)) && TableOk(b.table) && b.table.mainFd == init.mainFd;
    hide Step, TableOk, Found, Selects, TableMatches, PendingMatches, HandlerOk, PeelOff, OneMoved;
    if b.phase[f].Acting? {
      ActMoves(plan, b, f, p, Found(init, f));
      ActMovesOne(b, f, plan[f].x, plan[f].from, p);
      PeelOffKeepsOk(b.table, id, p);
      if f == init.mainFd {
        MainIsNew(init, plan, selected, b, id);
      }
    } else {
      NotEndedYet(plan, b, f, p, Found(init, f));
    }
  }

  lemma QuietTableStays(b: Batch, plan: Plan, g: int, p: Peeling)
    requires CanStep(b, g, p) && !b.phase[g].Acting? && !b.phase[g].Owing?
    ensures Step(b, plan, g, p).table == b.table
  {
    hide Found, FreshChoice;
  }

  /** A handler that has not been told of id leaves its entry alone. */
  lemma EntryStays(plan: Plan, b: Batch, g: int, p: Peeling, m: Option<nat>, id: AssocId)
    requires CanStep(b, g, p) && g in plan && HandlerOk(plan, b, g, m) && TableOk(b.table)
    requires About(plan[g]) != Some(id)
    ensures var c := Step(b, plan, g, p);
            EntryOf(c.table, id) == EntryOf(b.table, id) && c.table.mainFd == b.table.mainFd
  {
    hide Step, TableOk, HandlerOk, PeelOff, Remove;
    if b.phase[g].Acting? || b.phase[g].Owing? {
      ActMoves(plan, b, g, p, m);
      match plan[g].x
      case CommUp(i) => PeelOffKeepsOk(b.table, i, p);
      case ShutdownComp(i) => RemoveKeepsOk(b.table, i);
      case CommLost(i) => RemoveKeepsOk(b.table, i);
      case _ =>
    } else {
      QuietTableStays(b, plan, g, p);
    }
  }

  lemma ToldApart(init: Socket, plan: Plan, selected: set<int>, f: int, g: int, id: AssocId)
    requires Selects(init, plan, selected) && f in selected && g in selected && f != g && About(plan[f]) == Some(id)
    ensures f == init.mainFd ==> About(plan[g]) != Some(id)
  {
    hide Peeled;
  }

  lemma PeelingStepOther(init: Socket, plan: Plan, selected: set<int>, b: Batch, f: int, g: int, p: Peeling,
                         id: AssocId)
    requires Inv(init, plan, selected, b) && CanStep(b, g, p) && f != g && f in selected
    requires plan[f].Notice? && plan[f].x == CommUp(id)
    ensures var c := Step(b, plan, g, p);
            && f in c.phase && c.phase[f] == b.phase[f]
            && (f == init.mainFd ==>
                  EntryOf(c.table, id) == EntryOf(b.table, id) && c.table.mainFd == b.table.mainFd)
  {
    assert HandlerOk(plan, b, g, Found(init, g)) && TableOk(b.table) && About(plan[f]) == Some(id);
    hide Step, TableOk, Found, Selects, HandlerOk, EntryOf;
    StepMovesOne(plan, b, g, p);
    ToldApart(init, plan, selected, f, g, id);
    if f == init.mainFd {
      EntryStays(plan, b, g, p, Found(init, g), id);
    }
  }

  /** In every interleaving, a handler that was told of a COMM_UP ends as the kernel decides, and a peer it
      has brought up stays what it was then, whatever the other handlers do. */
  lemma {:induction false} PeelingDecides(init: Socket, plan: Plan, selected: set<int>, run: Run, f: int, id: AssocId)
    requires TableOk(init) && Selects(init, plan, selected) && Valid(init, plan, selected, run)
    requires f in selected && plan[f].Notice? && plan[f].x == CommUp(id)
    ensures var b := State(init, plan, selected, run);
            f in b.phase && PeelingShows(b, f, LastPeeling(run, f), id)
  {
    hide Inv, Step, CanStep, TableOk, Selects, EntryOf;
    if run.Stepped? {
      var b := State(init, plan, selected, run.prev);
      RunKeepsInv(init, plan, selected, run.prev);
      PeelingDecides(init, plan, selected, run.prev, f, id);
      SameMain(init, plan, selected, b);
      RunKeepsInv(init, plan, selected, run);
      SameMain(init, plan, selected, State(init, plan, selected, run));
      if run.f == f {
        PeelingStepSelf(init, plan, selected, b, f, run.p, id);
      } else {
        PeelingStepOther(init, plan, selected, b, f, run.f, run.p, id);
      }
    }
  }

  lemma SameMain(init: Socket, plan: Plan, selected: set<int>, b: Batch)
    requires Inv(init, plan, selected, b)
    ensures b.table.mainFd == init.mainFd
  {
  }

  /** Two orders of the same batch end with the same old entries and the same scheduled reconnects;
      they can differ only in the one association the main descriptor was told of, whose peel-off may
      have failed in one of them. */
  lemma OrderDoesNotMatter(init: Socket, plan: Plan, selected: set<int>, one: Run, other: Run)
    requires TableOk(init) && Selects(init, plan, selected)
    requires Valid(init, plan, selected, one) && Finished(State(init, plan, selected, one))
    requires Valid(init, plan, selected, other) && Finished(State(init, plan, selected, other))
    ensures var b, c := State(init, plan, selected, one), State(init, plan, selected, other);
            && b.table.pending == c.table.pending
            && (forall id :: id in init.peers ==>
                  (id in b.table.peers <==> id in c.table.peers)
                  && (id in b.table.peers ==> b.table.peers[id] == c.table.peers[id]))
            && (forall id :: id !in init.peers && (id in b.table.peers || id in c.table.peers) ==>
                  init.mainFd in selected && init.mainFd in plan && About(plan[init.mainFd]) == Some(id))
  {
    BatchResult(init, plan, selected, one);
    BatchResult(init, plan, selected, other);
    RunKeepsInv(init, plan, selected, one);
    RunKeepsInv(init, plan, selected, other);
    var b, c := State(init, plan, selected, one), State(init, plan, selected, other);
    MainBrings(init, plan, selected, b);
    MainBrings(init, plan, selected, c);
    hide State, Valid, TableOk, Selects, BroughtUp, Inv, Ends, Callers, Finished;
    assert forall r :: b.table.pending[r] == c.table.pending[r];
    SamePending(b.table.pending, c.table.pending);
  }

  lemma MainBrings(init: Socket, plan: Plan, selected: set<int>, b: Batch)
    requires Inv(init, plan, selected, b)
    ensures forall id :: BroughtUp(plan, b, id) ==>
              init.mainFd in selected && init.mainFd in plan && About(plan[init.mainFd]) == Some(id)
  {
    hide TableOk, Selects, PendingMatches, Found;
  }

  lemma SamePending(a: multiset<IPSocket>, b: multiset<IPSocket>)
    requires forall r :: a[r] == b[r]
    ensures a == b
  {
  }

  // ---------------------------------------------------------------- every batch can be finished

  /** How many steps a handler takes in all, given what it receives. */
  function StepsInAll(received: Received): nat {
    match received
    case Failure => 2
    case Text(_) => 3
    case Notice(x, _) => if x.CommLost? then 5 else 4
  }

  function StepsLeft(plan: Plan, phase: Phase, f: int): int {
    var all := if f in plan then StepsInAll(plan[f]) else 1;
    match phase
    case Idle => all
    case Holding(_) => all - 1
    case Filled(_) => all - 2
    case Acting(_, _) => all - 3
    case Owing(_) => 1
    case Done => 0
    case Threw => 0
    case Crashed => 0
  }

  /** One element for each step that a handler has still to take. */
  function Ahead(plan: Plan, b: Batch): set<(int, int)> {
    set f, i | f in b.phase && 0 <= i < StepsLeft(plan, b.phase[f], f) :: (f, i)
  }

  lemma StepMovesOne(plan: Plan, b: Batch, f: int, p: Peeling)
    requires CanStep(b, f, p)
    ensures var c := Step(b, plan, f, p);
            && c.phase.Keys == b.phase.Keys
            && forall g :: g in b.phase && g != f ==> c.phase[g] == b.phase[g]
  {
    hide FreshChoice, Found, PeelOff, Remove, Reestablish;
  }

  lemma StepIsOneLess(plan: Plan, b: Batch, f: int, p: Peeling, m: nat)
    requires CanStep(b, f, p) && f in plan && HandlerOk(plan, b, f, Some(m))
    requires b.phase[f].Acting? || b.phase[f].Owing? || (Found(b.table, f) == Some(m) && m in b.table.buffers)
    ensures f in Step(b, plan, f, p).phase
    ensures StepsLeft(plan, Step(b, plan, f, p).phase[f], f) == StepsLeft(plan, b.phase[f], f) - 1 >= 0
  {
    hide FreshChoice, Found, PeelOff, Remove, Reestablish;
  }

  lemma OneAheadLess(plan: Plan, b: Batch, c: Batch, f: int)
    requires c.phase.Keys == b.phase.Keys && f in b.phase
    requires StepsLeft(plan, c.phase[f], f) == StepsLeft(plan, b.phase[f], f) - 1 >= 0
    requires forall g :: g in b.phase && g != f ==> c.phase[g] == b.phase[g]
    ensures |Ahead(plan, c)| == |Ahead(plan, b)| - 1
  {
    hide StepsLeft;
    var last := (f, StepsLeft(plan, c.phase[f], f));
    assert last in Ahead(plan, b);
    assert Ahead(plan, c) == Ahead(plan, b) - {last};
  }

  /** A handler that can step is where the search finds its buffer, if it still needs one. */
  lemma StepperOk(init: Socket, plan: Plan, selected: set<int>, b: Batch, f: int, p: Peeling) returns (m: nat)
    requires Inv(init, plan, selected, b) && CanStep(b, f, p)
    ensures f in plan && HandlerOk(plan, b, f, Some(m))
    ensures b.phase[f].Acting? || b.phase[f].Owing? || (Found(b.table, f) == Some(m) && m in b.table.buffers)
  {
    assert f in selected && HandlerOk(plan, b, f, Found(init, f));
    if b.phase[f].Acting? || b.phase[f].Owing? {
      m := 0;
    } else {
      FoundStays(init, plan, selected, b, f);
      m := Found(init, f).value;
    }
  }

  lemma AheadShrinks(init: Socket, plan: Plan, selected: set<int>, b: Batch, f: int, p: Peeling)
    requires Inv(init, plan, selected, b) && CanStep(b, f, p)
    ensures |Ahead(plan, Step(b, plan, f, p))| == |Ahead(plan, b)| - 1
  {
    hide Inv, HandlerOk, Found, Step, CanStep, StepsLeft, Ahead;
    StepMovesOne(plan, b, f, p);
    var m := StepperOk(init, plan, selected, b, f, p);
    StepIsOneLess(plan, b, f, p, m);
    OneAheadLess(plan, b, Step(b, plan, f, p), f);
  }

  lemma FinishedIff(init: Socket, plan: Plan, selected: set<int>, b: Batch)
    requires Inv(init, plan, selected, b)
    ensures Finished(b) <==> Ahead(plan, b) == {}
  {
    hide TableOk, Selects, TableMatches, PendingMatches, Found;
    if !Finished(b) {
      var f :| f in b.phase && b.phase[f] != Done && b.phase[f] != Threw;
      assert HandlerOk(plan, b, f, Found(init, f));
      assert (f, 0) in Ahead(plan, b);
    }
  }

  function Length(run: Run): nat {
    if run.Selected? then 0 else 1 + Length(run.prev)
  }

  /** Steps taken and steps ahead add up to what the batch takes from the start, in every
      interleaving: it is finished after exactly that many, and never before. */
  lemma {:induction false} StepsRunOut(init: Socket, plan: Plan, selected: set<int>, run: Run)
    requires TableOk(init) && Selects(init, plan, selected) && Valid(init, plan, selected, run)
    ensures Length(run) + |Ahead(plan, State(init, plan, selected, run))| == |Ahead(plan, Start(init, selected))|
    ensures Finished(State(init, plan, selected, run)) <==> Length(run) == |Ahead(plan, Start(init, selected))|
  {
    hide Inv, Step, Start, CanStep, Ahead, Finished, TableOk, Selects;
    RunKeepsInv(init, plan, selected, run);
    FinishedIff(init, plan, selected, State(init, plan, selected, run));
    if run.Stepped? {
      StepsRunOut(init, plan, selected, run.prev);
      RunKeepsInv(init, plan, selected, run.prev);
      AheadShrinks(init, plan, selected, State(init, plan, selected, run.prev), run.f, run.p);
    }
  }

  /** `run` is `first` and what came after it. */
  predicate Extends(run: Run, first: Run) {
    run == first || (run.Stepped? && Extends(run.prev, first))
  }

  lemma {:induction false} ExtendsOn(run: Run, middle: Run, first: Run)
    requires Extends(run, middle) && Extends(middle, first)
    ensures Extends(run, first)
  {
    if run != middle {
      ExtendsOn(run.prev, middle, first);
    }
  }

  lemma SomeoneCanStep(init: Socket, plan: Plan, selected: set<int>, b: Batch) returns (f: int, p: Peeling)
    requires Inv(init, plan, selected, b) && !Finished(b)
    ensures CanStep(b, f, p) && p.Peels?
  {
    f :| f in b.phase && b.phase[f] != Done && b.phase[f] != Threw;
    NoCrash(init, plan, selected, b, f);
    var n := SomeNatOutside(b.table.files.open);
    var buffer := SomeNatOutside(set x | x in b.table.buffers :: x as int);
    p := Peels(n, buffer);
  }

  /** Every interleaving can be carried on until all handlers have ended. */
  lemma {:induction false} BatchCanFinish(init: Socket, plan: Plan, selected: set<int>, run: Run) returns (end: Run)
    requires TableOk(init) && Selects(init, plan, selected) && Valid(init, plan, selected, run)
    ensures Valid(init, plan, selected, end) && Extends(end, run) && Finished(State(init, plan, selected, end))
    decreases |Ahead(plan, State(init, plan, selected, run))|
  {
    var b := State(init, plan, selected, run);
    if Finished(b) {
      end := run;
    } else {
      hide Inv, Step, CanStep, Ahead, Finished, Start, TableOk, Selects;
      RunKeepsInv(init, plan, selected, run);
      var f, p := SomeoneCanStep(init, plan, selected, b);
      var next := Stepped(run, f, p);
      AheadShrinks(init, plan, selected, b, f, p);
      end := BatchCanFinish(init, plan, selected, next);
      ExtendsOn(end, next, run);
    }
  }
}
