/**
 One receive() of the TCP socket: the selected descriptors are handled concurrently, one handler
 each. Every handler is cut into steps at its lock and at its use of the shared buffer outside the
 lock; any interleaving of the steps is a run. The kernel may give an accepted connection a number
 that another handler has just closed.
 */
module TcpBatch {
  import opened FiniteSets
  import opened Wrappers
  import opened IPSockets
  import opened TcpTable
  import FileDescriptors

  /** What recv gives a handler: an exception, or the text up to the first NUL of what arrived. */
  datatype Received = Failure | Text(msg: string)

  /** What the environment has in store for a batch; accept may fail. */
  datatype Plan = Plan(received: map<int, Received>, accepts: bool, caller: IPSocket)

  /** Where a handler is. Crashed: `peers.at` threw, or a buffer was used that had been given back. */
  datatype Phase = Idle | Holding(buffer: nat) | Filled | Reading(buffer: nat) | Failed | Closing | Done | Crashed

  datatype Batch = Batch(table: Socket, mem: map<nat, string>, phase: map<int, Phase>, accepted: Option<(int, Peer)>)

  predicate Selects(init: Socket, plan: Plan, selected: set<int>) {
    forall f :: f in selected ==> f == init.listening || (f in init.peers && f in plan.received)
  }

  function Start(init: Socket, selected: set<int>): Batch {
    Batch(init, map[], map f | f in selected :: Idle, None)
  }

  /** Handler f can take its next step; n and buffer are what kernel and pool would hand out. */
  predicate CanStep(b: Batch, f: int, n: nat, buffer: nat) {
    f in b.phase && b.phase[f] != Done && b.phase[f] != Crashed && FreshChoice(b.table, n, buffer)
  }

  function Move(b: Batch, f: int, to: Phase): Batch {
    b.(phase := b.phase[f := to])
  }

  function ListenerStep(b: Batch, plan: Plan, f: int, n: nat, buffer: nat): Batch {
    if plan.accepts then
      Move(b, f, Done).(table := Accept(b.table, n, buffer, plan.caller),
                        accepted := Some((n as int, Peer(FileDescriptors.Desc(n, true), buffer, plan.caller, false))))
    else Move(b, f, Done)
  }

  /** getBuffer: `at` under the lock. */
  function Fetch(b: Batch, f: int, to: nat -> Phase): Batch {
    if f in b.table.peers then Move(b, f, to(b.table.peers[f].buffer)) else Move(b, f, Crashed)
  }

  function Step(b: Batch, plan: Plan, f: int, n: nat, buffer: nat): Batch
    requires CanStep(b, f, n, buffer)
  {
    if f == b.table.listening then ListenerStep(b, plan, f, n, buffer)
    else
      match b.phase[f]
      case Idle => Fetch(b, f, (m: nat) => Holding(m))
      case Holding(m) =>
        if m !in b.table.buffers || f !in plan.received then Move(b, f, Crashed)
        else if plan.received[f].Failure? then Move(b, f, Failed)
        else Move(b, f, Filled).(mem := b.mem[m := plan.received[f].msg])
      case Filled => Fetch(b, f, (m: nat) => Reading(m))
      case Reading(m) =>
        if m !in b.table.buffers || m !in b.mem then Move(b, f, Crashed)
        else if b.mem[m] == "" then Move(b, f, Closing)
        else Move(b, f, Done)
      case Failed =>
        if f in b.table.peers then Move(b, f, Done).(table := Lose(b.table, f)) else Move(b, f, Crashed)
      case Closing =>
        if f in b.table.peers then Move(b, f, Done).(table := Erase(b.table, f)) else Move(b, f, Crashed)
      case _ => b
  }

  // ---------------------------------------------------------------- the invariant

  /** The handler of f ends with the peer's removal. */
  predicate Dies(plan: Plan, f: int) {
    f in plan.received && (plan.received[f].Failure? || plan.received[f].msg == "")
  }

  predicate Removed(b: Batch, plan: Plan, f: int) {
    f in b.phase && b.phase[f] == Done && Dies(plan, f)
  }

  /** What is true of a handler that is not the listening one. */
  predicate HandlerOk(init: Socket, plan: Plan, b: Batch, f: int)
    requires f in b.phase && f in init.peers && f in plan.received
  {
    var m := init.peers[f].buffer;
    && (!Removed(b, plan, f) ==> f in b.table.peers && b.table.peers[f] == init.peers[f])
    && match b.phase[f]
       case Idle => true
       case Holding(x) => x == m
       case Filled => plan.received[f].Text? && m in b.mem && b.mem[m] == plan.received[f].msg
       case Reading(x) => x == m && plan.received[f].Text? && m in b.mem && b.mem[m] == plan.received[f].msg
       case Failed => plan.received[f].Failure?
       case Closing => plan.received[f] == Text("")
       case Done => true
       case Crashed => false
  }

  /** The entries that the batch has not removed so far. */
  function Survivors(init: Socket, plan: Plan, b: Batch): map<int, Peer> {
    map k | k in init.peers && !Removed(b, plan, k) :: init.peers[k]
  }

  /** The entry the batch has added, if any, under the number the kernel chose. */
  function Added(b: Batch): map<int, Peer> {
    match b.accepted
    case Some(a) => map[a.0 := a.1]
    case None => map[]
  }

  predicate ListenerOk(plan: Plan, b: Batch) {
    if b.table.listening in b.phase && b.phase[b.table.listening] == Done && plan.accepts
    then b.accepted.Some? && b.accepted.value.1.fd == FileDescriptors.Desc(b.accepted.value.0, true)
         && b.accepted.value.1.remote == plan.caller && !b.accepted.value.1.reestablish
    else b.accepted == None
  }

  /** Handler f has lost an outbound connection to r. */
  predicate HasLost(init: Socket, plan: Plan, b: Batch, f: int, r: IPSocket) {
    && f in b.phase && b.phase[f] == Done && f in plan.received && plan.received[f].Failure?
    && f in init.peers && init.peers[f].reestablish && init.peers[f].remote == r
  }

  /** Handlers whose loss has led to a reconnect to r. */
  function LostTo(init: Socket, plan: Plan, b: Batch, r: IPSocket): set<int> {
    set f | f in b.phase && HasLost(init, plan, b, f, r)
  }

  lemma SameLost(init: Socket, plan: Plan, b: Batch, c: Batch, r: IPSocket)
    requires forall f :: HasLost(init, plan, c, f, r) <==> HasLost(init, plan, b, f, r)
    ensures LostTo(init, plan, c, r) == LostTo(init, plan, b, r)
  {
  }

  lemma OneMoreLost(init: Socket, plan: Plan, b: Batch, c: Batch, f: int, r: IPSocket)
    requires forall g :: g != f ==> (HasLost(init, plan, c, g, r) <==> HasLost(init, plan, b, g, r))
    requires HasLost(init, plan, c, f, r) && !HasLost(init, plan, b, f, r)
    ensures |LostTo(init, plan, c, r)| == |LostTo(init, plan, b, r)| + 1
  {
    assert LostTo(init, plan, c, r) == LostTo(init, plan, b, r) + {f};
  }

  ghost predicate HandlersOk(init: Socket, plan: Plan, selected: set<int>, b: Batch) {
    && TableOk(init) && Selects(init, plan, selected)
    && b.phase.Keys == selected && b.table.listening == init.listening
    && (forall f :: f in selected && f != init.listening ==> HandlerOk(init, plan, b, f))
    && (init.listening in selected ==> b.phase[init.listening] in {Idle, Done})
  }

  ghost predicate TableMatches(init: Socket, plan: Plan, b: Batch) {
    && TableOk(b.table)
    && ListenerOk(plan, b)
    && Added(b).Keys !! Survivors(init, plan, b).Keys
    && b.table.peers == Survivors(init, plan, b) + Added(b)
  }

  ghost predicate PendingMatches(init: Socket, plan: Plan, b: Batch) {
    forall r :: b.table.pending[r] == init.pending[r] + |LostTo(init, plan, b, r)|
  }

  ghost predicate Inv(init: Socket, plan: Plan, selected: set<int>, b: Batch) {
    HandlersOk(init, plan, selected, b) && TableMatches(init, plan, b) && PendingMatches(init, plan, b)
  }

  lemma StartIsOk(init: Socket, plan: Plan, selected: set<int>)
    requires TableOk(init) && Selects(init, plan, selected)
    ensures Inv(init, plan, selected, Start(init, selected))
  {
    var b := Start(init, selected);
    assert Survivors(init, plan, b) == init.peers;
    assert init.peers + map[] == init.peers;
    forall r
      ensures LostTo(init, plan, b, r) == {}
    {
    }
  }

  lemma AcceptMatches(init: Socket, plan: Plan, b: Batch, c: Batch, n: int, p: Peer)
    requires TableMatches(init, plan, b) && TableOk(c.table) && c.table.listening == b.table.listening
    requires b.table.listening in b.phase && b.phase[b.table.listening] == Idle && plan.accepts
    requires c.phase == b.phase[b.table.listening as int := Done] && c.accepted == Some((n, p))
    requires n !in b.table.peers && c.table.peers == b.table.peers[n := p]
    requires p.fd == FileDescriptors.Desc(n, true) && p.remote == plan.caller && !p.reestablish
    requires b.table.listening !in init.peers
    ensures TableMatches(init, plan, c)
  {
    hide TableOk;
    assert b.accepted == None;
    assert forall k :: k in init.peers ==> (Removed(c, plan, k) <==> Removed(b, plan, k));
    assert Survivors(init, plan, c) == Survivors(init, plan, b);
    assert c.table.peers == Survivors(init, plan, c) + Added(c);
  }

  lemma ListenerMoves(plan: Plan, b: Batch, n: nat, buffer: nat)
    requires TableOk(b.table) && FreshChoice(b.table, n, buffer)
    ensures var c := ListenerStep(b, plan, b.table.listening, n, buffer);
            && TableOk(c.table) && c.phase == b.phase[b.table.listening as int := Done] && c.mem == b.mem
            && c.table.listening == b.table.listening && c.table.pending == b.table.pending
            && n !in b.table.peers
            && if plan.accepts then
                 var p := Peer(FileDescriptors.Desc(n, true), buffer, plan.caller, false);
                 c.table.peers == b.table.peers[n as int := p] && c.accepted == Some((n as int, p))
               else c.table == b.table && c.accepted == b.accepted
  {
    AdoptKeepsOk(b.table, n, buffer, plan.caller, false, ACCEPT_MOVES);
    hide Adopt;
  }

  lemma RefusalMatches(init: Socket, plan: Plan, b: Batch, c: Batch)
    requires TableMatches(init, plan, b) && b.table.listening !in init.peers && !plan.accepts
    requires c.table == b.table && c.accepted == b.accepted && c.phase == b.phase[b.table.listening as int := Done]
    ensures TableMatches(init, plan, c)
  {
    hide TableOk;
    assert forall k :: k in init.peers ==> (Removed(c, plan, k) <==> Removed(b, plan, k));
    assert Survivors(init, plan, c) == Survivors(init, plan, b);
  }

  lemma AcceptHandlers(init: Socket, plan: Plan, selected: set<int>, b: Batch, c: Batch)
    requires HandlersOk(init, plan, selected, b) && c.phase == b.phase[init.listening as int := Done] && c.mem == b.mem
    requires init.listening in selected && c.table.listening == init.listening
    requires forall k :: k in b.table.peers ==> k in c.table.peers && c.table.peers[k] == b.table.peers[k]
    ensures HandlersOk(init, plan, selected, c)
  {
    hide TableOk;
    forall g | g in selected && g != init.listening
      ensures HandlerOk(init, plan, c, g)
    {
      assert HandlerOk(init, plan, b, g);
    }
  }

  lemma AcceptPending(init: Socket, plan: Plan, b: Batch, c: Batch)
    requires PendingMatches(init, plan, b) && c.table.pending == b.table.pending
    requires c.phase == b.phase[init.listening as int := Done]
    requires init.listening in b.phase && init.listening !in init.peers
    ensures PendingMatches(init, plan, c)
  {
    hide LostTo;
    forall r
      ensures LostTo(init, plan, c, r) == LostTo(init, plan, b, r)
    {
      assert forall g :: HasLost(init, plan, c, g, r) <==> HasLost(init, plan, b, g, r);
      SameLost(init, plan, b, c, r);
    }
  }

  lemma AcceptStep(init: Socket, plan: Plan, selected: set<int>, b: Batch, f: int, n: nat, buffer: nat)
    requires Inv(init, plan, selected, b) && CanStep(b, f, n, buffer) && f == b.table.listening
    ensures Inv(init, plan, selected, Step(b, plan, f, n, buffer))
  {
    hide ListenerStep, TableOk, HandlersOk, TableMatches, PendingMatches, FreshChoice;
    var c := Step(b, plan, f, n, buffer);
    assert c == ListenerStep(b, plan, f, n, buffer);
    HandlersParts(init, plan, selected, b);
    TableOfInv(init, plan, selected, b);
    ListenerIsIdle(init, plan, selected, b);
    ListenerMoves(plan, b, n, buffer);
    if plan.accepts {
      AcceptMatches(init, plan, b, c, n, c.accepted.value.1);
    } else {
      RefusalMatches(init, plan, b, c);
    }
    AcceptHandlers(init, plan, selected, b, c);
    AcceptPending(init, plan, b, c);
  }

  lemma ListenerIsIdle(init: Socket, plan: Plan, selected: set<int>, b: Batch)
    requires HandlersOk(init, plan, selected, b)
    ensures init.listening !in init.peers
    ensures init.listening in b.phase && b.phase[init.listening] != Done ==> b.phase[init.listening] == Idle
  {
  }

  lemma HandlersParts(init: Socket, plan: Plan, selected: set<int>, b: Batch)
    requires HandlersOk(init, plan, selected, b)
    ensures TableOk(init) && Selects(init, plan, selected)
    ensures b.phase.Keys == selected && b.table.listening == init.listening
  {
  }

  /** The handler's own phase after a step that leaves the table alone. */
  lemma QuietStepSelf(init: Socket, plan: Plan, selected: set<int>, b: Batch, f: int, n: nat, buffer: nat)
    requires Inv(init, plan, selected, b) && CanStep(b, f, n, buffer) && f != b.table.listening
    requires b.phase[f] != Failed && b.phase[f] != Closing
    ensures var c := Step(b, plan, f, n, buffer);
            && c.table == b.table && c.accepted == b.accepted
            && c.phase.Keys == b.phase.Keys
            && !Removed(c, plan, f) && HandlerOk(init, plan, c, f)
  {
    assert HandlerOk(init, plan, b, f) && TableOk(b.table);
    hide Inv, TableOk, HandlerOk, Step, CanStep;
    QuietMoves(init, plan, b, f, n, buffer);
  }

  lemma QuietMoves(init: Socket, plan: Plan, b: Batch, f: int, n: nat, buffer: nat)
    requires CanStep(b, f, n, buffer) && f != b.table.listening && b.phase[f] != Failed && b.phase[f] != Closing
    requires f in init.peers && f in plan.received && TableOk(b.table) && HandlerOk(init, plan, b, f)
    ensures var c := Step(b, plan, f, n, buffer);
            && c.table == b.table && c.accepted == b.accepted
            && c.phase.Keys == b.phase.Keys
            && !Removed(c, plan, f) && HandlerOk(init, plan, c, f)
  {
    hide Held, FreshChoice;
  }

  /** Another handler is not disturbed: the only memory written is f's own buffer. */
  lemma QuietStepOther(init: Socket, plan: Plan, selected: set<int>, b: Batch, f: int, n: nat, buffer: nat, g: int)
    requires HandlersOk(init, plan, selected, b) && CanStep(b, f, n, buffer) && f != b.table.listening
    requires b.phase[f] != Failed && b.phase[f] != Closing
    requires g in selected && g != init.listening && g != f
    ensures HandlerOk(init, plan, Step(b, plan, f, n, buffer), g)
  {
    var c := Step(b, plan, f, n, buffer);
    assert init.peers[f].buffer != init.peers[g].buffer;
    assert HandlerOk(init, plan, b, f) && HandlerOk(init, plan, b, g);
    assert c.table == b.table && c.phase[g] == b.phase[g];
    var m := init.peers[g].buffer;
    assert m in b.mem ==> m in c.mem && c.mem[m] == b.mem[m];
    hide Step, TableOk, FreshChoice;
  }

  lemma QuietTable(init: Socket, plan: Plan, b: Batch, c: Batch, f: int)
    requires TableMatches(init, plan, b) && PendingMatches(init, plan, b)
    requires f in b.phase && f != b.table.listening && c.table == b.table && c.accepted == b.accepted
    requires c.phase.Keys == b.phase.Keys && forall g :: g in b.phase && g != f ==> c.phase[g] == b.phase[g]
    requires b.phase[f] != Done && !Removed(c, plan, f)
    ensures TableMatches(init, plan, c) && PendingMatches(init, plan, c)
  {
    assert forall k :: Removed(c, plan, k) <==> Removed(b, plan, k);
    assert Survivors(init, plan, c) == Survivors(init, plan, b);
    assert forall r :: !HasLost(init, plan, c, f, r) && !HasLost(init, plan, b, f, r);
    forall r
      ensures LostTo(init, plan, c, r) == LostTo(init, plan, b, r)
    {
      assert forall g :: HasLost(init, plan, c, g, r) <==> HasLost(init, plan, b, g, r);
      SameLost(init, plan, b, c, r);
    }
  }

  lemma QuietPhases(b: Batch, plan: Plan, f: int, n: nat, buffer: nat)
    requires CanStep(b, f, n, buffer) && f != b.table.listening
    ensures f in b.phase && b.phase[f] != Done
    ensures var c := Step(b, plan, f, n, buffer);
            c.phase.Keys == b.phase.Keys && forall g :: g in b.phase && g != f ==> c.phase[g] == b.phase[g]
  {
    hide FreshChoice, Lose, Erase;
  }

  lemma QuietStep(init: Socket, plan: Plan, selected: set<int>, b: Batch, f: int, n: nat, buffer: nat)
    requires Inv(init, plan, selected, b) && CanStep(b, f, n, buffer) && f != b.table.listening
    requires b.phase[f] != Failed && b.phase[f] != Closing
    ensures Inv(init, plan, selected, Step(b, plan, f, n, buffer))
  {
    var c := Step(b, plan, f, n, buffer);
    hide Step, CanStep, HandlerOk, TableMatches, PendingMatches, TableOk, Removed;
    QuietStepSelf(init, plan, selected, b, f, n, buffer);
    QuietPhases(b, plan, f, n, buffer);
    QuietTable(init, plan, b, c, f);
    forall g | g in selected && g != init.listening
      ensures HandlerOk(init, plan, c, g)
    {
      if g != f {
        QuietStepOther(init, plan, selected, b, f, n, buffer, g);
      }
    }
  }

  lemma RemovalTable(init: Socket, plan: Plan, selected: set<int>, b: Batch, f: int, n: nat, buffer: nat)
    requires Inv(init, plan, selected, b) && CanStep(b, f, n, buffer) && f != b.table.listening
    requires b.phase[f] == Failed || b.phase[f] == Closing
    ensures var c := Step(b, plan, f, n, buffer);
            && TableOk(c.table) && c.table.listening == b.table.listening
            && c.table.peers == b.table.peers - {f}
            && c.phase == b.phase[f := Done] && c.mem == b.mem && c.accepted == b.accepted
            && f in b.table.peers && f in Survivors(init, plan, b)
            && Removed(c, plan, f)
            && c.table.pending == if plan.received[f].Failure? && init.peers[f].reestablish
                                  then b.table.pending + multiset{init.peers[f].remote} else b.table.pending
  {
    assert HandlerOk(init, plan, b, f);
    EraseKeepsOk(b.table, f);
    LoseKeepsOk(b.table, f);
  }

  /** A failed outbound handler schedules one reconnect, to its own remote. */
  lemma RemovalPending(init: Socket, plan: Plan, b: Batch, c: Batch, f: int, r: IPSocket)
    requires PendingMatches(init, plan, b)
    requires f in b.phase && b.phase[f] != Done && c.phase == b.phase[f := Done]
    requires f in plan.received && f in init.peers
    requires c.table.pending == if plan.received[f].Failure? && init.peers[f].reestablish
                                then b.table.pending + multiset{init.peers[f].remote} else b.table.pending
    ensures c.table.pending[r] == init.pending[r] + |LostTo(init, plan, c, r)|
  {
    assert forall g :: g != f ==> (HasLost(init, plan, c, g, r) <==> HasLost(init, plan, b, g, r));
    if plan.received[f].Failure? && init.peers[f].reestablish && init.peers[f].remote == r {
      OneMoreLost(init, plan, b, c, f, r);
    } else {
      SameLost(init, plan, b, c, r);
    }
  }

  lemma RemovalMatches(init: Socket, plan: Plan, b: Batch, c: Batch, f: int)
    requires TableMatches(init, plan, b) && TableOk(c.table)
    requires c.table.listening == b.table.listening && f != b.table.listening
    requires c.table.peers == b.table.peers - {f} && c.accepted == b.accepted
    requires f in b.phase && c.phase == b.phase[f := Done] && f in Survivors(init, plan, b) && Removed(c, plan, f)
    ensures TableMatches(init, plan, c)
  {
    hide TableOk;
    assert forall k :: k != f ==> (Removed(c, plan, k) <==> Removed(b, plan, k));
    assert Survivors(init, plan, c) == Survivors(init, plan, b) - {f};
    assert Added(c) == Added(b);
    assert c.table.peers == Survivors(init, plan, c) + Added(c);
  }

  lemma RemovalPendings(init: Socket, plan: Plan, b: Batch, c: Batch, f: int)
    requires PendingMatches(init, plan, b)
    requires f in b.phase && b.phase[f] != Done && c.phase == b.phase[f := Done]
    requires f in plan.received && f in init.peers
    requires c.table.pending == if plan.received[f].Failure? && init.peers[f].reestablish
                                then b.table.pending + multiset{init.peers[f].remote} else b.table.pending
    ensures PendingMatches(init, plan, c)
  {
    hide LostTo;
    forall r
      ensures c.table.pending[r] == init.pending[r] + |LostTo(init, plan, c, r)|
    {
      RemovalPending(init, plan, b, c, f, r);
    }
  }

  lemma RemovalHandlers(init: Socket, plan: Plan, selected: set<int>, b: Batch, c: Batch, f: int)
    requires HandlersOk(init, plan, selected, b) && c.table.listening == b.table.listening && f != b.table.listening
    requires c.table.peers == b.table.peers - {f} && c.mem == b.mem
    requires f in b.phase && c.phase == b.phase[f := Done] && Removed(c, plan, f)
    ensures HandlersOk(init, plan, selected, c)
  {
    hide TableOk, HandlerOk, Removed;
    assert c.phase.Keys == b.phase.Keys;
    forall g | g in selected && g != init.listening
      ensures HandlerOk(init, plan, c, g)
    {
      assert HandlerOk(init, plan, b, g);
      RemovalHandler(init, plan, b, c, f, g);
    }
  }

  lemma RemovalStep(init: Socket, plan: Plan, selected: set<int>, b: Batch, f: int, n: nat, buffer: nat)
    requires Inv(init, plan, selected, b) && CanStep(b, f, n, buffer) && f != b.table.listening
    requires b.phase[f] == Failed || b.phase[f] == Closing
    ensures Inv(init, plan, selected, Step(b, plan, f, n, buffer))
  {
    var c := Step(b, plan, f, n, buffer);
    RemovalTable(init, plan, selected, b, f, n, buffer);
    assert f in plan.received && f in init.peers;
    hide Step, TableOk, TableMatches, PendingMatches, HandlersOk, Removed;
    RemovalPendings(init, plan, b, c, f);
    RemovalMatches(init, plan, b, c, f);
    RemovalHandlers(init, plan, selected, b, c, f);
  }

  lemma RemovalHandler(init: Socket, plan: Plan, b: Batch, c: Batch, f: int, g: int)
    requires c.table.peers == b.table.peers - {f} && c.mem == b.mem
    requires f in b.phase && c.phase == b.phase[f := Done] && Removed(c, plan, f)
    requires g in b.phase && g in init.peers && g in plan.received && HandlerOk(init, plan, b, g)
    ensures HandlerOk(init, plan, c, g)
  {
  }

  /** Any step of any handler keeps the invariant, whatever numbers kernel and pool hand out. */
  lemma StepKeepsInv(init: Socket, plan: Plan, selected: set<int>, b: Batch, f: int, n: nat, buffer: nat)
    requires Inv(init, plan, selected, b) && CanStep(b, f, n, buffer)
    ensures Inv(init, plan, selected, Step(b, plan, f, n, buffer))
  {
    if f == b.table.listening {
      AcceptStep(init, plan, selected, b, f, n, buffer);
    } else if b.phase[f] == Failed || b.phase[f] == Closing {
      RemovalStep(init, plan, selected, b, f, n, buffer);
    } else {
      QuietStep(init, plan, selected, b, f, n, buffer);
    }
  }

  // ---------------------------------------------------------------- whole batches

  /** An interleaving: which handler moves next, and what kernel and pool had to offer then. */
  datatype Run = Selected | Stepped(prev: Run, f: int, n: nat, buffer: nat)

  function State(init: Socket, plan: Plan, selected: set<int>, run: Run): Batch {
    match run
    case Selected => Start(init, selected)
    case Stepped(prev, f, n, buffer) =>
      var b := State(init, plan, selected, prev);
      if CanStep(b, f, n, buffer) then Step(b, plan, f, n, buffer) else b
  }

  predicate Valid(init: Socket, plan: Plan, selected: set<int>, run: Run) {
    run.Stepped? ==>
      && Valid(init, plan, selected, run.prev)
      && CanStep(State(init, plan, selected, run.prev), run.f, run.n, run.buffer)
  }

  lemma {:induction false} RunKeepsInv(init: Socket, plan: Plan, selected: set<int>, run: Run)
    requires TableOk(init) && Selects(init, plan, selected) && Valid(init, plan, selected, run)
    ensures Inv(init, plan, selected, State(init, plan, selected, run))
  {
    hide Inv, Step, Start, CanStep;
    match run
    case Selected => StartIsOk(init, plan, selected);
    case Stepped(prev, f, n, buffer) =>
      RunKeepsInv(init, plan, selected, prev);
      StepKeepsInv(init, plan, selected, State(init, plan, selected, prev), f, n, buffer);
  }

  /** The buffer a handler refers to outside the lock. */
  predicate Uses(b: Batch, f: int, m: nat) {
    f in b.phase && (b.phase[f] == Holding(m) || b.phase[f] == Reading(m))
  }

  /** In every interleaving: `peers.at` finds its entry whenever it is called, a buffer used outside
      the lock is still that of its peer's entry, no two handlers use the same one, and a handler
      reads what it received. */
  lemma HandlersAreSafe(init: Socket, plan: Plan, selected: set<int>, run: Run)
    requires TableOk(init) && Selects(init, plan, selected) && Valid(init, plan, selected, run)
    ensures var b := State(init, plan, selected, run);
            && (forall f :: f in selected ==> f in b.phase && b.phase[f] != Crashed)
            && (forall f, m :: Uses(b, f, m) ==>
                  f in b.table.peers && b.table.peers[f].buffer == m && m in b.table.buffers)
            && (forall f, g, m :: Uses(b, f, m) && Uses(b, g, m) ==> f == g)
            && (forall f, m :: Uses(b, f, m) && b.phase[f].Reading? ==>
                  f in plan.received && plan.received[f].Text? && m in b.mem && b.mem[m] == plan.received[f].msg)
  {
    RunKeepsInv(init, plan, selected, run);
    var b := State(init, plan, selected, run);
    TableOfInv(init, plan, selected, b);
    hide State, Inv, TableOk, Step, Start, Valid, Selects;
    forall f | f in selected
      ensures f in b.phase && b.phase[f] != Crashed
    {
      NoCrash(init, plan, selected, b, f);
    }
    UsersDiffer(init);
    forall f, m | Uses(b, f, m)
      ensures UseIsSafe(init, plan, b, f, m)
    {
      UserIsSafe(init, plan, selected, b, f, m);
    }
  }

  lemma NoCrash(init: Socket, plan: Plan, selected: set<int>, b: Batch, f: int)
    requires Inv(init, plan, selected, b) && f in selected
    ensures f in b.phase && b.phase[f] != Crashed
  {
    assert f != init.listening ==> HandlerOk(init, plan, b, f);
  }

  lemma UsersDiffer(s: Socket)
    requires TableOk(s)
    ensures forall f, g :: f in s.peers && g in s.peers && s.peers[f].buffer == s.peers[g].buffer ==> f == g
  {
  }

  /** Handler f's buffer m is still its entry's, and if f is about to read it, it holds f's text. */
  predicate UseIsSafe(init: Socket, plan: Plan, b: Batch, f: int, m: nat) {
    && f in b.table.peers && b.table.peers[f].buffer == m && m in b.table.buffers
    && f in init.peers && init.peers[f].buffer == m
    && (f in b.phase && b.phase[f].Reading? ==>
          f in plan.received && plan.received[f].Text? && m in b.mem && b.mem[m] == plan.received[f].msg)
  }

  lemma UserIsSafe(init: Socket, plan: Plan, selected: set<int>, b: Batch, f: int, m: nat)
    requires Inv(init, plan, selected, b) && Uses(b, f, m)
    ensures UseIsSafe(init, plan, b, f, m)
  {
    TableOfInv(init, plan, selected, b);
    hide TableMatches, PendingMatches;
    assert f != init.listening && HandlerOk(init, plan, b, f);
  }

  lemma TableOfInv(init: Socket, plan: Plan, selected: set<int>, b: Batch)
    requires Inv(init, plan, selected, b)
    ensures TableOk(b.table)
  {
  }

  predicate Finished(b: Batch) {
    forall f :: f in b.phase ==> b.phase[f] == Done
  }

  /** The peers that were not selected, or whose handler received a message that is not empty. */
  function Survived(init: Socket, plan: Plan, selected: set<int>): map<int, Peer> {
    map k | k in init.peers && !(k in selected && Dies(plan, k)) :: init.peers[k]
  }

  /** Selected outbound peers towards r whose receive failed. */
  function Broken(init: Socket, plan: Plan, selected: set<int>, r: IPSocket): set<int> {
    set k | k in init.peers && k in selected && k in plan.received && plan.received[k].Failure?
            && init.peers[k].reestablish && init.peers[k].remote == r
  }

  /** However the handlers interleave, the batch ends with exactly the survivors and, if one was
      accepted, one new inbound entry, under a number no survivor has; every broken outbound peer
      has left one reconnect, and the table owns what it should. */
  lemma BatchResult(init: Socket, plan: Plan, selected: set<int>, run: Run)
    requires TableOk(init) && Selects(init, plan, selected) && Valid(init, plan, selected, run)
    requires Finished(State(init, plan, selected, run))
    ensures var b := State(init, plan, selected, run);
            && TableOk(b.table)
            && b.table.peers == Survived(init, plan, selected) + Added(b)
            && Added(b).Keys !! Survived(init, plan, selected).Keys
            && (b.accepted.Some? <==> init.listening in selected && plan.accepts)
            && (b.accepted.Some? ==>
                  && b.accepted.value.1.fd == FileDescriptors.Desc(b.accepted.value.0, true)
                  && b.accepted.value.1.remote == plan.caller && !b.accepted.value.1.reestablish)
            && forall r :: b.table.pending[r] == init.pending[r] + |Broken(init, plan, selected, r)|
  {
    hide State, Valid, Inv, TableOk, Selects, Survivors, Survived, LostTo, Broken, Finished;
    RunKeepsInv(init, plan, selected, run);
    var b := State(init, plan, selected, run);
    FinishedParts(init, plan, selected, b);
    forall r
      ensures LostTo(init, plan, b, r) == Broken(init, plan, selected, r)
    {
      LostAreBroken(init, plan, selected, b, r);
    }
  }

  lemma FinishedParts(init: Socket, plan: Plan, selected: set<int>, b: Batch)
    requires Inv(init, plan, selected, b) && Finished(b)
    ensures TableMatches(init, plan, b) && PendingMatches(init, plan, b) && b.phase.Keys == selected
    ensures b.table.listening == init.listening
    ensures b.table.listening in b.phase ==> b.phase[b.table.listening] == Done
    ensures Survivors(init, plan, b) == Survived(init, plan, selected)
  {
    hide TableOk, HandlerOk, Selects, TableMatches, PendingMatches;
    assert forall k :: k in init.peers ==> (Removed(b, plan, k) <==> k in selected && Dies(plan, k));
  }

  lemma LostAreBroken(init: Socket, plan: Plan, selected: set<int>, b: Batch, r: IPSocket)
    requires b.phase.Keys == selected && Finished(b)
    ensures LostTo(init, plan, b, r) == Broken(init, plan, selected, r)
  {
  }

  /** Two orders of the same batch end with the same table and the same scheduled reconnects, up to
      the number and buffer of the one newly accepted entry. */
  lemma OrderDoesNotMatter(init: Socket, plan: Plan, selected: set<int>, one: Run, other: Run)
    requires TableOk(init) && Selects(init, plan, selected)
    requires Valid(init, plan, selected, one) && Finished(State(init, plan, selected, one))
    requires Valid(init, plan, selected, other) && Finished(State(init, plan, selected, other))
    ensures var b, c := State(init, plan, selected, one), State(init, plan, selected, other);
            && b.table.peers - Added(b).Keys == c.table.peers - Added(c).Keys
            && b.table.pending == c.table.pending
            && (b.accepted.Some? <==> c.accepted.Some?)
            && (b.accepted.Some? ==>
                  b.accepted.value.1.remote == c.accepted.value.1.remote
                  && b.accepted.value.1.reestablish == c.accepted.value.1.reestablish)
  {
    BatchResult(init, plan, selected, one);
    BatchResult(init, plan, selected, other);
    var b, c := State(init, plan, selected, one), State(init, plan, selected, other);
    hide State, TableOk;
    WithoutAdded(b.table.peers, Survived(init, plan, selected), Added(b));
    WithoutAdded(c.table.peers, Survived(init, plan, selected), Added(c));
    assert forall r :: b.table.pending[r] == c.table.pending[r];
    SamePending(b.table.pending, c.table.pending);
  }

  lemma WithoutAdded(all: map<int, Peer>, kept: map<int, Peer>, added: map<int, Peer>)
    requires all == kept + added && added.Keys !! kept.Keys
    ensures all - added.Keys == kept
  {
  }

  lemma SamePending(a: multiset<IPSocket>, b: multiset<IPSocket>)
    requires forall r :: a[r] == b[r]
    ensures a == b
  {
  }

  // ---------------------------------------------------------------- every batch can be finished

  /** How many steps the handler of a peer takes in all, given what it receives. */
  function StepsInAll(received: Received): nat {
    match received
    case Failure => 3
    case Text(msg) => if msg == "" then 5 else 4
  }

  function StepsLeft(plan: Plan, b: Batch, f: int): int
    requires f in b.phase
  {
    var all := if f == b.table.listening || f !in plan.received then 1 else StepsInAll(plan.received[f]);
    match b.phase[f]
    case Idle => all
    case Holding(_) => all - 1
    case Filled => all - 2
    case Reading(_) => all - 3
    case Failed => 1
    case Closing => 1
    case Done => 0
    case Crashed => 0
  }

  /** One element for each step that a handler has still to take. */
  function Ahead(plan: Plan, b: Batch): set<(int, int)> {
    set f, i | f in b.phase && 0 <= i < StepsLeft(plan, b, f) :: (f, i)
  }

  lemma StepIsOneLess(init: Socket, plan: Plan, b: Batch, f: int, n: nat, buffer: nat)
    requires CanStep(b, f, n, buffer)
    requires if f == b.table.listening then b.phase[f] == Idle
             else f in init.peers && f in plan.received && TableOk(b.table) && HandlerOk(init, plan, b, f)
    ensures var c := Step(b, plan, f, n, buffer);
            && f in c.phase && c.table.listening == b.table.listening
            && StepsLeft(plan, c, f) == StepsLeft(plan, b, f) - 1 >= 0
  {
    hide Adopt, Lose, Erase, FreshChoice;
    StepIsLocal(plan, b, f, n, buffer);
  }

  lemma StepIsLocal(plan: Plan, b: Batch, f: int, n: nat, buffer: nat)
    requires CanStep(b, f, n, buffer)
    ensures var c := Step(b, plan, f, n, buffer);
            && c.phase.Keys == b.phase.Keys && c.table.listening == b.table.listening
            && forall g :: g in b.phase && g != f ==> c.phase[g] == b.phase[g]
  {
    hide FreshChoice, FileDescriptors.HandedOn, FileDescriptors.ClosedBy;
  }

  lemma AheadShrinks(init: Socket, plan: Plan, selected: set<int>, b: Batch, f: int, n: nat, buffer: nat)
    requires Inv(init, plan, selected, b) && CanStep(b, f, n, buffer)
    ensures |Ahead(plan, Step(b, plan, f, n, buffer))| == |Ahead(plan, b)| - 1
  {
    var c := Step(b, plan, f, n, buffer);
    StepIsLocal(plan, b, f, n, buffer);
    TableOfInv(init, plan, selected, b);
    hide TableMatches, PendingMatches, HandlerOk, TableOk, Step, CanStep, StepsLeft;
    StepIsOneLess(init, plan, b, f, n, buffer);
    OneAheadLess(plan, b, c, f);
  }

  lemma OneAheadLess(plan: Plan, b: Batch, c: Batch, f: int)
    requires c.phase.Keys == b.phase.Keys && c.table.listening == b.table.listening && f in b.phase
    requires StepsLeft(plan, c, f) == StepsLeft(plan, b, f) - 1 >= 0
    requires forall g :: g in b.phase && g != f ==> c.phase[g] == b.phase[g]
    ensures |Ahead(plan, c)| == |Ahead(plan, b)| - 1
  {
    assert forall g :: g in b.phase && g != f ==> StepsLeft(plan, c, g) == StepsLeft(plan, b, g);
    hide StepsLeft;
    var last := (f, StepsLeft(plan, c, f));
    assert last in Ahead(plan, b);
    assert Ahead(plan, c) == Ahead(plan, b) - {last};
  }

  lemma FinishedIff(init: Socket, plan: Plan, selected: set<int>, b: Batch)
    requires Inv(init, plan, selected, b)
    ensures Finished(b) <==> Ahead(plan, b) == {}
  {
    if !Finished(b) {
      var f :| f in b.phase && b.phase[f] != Done;
      assert f != b.table.listening ==> HandlerOk(init, plan, b, f);
      assert (f, 0) in Ahead(plan, b);
    }
  }

  function Length(run: Run): nat {
    if run.Selected? then 0 else 1 + Length(run.prev)
  }

  /** Steps taken and steps ahead add up to what the batch takes from the start, in every
      interleaving: it is finished after exactly that many, and never before. */
  lemma {:induction false} StepsRunOut(init: Socket, plan: Plan, selected: set<int>, run: Run)
    requires TableOk(init) && Selects(init, plan, selected) && Valid(init, plan, selected, run)
    ensures Length(run) + |Ahead(plan, State(init, plan, selected, run))| == |Ahead(plan, Start(init, selected))|
    ensures Finished(State(init, plan, selected, run)) <==> Length(run) == |Ahead(plan, Start(init, selected))|
  {
    hide Inv, Step, Start, CanStep, Ahead, Finished;
    RunKeepsInv(init, plan, selected, run);
    FinishedIff(init, plan, selected, State(init, plan, selected, run));
    if run.Stepped? {
      StepsRunOut(init, plan, selected, run.prev);
      RunKeepsInv(init, plan, selected, run.prev);
      AheadShrinks(init, plan, selected, State(init, plan, selected, run.prev), run.f, run.n, run.buffer);
    }
  }

  /** `run` is `first` and what came after it. */
  predicate Extends(run: Run, first: Run) {
    run == first || (run.Stepped? && Extends(run.prev, first))
  }

  /** A batch that is not finished can always step, so every interleaving can be carried on until
      all handlers can be joined. */
  lemma {:induction false} BatchCanFinish(init: Socket, plan: Plan, selected: set<int>, run: Run) returns (end: Run)
    requires TableOk(init) && Selects(init, plan, selected) && Valid(init, plan, selected, run)
    ensures Valid(init, plan, selected, end) && Extends(end, run) && Finished(State(init, plan, selected, end))
    decreases |Ahead(plan, State(init, plan, selected, run))|
  {
    var b := State(init, plan, selected, run);
    if Finished(b) {
      end := run;
    } else {
      hide Inv, Step, CanStep, Ahead, Finished, Start, TableOk, Selects;
      RunKeepsInv(init, plan, selected, run);
      var f, n, buffer := SomeoneCanStep(init, plan, selected, b);
      var next := Stepped(run, f, n, buffer);
      AheadShrinks(init, plan, selected, b, f, n, buffer);
      end := BatchCanFinish(init, plan, selected, next);
      ExtendsOn(end, next, run);
    }
  }

  lemma SomeoneCanStep(init: Socket, plan: Plan, selected: set<int>, b: Batch) returns (f: int, n: nat, buffer: nat)
    requires Inv(init, plan, selected, b) && !Finished(b)
    ensures CanStep(b, f, n, buffer)
  {
    f :| f in b.phase && b.phase[f] != Done;
    NoCrash(init, plan, selected, b, f);
    n, buffer := FreshPair(b.table);
  }

  lemma FreshPair(s: Socket) returns (n: nat, buffer: nat)
    ensures FreshChoice(s, n, buffer)
  {
    n := SomeNatOutside(s.files.open);
    buffer := SomeNatOutside(set x | x in s.buffers :: x as int);
  }

  lemma {:induction false} ExtendsOn(run: Run, middle: Run, first: Run)
    requires Extends(run, middle) && Extends(middle, first)
    ensures Extends(run, first)
  {
    if run != middle {
      ExtendsOn(run.prev, middle, first);
    }
  }
}
