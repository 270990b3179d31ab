/**
 One producer and any number of network tasks around the mailbox slot, under any interleaving. A
 task's take and the put-back of a quit message are separate exchanges; a task may end between
 rounds when its lifetime is over, or when sending throws.
 */
module MailboxProtocol {
  import opened Constants
  import opened FiniteSets
  import opened Mailbox
  import opened Wrappers

  datatype Phase = Looping | Took(msg: string) | Over(quit: bool)

  datatype World = World(slot: string, tasks: map<nat, Phase>, quitPosted: bool)

  datatype Event = Post(line: string) | Take(i: nat) | Act(i: nat, throws: bool) | Expire(i: nat)

  predicate CanHappen(w: World, e: Event) {
    match e
    case Post(_) => !w.quitPosted
    case Take(i) => i in w.tasks && w.tasks[i] == Looping
    case Act(i, throws) =>
      i in w.tasks && w.tasks[i].Took? && (throws ==> w.tasks[i].msg != "" && w.tasks[i].msg != QUIT)
    case Expire(i) => i in w.tasks && w.tasks[i] == Looping
  }

  function After(w: World, e: Event): World
    requires CanHappen(w, e)
  {
    match e
    case Post(line) => w.(slot := line, quitPosted := line == QUIT)
    case Take(i) => w.(slot := "", tasks := w.tasks[i := Took(w.slot)])
    case Act(i, throws) =>
      if w.tasks[i].msg == QUIT then w.(slot := QUIT, tasks := w.tasks[i := Over(true)])
      else w.(tasks := w.tasks[i := if throws then Over(false) else Looping])
    case Expire(i) => w.(tasks := w.tasks[i := Over(false)])
  }

  datatype Run = Begin(tasks: set<nat>) | Then(prev: Run, event: Event)

  function State(run: Run): World {
    match run
    case Begin(tasks) => World("", map i | i in tasks :: Looping, false)
    case Then(prev, e) => if CanHappen(State(prev), e) then After(State(prev), e) else State(prev)
  }

  predicate Valid(run: Run) {
    run.Then? ==> Valid(run.prev) && CanHappen(State(run.prev), run.event)
  }

  // ---------------------------------------------------------------- the steps and the code

  /** What task i's next two steps come to if nobody comes between them. */
  function RoundOf(w: World, i: nat): World
    requires CanHappen(w, Take(i))
  {
    After(After(w, Take(i)), Act(i, false))
  }

  /** Within its lifetime they are one round of the network task's loop: it sends, stops and leaves the
      slot as they do. */
  lemma TwoStepsAreARound(w: World, i: nat, life: Life, now: nat, rounds: seq<Round>)
    requires CanHappen(w, Take(i)) && !life.Ended(now)
    ensures var v := RoundOf(w, i);
            var sent := if w.slot == "" || w.slot == QUIT then [] else [w.slot];
            Rounds(life, w.slot, [Round(None, now)] + rounds) ==
            if v.tasks[i] == Over(true) then (sent, true, v.slot) else Onward(sent, life, v.slot, rounds)
  {
    assert ([Round(None, now)] + rounds)[1..] == rounds;
    var rest := Rounds(life, "", rounds);
    assert [] + rest.0 == rest.0;
  }

  /** After it the loop ends as the protocol's expiry does: nothing is taken and nothing sent. */
  lemma ExpiryIsTheEnd(w: World, i: nat, life: Life, r: Round, rounds: seq<Round>)
    requires CanHappen(w, Expire(i)) && life.Ended(r.now)
    ensures var v := After(w, Expire(i));
            v.tasks[i] == Over(false) && Rounds(life, w.slot, [r] + rounds) == ([], false, v.slot)
  {
    assert ([r] + rounds)[0] == r;
  }

  /** The network task's exchanges are task i's two steps. */
  method ChatAsTask(slot: Slot, ghost w: World, i: nat) returns (sent: seq<string>)
    requires slot.msg == w.slot && CanHappen(w, Take(i))
    modifies slot
    ensures slot.msg == RoundOf(w, i).slot
    ensures sent == if w.slot == "" || w.slot == QUIT then [] else [w.slot]
  {
    var _, messages := ChatOrQuit(slot);
    sent := messages;
  }

  /** The input task's exchange is a post. */
  method PostLine(slot: Slot, ghost w: World, line: string)
    requires slot.msg == w.slot && CanHappen(w, Post(line))
    modifies slot
    ensures slot.msg == After(w, Post(line)).slot
  {
    var _ := slot.Chat(line);
  }

  // ---------------------------------------------------------------- the quit token

  /** Task i is between taking the quit message and putting it back. */
  predicate Holds(w: World, i: nat) {
    i in w.tasks && w.tasks[i] == Took(QUIT)
  }

  function Holders(w: World): set<nat> {
    set i | i in w.tasks && Holds(w, i)
  }

  /** Before quit is posted there is no token; afterwards either it is in the slot and nobody holds
      it, or exactly one task holds it and the slot is empty. */
  predicate OneToken(w: World) {
    && |Holders(w)| + (if w.slot == QUIT then 1 else 0) == (if w.quitPosted then 1 else 0)
    && (w.quitPosted && w.slot != QUIT ==> w.slot == "")
  }

  lemma HoldersStep(w: World, e: Event)
    requires CanHappen(w, e)
    ensures var v := After(w, e);
            Holders(v) == if e.Take? && w.slot == QUIT then Holders(w) + {e.i}
                          else if e.Act? then Holders(w) - {e.i} else Holders(w)
    ensures e.Take? ==> e.i !in Holders(w)
    ensures e.Act? ==> (e.i in Holders(w) <==> w.tasks[e.i].msg == QUIT)
  {
    var v := After(w, e);
    assert forall j :: (e.Post? || j != e.i) ==> (Holds(v, j) <==> Holds(w, j));
  }

  lemma StepKeepsToken(w: World, e: Event)
    requires OneToken(w) && CanHappen(w, e)
    ensures OneToken(After(w, e))
  {
    HoldersStep(w, e);
    hide Holders;
    if e.Act? && e.i in Holders(w) {
      assert |Holders(w) - {e.i}| == |Holders(w)| - 1;
    } else if e.Act? {
      assert Holders(w) - {e.i} == Holders(w);
    }
  }

  /** Quit-token conservation in every interleaving, whatever tasks die on the way. */
  lemma {:induction false} TokenIsConserved(run: Run)
    requires Valid(run)
    ensures OneToken(State(run))
  {
    if run.Then? {
      TokenIsConserved(run.prev);
      StepKeepsToken(State(run.prev), run.event);
    }
  }

  function Live(w: World): set<nat> {
    set i | i in w.tasks && !w.tasks[i].Over?
  }

  lemma PutBackRetires(w: World, i: nat)
    requires Holds(w, i)
    ensures CanHappen(w, Act(i, false))
    ensures var v := After(w, Act(i, false));
            v.tasks[i] == Over(true) && v.slot == QUIT && |Live(v)| == |Live(w)| - 1
  {
    assert Live(After(w, Act(i, false))) == Live(w) - {i};
  }

  lemma NobodyComesBack(w: World, e: Event)
    requires CanHappen(w, e)
    ensures Live(After(w, e)) <= Live(w)
  {
  }

  lemma TakeAfterQuit(w: World, i: nat)
    requires OneToken(w) && w.quitPosted && CanHappen(w, Take(i))
    ensures After(w, Take(i)).tasks[i] == Took(if Holders(w) == {} then QUIT else "")
  {
  }

  lemma NobodyLeft(w: World)
    requires OneToken(w) && w.quitPosted && Live(w) == {}
    ensures w.slot == QUIT
  {
    assert Holders(w) <= Live(w);
    assert Holders(w) == {};
  }

  /** Once quit is posted: a take while nobody holds the token gets it, any other take gets nothing,
      a put-back retires its task and leaves one live task less, no event brings a task back, and
      when no task is left the slot holds the quit message. */
  lemma QuitDrains(run: Run)
    requires Valid(run) && State(run).quitPosted
    ensures var w := State(run);
            && (forall i :: CanHappen(w, Take(i)) ==>
                  After(w, Take(i)).tasks[i] == Took(if Holders(w) == {} then QUIT else ""))
            && (forall i :: Holds(w, i) ==>
                  && CanHappen(w, Act(i, false)) && After(w, Act(i, false)).tasks[i] == Over(true)
                  && After(w, Act(i, false)).slot == QUIT
                  && |Live(After(w, Act(i, false)))| == |Live(w)| - 1)
            && (forall e :: CanHappen(w, e) ==> Live(After(w, e)) <= Live(w))
            && (Live(w) == {} ==> w.slot == QUIT)
  {
    TokenIsConserved(run);
    var w := State(run);
    hide State, Live, Holders, After, CanHappen, Holds, OneToken;
    forall i | CanHappen(w, Take(i))
      ensures After(w, Take(i)).tasks[i] == Took(if Holders(w) == {} then QUIT else "")
    {
      TakeAfterQuit(w, i);
    }
    forall i | Holds(w, i)
      ensures && CanHappen(w, Act(i, false)) && After(w, Act(i, false)).tasks[i] == Over(true)
              && After(w, Act(i, false)).slot == QUIT
              && |Live(After(w, Act(i, false)))| == |Live(w)| - 1
    {
      PutBackRetires(w, i);
    }
    forall e | CanHappen(w, e)
      ensures Live(After(w, e)) <= Live(w)
    {
      NobodyComesBack(w, e);
    }
    if Live(w) == {} {
      NobodyLeft(w);
    }
  }

  predicate Extends(run: Run, first: Run) {
    run == first || (run.Then? && Extends(run.prev, first))
  }

  /** A task is retired by putting quit back, by a send that throws and by the end of its lifetime, and
      by nothing else. */
  predicate Retires(w: World, e: Event, i: nat)
    requires CanHappen(w, e)
  {
    match e
    case Act(j, throws) => i == j && (throws || w.tasks[j].msg == QUIT)
    case Expire(j) => i == j
    case _ => false
  }

  lemma LiveStep(w: World, e: Event, i: nat)
    requires CanHappen(w, e)
    ensures i in Live(After(w, e)) <==> i in Live(w) && !Retires(w, e, i)
    ensures Retires(w, e, i) ==>
              i in Live(w) && Live(After(w, e)) == Live(w) - {i} && |Live(After(w, e))| == |Live(w)| - 1
    ensures Retires(w, e, i) ==> After(w, e).tasks[i] == Over(w.tasks[i] == Took(QUIT))
  {
    if Retires(w, e, i) {
      assert Live(After(w, e)) == Live(w) - {i};
    }
  }

  lemma LiveAfterTakeAndAct(w: World, i: nat)
    requires OneToken(w) && w.quitPosted && Holders(w) == {} && CanHappen(w, Take(i))
    ensures Holds(After(w, Take(i)), i) && Live(After(w, Take(i))) == Live(w)
  {
  }

  /** Three events retire a live task once quit is posted. */
  lemma OneMoreRetires(run: Run) returns (next: Run)
    requires Valid(run) && State(run).quitPosted && exists i :: i in Live(State(run))
    ensures Valid(next) && Extends(next, run) && State(next).quitPosted
    ensures |Live(State(next))| < |Live(State(run))|
  {
    TokenIsConserved(run);
    var w := State(run);
    if j :| Holds(w, j) {
      PutBackRetires(w, j);
      next := Then(run, Act(j, false));
    } else {
      assert Holders(w) == {};
      var i :| i in Live(w);
      next := run;
      assert !Holds(w, i) && Extends(run, run);
      if w.tasks[i] != Looping {
        next := Then(run, Act(i, false));
        assert CanHappen(w, Act(i, false)) && Extends(next, run);
        assert Live(State(next)) == Live(w);
      }
      TokenIsConserved(next);
      var v := State(next);
      assert Holders(v) == {} && v.tasks[i] == Looping;
      LiveAfterTakeAndAct(v, i);
      PutBackRetires(After(v, Take(i)), i);
      var taken := Then(next, Take(i));
      assert Extends(taken, run);
      next := Then(taken, Act(i, false));
    }
  }

  /** From any moment after quit was posted all tasks can be retired, and then the slot holds it. */
  lemma {:induction false} QuitCanAlwaysDrain(run: Run) returns (end: Run)
    requires Valid(run) && State(run).quitPosted
    ensures Valid(end) && Extends(end, run)
    ensures Live(State(end)) == {} && State(end).slot == QUIT
    decreases |Live(State(run))|
  {
    if exists i :: i in Live(State(run)) {
      var next := OneMoreRetires(run);
      end := QuitCanAlwaysDrain(next);
      ExtendsThrough(end, next, run);
    } else {
      end := run;
      TokenIsConserved(run);
      forall i
        ensures i in Live(State(run)) <==> i in {}
      {
      }
      NobodyLeft(State(run));
    }
  }

  lemma {:induction false} ExtendsThrough(run: Run, middle: Run, first: Run)
    requires Extends(run, middle) && Extends(middle, first)
    ensures Extends(run, first)
    decreases run
  {
    if run != middle {
      ExtendsThrough(run.prev, middle, first);
    }
  }

  /** Takes of the quit message in the run so far. */
  function QuitTakes(run: Run): nat {
    match run
    case Begin(_) => 0
    case Then(prev, e) => QuitTakes(prev) + if e.Take? && State(prev).slot == QUIT then 1 else 0
  }

  /** Tasks that have the quit message in hand or have stopped for it. */
  function Reached(w: World): set<nat> {
    set i | i in w.tasks && (w.tasks[i] == Took(QUIT) || w.tasks[i] == Over(true))
  }

  lemma ReachedStep(w: World, e: Event)
    requires CanHappen(w, e)
    ensures |Reached(After(w, e))| == |Reached(w)| + if e.Take? && w.slot == QUIT then 1 else 0
  {
    var v := After(w, e);
    if e.Take? && w.slot == QUIT {
      assert Reached(v) == Reached(w) + {e.i};
    } else {
      assert Reached(v) == Reached(w);
    }
  }

  /** The quit message is taken once by each task it reaches, so never more often than there are tasks. */
  lemma {:induction false} EachTaskQuitsOnce(run: Run)
    requires Valid(run)
    ensures QuitTakes(run) == |Reached(State(run))| <= |State(run).tasks.Keys|
  {
    var w := State(run);
    SubsetIsSmaller(Reached(w), w.tasks.Keys);
    if run.Then? {
      EachTaskQuitsOnce(run.prev);
      ReachedStep(State(run.prev), run.event);
    } else {
      assert Reached(w) == {};
    }
  }

  // ---------------------------------------------------------------- conservation and order

  /** The lines posted, oldest first. */
  function Posted(run: Run): seq<string> {
    match run
    case Begin(_) => []
    case Then(prev, e) => if e.Post? then Posted(prev) + [e.line] else Posted(prev)
  }

  /** The messages taken by all tasks together, oldest first, without empty ones and the quit message. */
  function Taken(run: Run): seq<string> {
    match run
    case Begin(_) => []
    case Then(prev, e) =>
      var slot := State(prev).slot;
      if e.Take? && slot != "" && slot != QUIT then Taken(prev) + [slot] else Taken(prev)
  }

  /** `some` is `all` with some elements left out. */
  predicate IsSubsequence(some: seq<string>, all: seq<string>)
    decreases |all|
  {
    some == [] ||
    (all != [] &&
     var rest := all[..|all| - 1];
     (some[|some| - 1] == all[|all| - 1] && IsSubsequence(some[..|some| - 1], rest)) || IsSubsequence(some, rest))
  }

  lemma SkipLast(some: seq<string>, all: seq<string>, x: string)
    requires IsSubsequence(some, all)
    ensures IsSubsequence(some, all + [x])
  {
    assert (all + [x])[..|all + [x]| - 1] == all;
  }

  lemma MatchLast(some: seq<string>, all: seq<string>, x: string)
    requires IsSubsequence(some, all)
    ensures IsSubsequence(some + [x], all + [x])
  {
    assert (all + [x])[..|all + [x]| - 1] == all;
    assert (some + [x])[..|some + [x]| - 1] == some;
  }

  /** Whatever is in the slot and is not a put-back was posted last and is not among those taken. */
  ghost predicate InOrder(slot: string, taken: seq<string>, posted: seq<string>) {
    && IsSubsequence(taken, posted)
    && (slot != "" && slot != QUIT ==>
          posted != [] && posted[|posted| - 1] == slot && IsSubsequence(taken, posted[..|posted| - 1]))
  }

  lemma PostKeepsOrder(slot: string, taken: seq<string>, posted: seq<string>, line: string)
    requires InOrder(slot, taken, posted)
    ensures InOrder(line, taken, posted + [line])
  {
    SkipLast(taken, posted, line);
    hide IsSubsequence;
    assert (posted + [line])[..|posted + [line]| - 1] == posted;
  }

  lemma TakeKeepsOrder(slot: string, taken: seq<string>, posted: seq<string>)
    requires InOrder(slot, taken, posted)
    ensures InOrder("", if slot != "" && slot != QUIT then taken + [slot] else taken, posted)
  {
    if slot != "" && slot != QUIT {
      MatchLast(taken, posted[..|posted| - 1], slot);
      hide IsSubsequence;
      assert posted[..|posted| - 1] + [slot] == posted;
    }
  }

  /** In every interleaving the messages taken are a subsequence of those posted: no message is
      taken twice or invented, and none overtakes another. */
  lemma {:induction false} TakenIsSubsequence(run: Run)
    requires Valid(run)
    ensures InOrder(State(run).slot, Taken(run), Posted(run))
  {
    hide IsSubsequence, OneToken;
    if run.Begin? {
      assert InOrder("", [], []) by { NothingInOrder(); }
    } else {
      TakenIsSubsequence(run.prev);
      var w, taken, posted := State(run.prev), Taken(run.prev), Posted(run.prev);
      match run.event
      case Post(line) => PostKeepsOrder(w.slot, taken, posted, line);
      case Take(_) => TakeKeepsOrder(w.slot, taken, posted);
      case Act(_, _) =>
      case Expire(_) =>
    }
  }

  lemma NothingInOrder()
    ensures InOrder("", [], [])
  {
  }

  /** A subsequence sits at strictly increasing places: each message taken is a post of its own. */
  lemma {:induction false} SubsequenceHasPlaces(some: seq<string>, all: seq<string>) returns (at: seq<nat>)
    requires IsSubsequence(some, all)
    ensures |at| == |some|
    ensures forall k :: 0 <= k < |at| ==> at[k] < |all| && all[at[k]] == some[k]
    ensures forall j, k :: 0 <= j < k < |at| ==> at[j] < at[k]
    decreases |all|
  {
    if some == [] {
      at := [];
    } else {
      var rest := all[..|all| - 1];
      if some[|some| - 1] == all[|all| - 1] && IsSubsequence(some[..|some| - 1], rest) {
        at := SubsequenceHasPlaces(some[..|some| - 1], rest);
        at := at + [|all| - 1];
      } else {
        at := SubsequenceHasPlaces(some, rest);
      }
    }
  }

  function Bag(msg: string): multiset<string> {
    if msg == "" then multiset{} else multiset{msg}
  }

  /** Non-empty messages posted. */
  function PostedBag(run: Run): multiset<string> {
    match run
    case Begin(_) => multiset{}
    case Then(prev, e) => PostedBag(prev) + if e.Post? then Bag(e.line) else multiset{}
  }

  /** Non-empty messages taken, the quit message each time it is. */
  function TakenBag(run: Run): multiset<string> {
    match run
    case Begin(_) => multiset{}
    case Then(prev, e) => TakenBag(prev) + if e.Take? then Bag(State(prev).slot) else multiset{}
  }

  /** Non-empty messages overwritten in the slot by a later line, empty lines included. */
  function Overwritten(run: Run): multiset<string> {
    match run
    case Begin(_) => multiset{}
    case Then(prev, e) => Overwritten(prev) + if e.Post? then Bag(State(prev).slot) else multiset{}
  }

  /** Quit messages put back. */
  function PutBack(run: Run): multiset<string> {
    match run
    case Begin(_) => multiset{}
    case Then(prev, e) => PutBack(prev) + if e.Act? && Holds(State(prev), e.i) then multiset{QUIT} else multiset{}
  }

  /** One event: what it puts into the slot replaces what was there. */
  lemma StepConserves(w: World, e: Event)
    requires OneToken(w) && CanHappen(w, e)
    ensures Bag(w.slot) + (if e.Post? then Bag(e.line) else multiset{})
            + (if e.Act? && Holds(w, e.i) then multiset{QUIT} else multiset{})
            == Bag(After(w, e).slot) + (if e.Take? then Bag(w.slot) else multiset{})
               + (if e.Post? then Bag(w.slot) else multiset{})
  {
    if e.Act? && Holds(w, e.i) {
      assert e.i in Holders(w);
      assert |Holders(w)| >= |{e.i}| by { SubsetIsSmaller({e.i}, Holders(w)); }
    }
  }

  lemma Rearranged(p: multiset<string>, b: multiset<string>, t: multiset<string>, o: multiset<string>,
                   s: multiset<string>, dp: multiset<string>, db: multiset<string>, dt: multiset<string>,
                   dd: multiset<string>, later: multiset<string>)
    requires p + b == t + o + s && s + dp + db == later + dt + dd
    ensures (p + dp) + (b + db) == (t + dt) + (o + dd) + later
  {
    forall x: string
      ensures ((p + dp) + (b + db))[x] == ((t + dt) + (o + dd) + later)[x]
    {
      assert (p + b)[x] == (t + o + s)[x] && (s + dp + db)[x] == (later + dt + dd)[x];
    }
  }

  /** Mailbox conservation in every interleaving: what was posted or put back has been taken, has
      been overwritten by a line, or is in the slot. A put-back itself never destroys a message. */
  lemma {:induction false} MessagesAreConserved(run: Run)
    requires Valid(run)
    ensures PostedBag(run) + PutBack(run) == TakenBag(run) + Overwritten(run) + Bag(State(run).slot)
  {
    if run.Then? {
      MessagesAreConserved(run.prev);
      TokenIsConserved(run.prev);
      var w, e := State(run.prev), run.event;
      StepConserves(w, e);
      hide After, Bag;
      Rearranged(PostedBag(run.prev), PutBack(run.prev), TakenBag(run.prev), Overwritten(run.prev), Bag(w.slot),
                 if e.Post? then Bag(e.line) else multiset{},
                 if e.Act? && Holds(w, e.i) then multiset{QUIT} else multiset{},
                 if e.Take? then Bag(w.slot) else multiset{}, if e.Post? then Bag(w.slot) else multiset{},
                 Bag(State(run).slot));
    }
  }
}
