/**
 The owning file-descriptor wrapper: construction, moves, closing, destruction, and what a program
 must respect so that every descriptor it opens is closed exactly once.
 */
module FileDescriptors {

  const INVALID_FD: int := -1

  /** The descriptors that are open, and how often a number that was not open was closed. */
  datatype OpenFiles = OpenFiles(open: set<int>, badCloses: nat)

  datatype Desc = Desc(fd: int, shouldClose: bool) {
    /** The destructor of this wrapper will close its number. */
    predicate Owns() {
      shouldClose && fd != INVALID_FD
    }

    /** Empty and able to take over a number. */
    predicate Armed() {
      shouldClose && fd == INVALID_FD
    }
  }

  // ---------------------------------------------------------------- specification

  function CloseNumber(k: OpenFiles, n: int): OpenFiles {
    if n in k.open then k.(open := k.open - {n}) else k.(badCloses := k.badCloses + 1)
  }

  /** What `close` and the destructor do to the open files. */
  function ClosedBy(k: OpenFiles, d: Desc): OpenFiles {
    if d.Owns() then CloseNumber(k, d.fd) else k
  }

  function AfterClose(d: Desc): Desc {
    if d.Owns() then d.(shouldClose := false) else d
  }

  /** A new wrapper always starts out willing to close. */
  function MovedTo(source: Desc): Desc {
    Desc(source.fd, true)
  }

  /** A source keeps its number but no longer closes it. */
  function MovedFrom(source: Desc): Desc {
    source.(shouldClose := false)
  }

  /** Assignment closes the target first, and does not make it willing to close again. */
  function AssignedTo(target: Desc, source: Desc): Desc {
    AfterClose(target).(fd := source.fd)
  }

  /** A wrapper's number is moved on `moves` times, and each spent wrapper is destroyed. */
  function HandedOn(k: OpenFiles, d: Desc, moves: nat): (OpenFiles, Desc)
    decreases moves
  {
    if moves == 0 then (k, d) else HandedOn(ClosedBy(k, MovedFrom(d)), MovedTo(d), moves - 1)
  }

  /** However often an owner is moved on, the last wrapper owns the number and nothing is closed. */
  lemma {:induction false} HandingOnKeepsOwner(k: OpenFiles, d: Desc, moves: nat)
    requires d.shouldClose
    ensures HandedOn(k, d, moves) == (k, d)
    decreases moves
  {
    if moves > 0 {
      HandingOnKeepsOwner(ClosedBy(k, MovedFrom(d)), MovedTo(d), moves - 1);
    }
  }

  // ---------------------------------------------------------------- the class

  class Kernel {
    var files: OpenFiles

    constructor ()
      ensures files == OpenFiles({}, 0)
    {
      files := OpenFiles({}, 0);
    }

    method CloseFd(n: int)
      modifies this
      ensures files == CloseNumber(old(files), n)
    {
      if n in files.open {
        files := files.(open := files.open - {n});
      } else {
        files := files.(badCloses := files.badCloses + 1);
      }
    }

    /** The end of a wrapper that is part of some entry. */
    method Destroy(d: Desc)
      modifies this
      ensures files == ClosedBy(old(files), d)
    {
      if d.Owns() {
        CloseFd(d.fd);
      }
    }

    /** A move into a new wrapper, and the end of the old one. */
    method HandOn(d: Desc) returns (to: Desc)
      modifies this
      ensures to == MovedTo(d) && files == ClosedBy(old(files), MovedFrom(d))
    {
      to := MovedTo(d);
      Destroy(MovedFrom(d));
    }
  }

  class FileDescriptor {
    var fd: int
    var shouldClose: bool

    function View(): Desc
      reads this
    {
      Desc(fd, shouldClose)
    }

    constructor (n: int := INVALID_FD)
      ensures View() == Desc(n, true)
    {
      fd, shouldClose := n, true;
    }

    constructor Move(other: FileDescriptor)
      modifies other
      ensures View() == MovedTo(old(other.View())) && other.View() == MovedFrom(old(other.View()))
    {
      fd, shouldClose := other.fd, true;
      new;
      other.shouldClose := false;
    }

    method Assign(kernel: Kernel, other: FileDescriptor)
      modifies this, other, kernel
      ensures this == other ==> unchanged(this) && unchanged(kernel)
      ensures this != other ==>
                && kernel.files == ClosedBy(old(kernel.files), old(View()))
                && View() == AssignedTo(old(View()), old(other.View()))
                && other.View() == MovedFrom(old(other.View()))
    {
      if this != other {
        Close(kernel);
        fd := other.fd;
        other.shouldClose := false;
      }
    }

    method Close(kernel: Kernel)
      modifies this`shouldClose, kernel
      ensures kernel.files == ClosedBy(old(kernel.files), old(View()))
      ensures View() == AfterClose(old(View()))
    {
      if shouldClose && !(fd == INVALID_FD) {
        kernel.CloseFd(fd);
        shouldClose := false;
      }
    }

    /** The destructor. */
    method Destroy(kernel: Kernel)
      modifies this`shouldClose, kernel
      ensures kernel.files == ClosedBy(old(kernel.files), old(View()))
    {
      Close(kernel);
    }
  }

  // ---------------------------------------------------------------- programs over many wrappers

  /** All wrappers alive at some moment, by name, and the files the program has open. */
  datatype Pool = Pool(files: OpenFiles, ds: map<nat, Desc>)

  datatype Op = Open(i: nat, n: nat) | Blank(i: nat) | MoveNew(i: nat, source: nat) | Assign(i: nat, source: nat)
              | Close(i: nat) | Destroy(i: nat)

  predicate CanDo(p: Pool, op: Op) {
    match op
    case Open(i, n) => i !in p.ds && n !in p.files.open
    case Blank(i) => i !in p.ds
    case MoveNew(i, j) => i !in p.ds && j in p.ds
    case Assign(i, j) => i in p.ds && j in p.ds
    case Close(i) => i in p.ds
    case Destroy(i) => i in p.ds
  }

  function Do(p: Pool, op: Op): Pool
    requires CanDo(p, op)
  {
    match op
    case Open(i, n) => Pool(p.files.(open := p.files.open + {n}), p.ds[i := Desc(n, true)])
    case Blank(i) => p.(ds := p.ds[i := Desc(INVALID_FD, true)])
    case MoveNew(i, j) => p.(ds := p.ds[j := MovedFrom(p.ds[j])][i := MovedTo(p.ds[j])])
    case Assign(i, j) =>
      if i == j then p
      else Pool(ClosedBy(p.files, p.ds[i]), p.ds[i := AssignedTo(p.ds[i], p.ds[j])][j := MovedFrom(p.ds[j])])
    case Close(i) => Pool(ClosedBy(p.files, p.ds[i]), p.ds[i := AfterClose(p.ds[i])])
    case Destroy(i) => Pool(ClosedBy(p.files, p.ds[i]), p.ds - {i})
  }

  /** Every open number has exactly one owner, and nothing was ever closed twice. */
  ghost predicate Balanced(p: Pool) {
    && p.files.badCloses == 0
    && (forall i :: i in p.ds && p.ds[i].Owns() ==> p.ds[i].fd in p.files.open)
    && (forall n :: n in p.files.open ==> n != INVALID_FD && HasOwner(p, n))
    && (forall i, j :: i in p.ds && j in p.ds && p.ds[i].Owns() && p.ds[j].Owns() && p.ds[i].fd == p.ds[j].fd ==>
          i == j)
  }

  ghost predicate HasOwner(p: Pool, n: int) {
    exists i :: i in p.ds && p.ds[i].Owns() && p.ds[i].fd == n
  }

  /** Moves are from owners or empty wrappers; an assignment onto another wrapper hands over
      ownership just when that one is empty and has never closed anything. */
  predicate Proper(p: Pool, op: Op)
    requires CanDo(p, op)
  {
    match op
    case MoveNew(_, j) => p.ds[j].Owns() || p.ds[j].fd == INVALID_FD
    case Assign(i, j) => i == j || p.ds[j].fd == INVALID_FD || (p.ds[j].Owns() <==> p.ds[i].Armed())
    case _ => true
  }

  lemma OwnerStays(p: Pool, q: Pool, n: int)
    requires HasOwner(p, n)
    requires forall i :: i in p.ds && p.ds[i].Owns() && p.ds[i].fd == n ==> i in q.ds && q.ds[i] == p.ds[i]
    ensures HasOwner(q, n)
  {
    var i :| i in p.ds && p.ds[i].Owns() && p.ds[i].fd == n;
    assert i in q.ds && q.ds[i] == p.ds[i];
  }

  lemma OpenKeepsBalance(p: Pool, i: nat, n: nat)
    requires Balanced(p) && CanDo(p, Open(i, n))
    ensures Balanced(Do(p, Open(i, n)))
  {
    var q := Do(p, Open(i, n));
    forall m | m in q.files.open
      ensures m != INVALID_FD && HasOwner(q, m)
    {
      if m == n {
        assert q.ds[i].Owns() && q.ds[i].fd == m;
      } else {
        OwnerStays(p, q, m);
      }
    }
  }

  lemma BlankKeepsBalance(p: Pool, i: nat)
    requires Balanced(p) && CanDo(p, Blank(i))
    ensures Balanced(Do(p, Blank(i)))
  {
    var q := Do(p, Blank(i));
    forall m | m in q.files.open
      ensures HasOwner(q, m)
    {
      OwnerStays(p, q, m);
    }
  }

  lemma CloseKeepsBalance(p: Pool, op: Op)
    requires Balanced(p) && CanDo(p, op) && (op.Close? || op.Destroy?)
    ensures Balanced(Do(p, op))
  {
    var q := Do(p, op);
    forall m | m in q.files.open
      ensures m != INVALID_FD && HasOwner(q, m)
    {
      OwnerStays(p, q, m);
    }
  }

  lemma MoveBalanceIff(p: Pool, i: nat, j: nat)
    requires Balanced(p) && CanDo(p, MoveNew(i, j))
    ensures Balanced(Do(p, MoveNew(i, j))) <==> Proper(p, MoveNew(i, j))
  {
    var q := Do(p, MoveNew(i, j));
    if Proper(p, MoveNew(i, j)) {
      forall m | m in q.files.open
        ensures HasOwner(q, m)
      {
        if p.ds[j].Owns() && p.ds[j].fd == m {
          assert q.ds[i].Owns() && q.ds[i].fd == m;
        } else {
          OwnerStays(p, q, m);
        }
      }
    } else if p.ds[j].fd in p.files.open {
      assert HasOwner(p, p.ds[j].fd);
      var o :| o in p.ds && p.ds[o].Owns() && p.ds[o].fd == p.ds[j].fd;
      assert q.ds[o].Owns() && q.ds[i].Owns() && q.ds[o].fd == q.ds[i].fd && o != i;
    } else {
      assert q.ds[i].Owns() && q.ds[i].fd !in q.files.open;
    }
  }

  lemma AssignKeepsBalance(p: Pool, i: nat, j: nat)
    requires Balanced(p) && CanDo(p, Assign(i, j)) && i != j && Proper(p, Assign(i, j))
    ensures Balanced(Do(p, Assign(i, j)))
  {
    var q := Do(p, Assign(i, j));
    forall m | m in q.files.open
      ensures m != INVALID_FD && HasOwner(q, m)
    {
      if p.ds[j].Owns() && p.ds[j].fd == m {
        assert q.ds[i].Owns() && q.ds[i].fd == m;
      } else {
        OwnerStays(p, q, m);
      }
    }
  }

  /** An owner assigned onto a wrapper that is not armed leaks its number; a spent source assigned
      onto an armed one makes a second owner, or the owner of a closed number. */
  lemma AssignBreaksBalance(p: Pool, i: nat, j: nat)
    requires Balanced(p) && CanDo(p, Assign(i, j)) && !Proper(p, Assign(i, j))
    ensures !Balanced(Do(p, Assign(i, j)))
  {
    var q := Do(p, Assign(i, j));
    var n := p.ds[j].fd;
    if p.ds[j].Owns() {
      assert n in q.files.open && !HasOwner(q, n);
    } else if n in p.files.open {
      assert HasOwner(p, n);
      var o :| o in p.ds && p.ds[o].Owns() && p.ds[o].fd == n;
      assert o != i && o != j && q.ds[o] == p.ds[o] && q.ds[i].Owns() && q.ds[i].fd == n;
    } else {
      assert q.ds[i].Owns() && q.ds[i].fd !in q.files.open;
    }
  }

  /** One operation keeps one owner per open number exactly when it is proper. */
  lemma StepBalanceIff(p: Pool, op: Op)
    requires Balanced(p) && CanDo(p, op)
    ensures Balanced(Do(p, op)) <==> Proper(p, op)
  {
    match op
    case Open(i, n) => OpenKeepsBalance(p, i, n);
    case Blank(i) => BlankKeepsBalance(p, i);
    case MoveNew(i, j) => MoveBalanceIff(p, i, j);
    case Assign(i, j) =>
      if Proper(p, op) {
        if i != j { AssignKeepsBalance(p, i, j); }
      } else {
        AssignBreaksBalance(p, i, j);
      }
    case Close(_) => CloseKeepsBalance(p, op);
    case Destroy(_) => CloseKeepsBalance(p, op);
  }

  const EMPTY_POOL: Pool := Pool(OpenFiles({}, 0), map[])

  ghost predicate CanDoAll(p: Pool, ops: seq<Op>)
    decreases |ops|
  {
    ops == [] || (CanDo(p, ops[0]) && Proper(p, ops[0]) && CanDoAll(Do(p, ops[0]), ops[1..]))
  }

  ghost function DoAll(p: Pool, ops: seq<Op>): Pool
    requires CanDoAll(p, ops)
    decreases |ops|
  {
    if ops == [] then p else DoAll(Do(p, ops[0]), ops[1..])
  }

  /** Two numbers are opened, and one owner is assigned onto the other: the first number stays open
      and nobody will ever close it. */
  lemma AssignmentCanLeak(m: nat, n: nat)
    requires m != n
    ensures var p := Do(Do(EMPTY_POOL, Open(0, m)), Open(1, n));
            && Balanced(p) && CanDo(p, Assign(1, 0))
            && m in Do(p, Assign(1, 0)).files.open && !HasOwner(Do(p, Assign(1, 0)), m)
  {
    OpenKeepsBalance(EMPTY_POOL, 0, m);
    OpenKeepsBalance(Do(EMPTY_POOL, Open(0, m)), 1, n);
  }

  /** A wrapper is moved from twice: two wrappers own its number, and close it twice. */
  lemma SecondMoveMakesTwoOwners(n: nat)
    ensures var p := Do(Do(EMPTY_POOL, Open(0, n)), MoveNew(1, 0));
            && Balanced(p) && CanDo(p, MoveNew(2, 0))
            && var q := Do(p, MoveNew(2, 0));
               && q.ds[1].Owns() && q.ds[2].Owns() && q.ds[1].fd == q.ds[2].fd == n
               && Do(Do(q, Destroy(1)), Destroy(2)).files == OpenFiles({}, 1)
               && Do(Do(q, Destroy(2)), Destroy(1)).files == OpenFiles({}, 1)
  {
    OpenKeepsBalance(EMPTY_POOL, 0, n);
    MoveBalanceIff(Do(EMPTY_POOL, Open(0, n)), 1, 0);
  }

  lemma NoElements(s: set<int>)
    requires forall n :: n !in s
    ensures s == {}
  {
    forall x
      ensures x in s <==> x in {}
    {
    }
  }

  /** A program of proper operations closes nothing twice, and once its wrappers are gone nothing
      is left open: every open was closed exactly once. */
  lemma {:induction false} ProperProgramsCloseOnce(p: Pool, ops: seq<Op>)
    requires Balanced(p) && CanDoAll(p, ops)
    ensures var q := DoAll(p, ops);
            && Balanced(q)
            && q.files.badCloses == 0
            && (q.ds == map[] ==> q.files.open == {})
    decreases |ops|
  {
    if ops == [] {
      if p.ds == map[] {
        assert forall n :: !HasOwner(p, n);
        NoElements(p.files.open);
      }
    } else {
      StepBalanceIff(p, ops[0]);
      ProperProgramsCloseOnce(Do(p, ops[0]), ops[1..]);
    }
  }
}
