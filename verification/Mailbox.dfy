/** The single-slot mailbox between the input task and the network tasks, and the loops around it. */
module Mailbox {
  import opened Constants
  import opened Wrappers

  /** The slot. `Chat` is one atomic exchange: it runs under the slot's own lock. */
  class Slot {
    var msg: string

    constructor ()
      ensures msg == ""
    {
      msg := "";
    }

    method Chat(newMsg: string := "") returns (previous: string)
      modifies this
      ensures previous == old(msg) && msg == newMsg
    {
      previous := msg;
      msg := newMsg;
    }
  }

  // ---------------------------------------------------------------- the input task

  /** The lines up to and including the first quit message. */
  function Spoken(lines: seq<string>): (r: seq<string>)
    ensures r <= lines
  {
    if lines == [] then []
    else if lines[0] == QUIT then [QUIT]
    else [lines[0]] + Spoken(lines[1..])
  }

  /** Nothing follows a quit message, and what is spoken ends with one if the lines have one. */
  lemma {:induction false} SpokenStopsAtQuit(lines: seq<string>)
    ensures forall i :: 0 <= i < |Spoken(lines)| - 1 ==> Spoken(lines)[i] != QUIT
    ensures if QUIT in lines then Spoken(lines) != [] && Spoken(lines)[|Spoken(lines)| - 1] == QUIT
            else Spoken(lines) == lines
  {
    if lines != [] && lines[0] != QUIT {
      SpokenStopsAtQuit(lines[1..]);
      assert lines == [lines[0]] + lines[1..];
    }
  }

  function LastOr(s: seq<string>, default: string): string {
    if s == [] then default else s[|s| - 1]
  }

  /** All that is posted when `posted` has been, last of it msg, and `lines` are still to come. */
  function AllPosted(posted: seq<string>, msg: string, lines: seq<string>): seq<string> {
    if msg == QUIT then posted else posted + Spoken(lines)
  }

  lemma AllPostedStep(posted: seq<string>, msg: string, lines: seq<string>)
    requires msg != QUIT && lines != []
    ensures AllPosted(posted + [lines[0]], lines[0], lines[1..]) == AllPosted(posted, msg, lines)
  {
    assert posted + [lines[0]] + Spoken(lines[1..]) == posted + ([lines[0]] + Spoken(lines[1..]));
  }

  lemma AllPostedEnds(posted: seq<string>, lines: seq<string>)
    ensures AllPosted([], "", lines) == Spoken(lines)
    ensures forall msg :: AllPosted(posted, msg, []) == posted
    ensures AllPosted(posted, QUIT, lines) == posted
  {
    assert posted + [] == posted;
    assert [] + Spoken(lines) == Spoken(lines);
  }

  /** Posts line after line until the quit message has been posted. */
  method IoTask(slot: Slot, lines: seq<string>) returns (posted: seq<string>)
    modifies slot
    ensures posted == Spoken(lines)
    ensures slot.msg == LastOr(posted, old(slot.msg))
  {
    hide Spoken, AllPosted;
    posted := [];
    var msg := "";
    var i := 0;
    AllPostedEnds([], lines);
    assert lines[0..] == lines;
    while msg != QUIT && i < |lines|
      invariant 0 <= i <= |lines|
      invariant AllPosted(posted, msg, lines[i..]) == Spoken(lines)
      invariant slot.msg == LastOr(posted, old(slot.msg))
    {
      AllPostedStep(posted, msg, lines[i..]);
      assert lines[i..][1..] == lines[i + 1..];
      msg := lines[i];
      var _ := slot.Chat(msg);
      posted := posted + [msg];
      i := i + 1;
    }
    AllPostedEnds(posted, lines[i..]);
  }

  // ---------------------------------------------------------------- the network task

  /** When a task started and how long it is to live; a lifetime of zero never ends. */
  datatype Life = Life(start: nat, lifetime: nat) {
    predicate Ended(now: nat) {
      lifetime != 0 && start + lifetime <= now
    }
  }

  /** One round of the loop: what others have put into the slot since the last look, if anything, and
      the time before the round. */
  datatype Round = Round(arrived: Option<string>, now: nat)

  /** What a task sends in the rounds, whether it stops for the quit message, and what is in the
      slot in the end. */
  function Rounds(life: Life, slot: string, rounds: seq<Round>): (seq<string>, bool, string)
    decreases |rounds|
  {
    if rounds == [] || life.Ended(rounds[0].now) then ([], false, slot)
    else
      var msg := if rounds[0].arrived.Some? then rounds[0].arrived.value else slot;
      if msg == QUIT then ([], true, QUIT)
      else
        var rest := Rounds(life, "", rounds[1..]);
        (if msg == "" then rest.0 else [msg] + rest.0, rest.1, rest.2)
  }

  /** Takes the message; passes it on, or puts a quit message back for the other tasks. */
  method ChatOrQuit(slot: Slot) returns (msg: string, sent: seq<string>)
    modifies slot
    ensures msg == old(slot.msg)
    ensures sent == if msg == "" || msg == QUIT then [] else [msg]
    ensures slot.msg == if msg == QUIT then QUIT else ""
  {
    msg := slot.Chat();
    sent := [];
    if msg != "" {
      if msg != QUIT {
        sent := [msg];
      } else {
        var _ := slot.Chat(msg);
      }
    }
  }

  /** The rounds' outcome when `sent` went out before them. */
  function Onward(sent: seq<string>, life: Life, slot: string, rounds: seq<Round>): (seq<string>, bool, string) {
    var rest := Rounds(life, slot, rounds);
    (sent + rest.0, rest.1, rest.2)
  }

  lemma OnwardFromStart(life: Life, slot: string, rounds: seq<Round>)
    ensures Onward([], life, slot, rounds) == Rounds(life, slot, rounds)
  {
    var rest := Rounds(life, slot, rounds);
    assert [] + rest.0 == rest.0;
  }

  lemma OnwardStep(sent: seq<string>, life: Life, slot: string, rounds: seq<Round>)
    requires rounds != [] && !life.Ended(rounds[0].now)
    ensures var msg := if rounds[0].arrived.Some? then rounds[0].arrived.value else slot;
            Onward(sent, life, slot, rounds) ==
            if msg == QUIT then (sent, true, QUIT)
            else Onward(sent + if msg == "" then [] else [msg], life, "", rounds[1..])
  {
    var msg := if rounds[0].arrived.Some? then rounds[0].arrived.value else slot;
    var rest := Rounds(life, "", rounds[1..]);
    assert sent + ([msg] + rest.0) == (sent + [msg]) + rest.0;
    assert sent + [] == sent;
  }

  method NetworkTask(slot: Slot, life: Life, rounds: seq<Round>) returns (sent: seq<string>, quit: bool)
    modifies slot
    ensures (sent, quit, slot.msg) == Rounds(life, old(slot.msg), rounds)
  {
    sent := [];
    var sendMsg := "";
    var i := 0;
    assert rounds[0..] == rounds;
    OnwardFromStart(life, slot.msg, rounds);
    while i < |rounds| && (life.lifetime == 0 || rounds[i].now < life.start + life.lifetime) && sendMsg != QUIT
      invariant 0 <= i <= |rounds|
      invariant Rounds(life, old(slot.msg), rounds) ==
                if sendMsg == QUIT then (sent, true, slot.msg) else Onward(sent, life, slot.msg, rounds[i..])
    {
      OnwardStep(sent, life, slot.msg, rounds[i..]);
      assert rounds[i..][1..] == rounds[i + 1..];
      if rounds[i].arrived.Some? {
        slot.msg := rounds[i].arrived.value;
      }
      var s;
      sendMsg, s := ChatOrQuit(slot);
      sent := sent + s;
      i := i + 1;
    }
    quit := sendMsg == QUIT;
    assert sent + [] == sent;
    assert sendMsg != QUIT ==> Onward(sent, life, slot.msg, rounds[i..]) == (sent, false, slot.msg);
  }

  /** A task never sends an empty message or the quit message, and one that stops for it leaves it. */
  lemma {:induction false} RoundsKeepQuit(life: Life, slot: string, rounds: seq<Round>)
    ensures forall m :: m in Rounds(life, slot, rounds).0 ==> m != "" && m != QUIT
    ensures Rounds(life, slot, rounds).1 ==> Rounds(life, slot, rounds).2 == QUIT
    decreases |rounds|
  {
    if rounds != [] && !life.Ended(rounds[0].now) {
      RoundsKeepQuit(life, "", rounds[1..]);
    }
  }

  /** What a round finds in the slot if the task has emptied it in the round before. */
  function Offered(slot: string, rounds: seq<Round>, i: nat): string
    requires i < |rounds|
  {
    if rounds[i].arrived.Some? then rounds[i].arrived.value else if i == 0 then slot else ""
  }

  function NonEmpty(s: seq<string>): (r: seq<string>)
    ensures forall m :: m in r <==> m in s && m != ""
    ensures |r| <= |s| && (("" !in s) ==> r == s)
  {
    if s == [] then []
    else if s[0] == "" then NonEmpty(s[1..])
    else
      assert s == [s[0]] + s[1..];
      [s[0]] + NonEmpty(s[1..])
  }

  /** k is the first of the rounds that does not take place in full: its time has come after the
      task's lifetime, or it finds the quit message; or there are only k. */
  predicate EndsAt(life: Life, slot: string, rounds: seq<Round>, k: nat)
    requires k <= |rounds|
  {
    && (forall i :: 0 <= i < k ==> !life.Ended(rounds[i].now) && Offered(slot, rounds, i) != QUIT)
    && (k < |rounds| ==> life.Ended(rounds[k].now) || Offered(slot, rounds, k) == QUIT)
  }

  function TakenIn(slot: string, rounds: seq<Round>, k: nat): (r: seq<string>)
    requires k <= |rounds|
    ensures |r| == k && forall i :: 0 <= i < k ==> r[i] == Offered(slot, rounds, i)
  {
    seq(k, i requires 0 <= i < |rounds| => Offered(slot, rounds, i))
  }

  /** A task sends the messages of the rounds before its end, in order and without the empty ones; it
      stops for quit just if that is what ends it within its lifetime; and what comes after the end is
      neither taken nor sent. */
  lemma {:induction false} RoundsMean(life: Life, slot: string, rounds: seq<Round>) returns (k: nat)
    ensures k <= |rounds| && EndsAt(life, slot, rounds, k)
    ensures var (sent, quit, left) := Rounds(life, slot, rounds);
            && sent == NonEmpty(TakenIn(slot, rounds, k))
            && (quit <==> k < |rounds| && !life.Ended(rounds[k].now))
            && left == (if quit then QUIT else if k == 0 then slot else "")
            && (forall i :: 0 <= i < k ==> life.lifetime == 0 || rounds[i].now - life.start < life.lifetime)
            && (k < |rounds| && !quit ==> rounds[k].now - life.start >= life.lifetime > 0)
    decreases |rounds|
  {
    if rounds == [] || life.Ended(rounds[0].now) || Offered(slot, rounds, 0) == QUIT {
      k := 0;
    } else {
      var j := RoundsMean(life, "", rounds[1..]);
      k := j + 1;
      OneRoundEarlier(life, slot, rounds, j);
      hide EndsAt, TakenIn;
      assert ([Offered(slot, rounds, 0)] + TakenIn("", rounds[1..], j))[1..] == TakenIn("", rounds[1..], j);
    }
  }

  lemma OneRoundEarlier(life: Life, slot: string, rounds: seq<Round>, j: nat)
    requires j < |rounds| && EndsAt(life, "", rounds[1..], j)
    requires !life.Ended(rounds[0].now) && Offered(slot, rounds, 0) != QUIT
    ensures EndsAt(life, slot, rounds, j + 1)
    ensures TakenIn(slot, rounds, j + 1) == [Offered(slot, rounds, 0)] + TakenIn("", rounds[1..], j)
  {
    assert forall i :: 1 <= i < |rounds| ==>
        Offered(slot, rounds, i) == Offered("", rounds[1..], i - 1) && rounds[i] == rounds[1..][i - 1];
  }

  /** Nothing from the first round after the lifetime on makes any difference. */
  lemma {:induction false} NothingAfterTheEnd(life: Life, slot: string, before: seq<Round>, r: Round, after: seq<Round>)
    requires life.Ended(r.now)
    ensures Rounds(life, slot, before + [r] + after) == Rounds(life, slot, before)
    decreases |before|
  {
    var all := before + [r] + after;
    if before == [] {
      assert all[0] == r;
    } else {
      assert all[0] == before[0] && all[1..] == before[1..] + [r] + after;
      NothingAfterTheEnd(life, "", before[1..], r, after);
    }
  }

  /** A task whose lifetime is zero goes on until it finds the quit message. */
  lemma ForeverEndsOnlyForQuit(life: Life, slot: string, rounds: seq<Round>)
    requires life.lifetime == 0
    ensures Rounds(life, slot, rounds).1 <==> exists i :: 0 <= i < |rounds| && Offered(slot, rounds, i) == QUIT
  {
    var k := RoundsMean(life, slot, rounds);
    if k < |rounds| {
      assert Offered(slot, rounds, k) == QUIT;
    }
  }
}
