/**
 The identifiers inside queued commands.  They are pairwise different within any window of qs - 1
 commands and as long as completions come in order, and exactly then for good: a command overtaken
 by a whole period of others meets its own identifier again.
 */
module Identifiers {
  import opened Arithmetic
  import opened Rings
  import opened Protocol
  import opened ProtocolSafety

  /** Two items share a slot exactly when whole laps lie between them. */
  lemma {:induction false} SameSlot(a: nat, b: nat, q: nat)
    requires 0 < q && a <= b
    ensures Slot(a, q) == Slot(b, q) <==> Slot(b - a, q) == 0
    decreases b
  {
    if b - a >= q {
      SameSlot(a, b - q, q);
    } else {
      SlotGap(a, b, q);
    }
  }

  /** After how many commands the identifiers of a queue repeat. */
  function Period(qs: nat): nat {
    if qs <= 0x8000 then 2 * qs else 0x1_0000
  }

  lemma LabelIsSlot(n: nat, qs: nat)
    requires 0 < qs <= 0x8000 || qs == 0x1_0000
    ensures Label(n, qs) == Slot(n, Period(qs))
  {
    if qs == 0x1_0000 {
      HalfSlot(n, 0x1_0000);
    }
  }

  lemma {:induction false} HalfSlot(n: nat, q: nat)
    requires 0 < q
    ensures Slot(Slot(n, 2 * q), q) == Slot(n, q)
  {
    if n >= 2 * q {
      HalfSlot(n - 2 * q, q);
      assert Slot(n, q) == Slot(n - q, q) == Slot(n - q - q, q);
    }
  }

  lemma LabelsRepeat(i: nat, j: nat, qs: nat)
    requires 0 < qs <= 0x8000 || qs == 0x1_0000
    requires i <= j
    ensures Label(i, qs) == Label(j, qs) <==> (j - i) % Period(qs) == 0
  {
    LabelIsSlot(i, qs);
    LabelIsSlot(j, qs);
    SameSlot(i, j, Period(qs));
    SlotIsRemainder(j - i, Period(qs));
  }

  /** What the invariant says about a queue's size and its window of open commands. */
  lemma Window(s: State)
    requires Inv(s)
    ensures 0 < s.sq.qs <= 0x8000 || s.sq.qs == 0x1_0000
    ensures s.his.sub <= |s.his.cmds| < s.his.upd + s.sq.qs
  {
    LargeDivisor(s.sq.qs);
  }

  /** Two announced commands carry the same identifier exactly when they are whole periods apart. */
  lemma SubmittedCids(s: State, i: nat, j: nat)
    requires Inv(s) && Labelled(s) && i < j < s.his.sub
    ensures CmdCid(s.his.cmds[i]) == CmdCid(s.his.cmds[j]) <==> (j - i) % Period(s.sq.qs) == 0
  {
    Window(s);
    LabelledCids(s, i, j);
  }

  lemma LabelledCids(s: State, i: nat, j: nat)
    requires 0 < s.sq.qs <= 0x8000 || s.sq.qs == 0x1_0000
    requires Labelled(s) && i < j < s.his.sub
    ensures CmdCid(s.his.cmds[i]) == CmdCid(s.his.cmds[j]) <==> (j - i) % Period(s.sq.qs) == 0
  {
    LabelsRepeat(i + 1, j + 1, s.sq.qs);
  }

  /** The window of commands beyond the completions counted: all identifiers in it differ. */
  lemma OutstandingCidsDiffer(s: State, i: nat, j: nat)
    requires Inv(s) && Labelled(s) && s.his.upd <= i < j < s.his.sub
    ensures CmdCid(s.his.cmds[i]) != CmdCid(s.his.cmds[j])
  {
    Window(s);
    NearCidsDiffer(s, i, j);
  }

  lemma NearCidsDiffer(s: State, i: nat, j: nat)
    requires 0 < s.sq.qs <= 0x8000 || s.sq.qs == 0x1_0000
    requires Labelled(s) && i < j < s.his.sub && j - i < s.sq.qs
    ensures CmdCid(s.his.cmds[i]) != CmdCid(s.his.cmds[j])
  {
    LabelledCids(s, i, j);
    WithinPeriod(j - i, s.sq.qs);
  }

  lemma WithinPeriod(d: nat, qs: nat)
    requires 0 < d < qs <= 0x1_0000
    ensures d % Period(qs) != 0
  {
    DivModUnique(d, Period(qs), 0, d);
  }

  /** The host has read the completion of the command with index i. */
  ghost predicate Answered(h: History, i: nat) {
    exists j :: 0 <= j < |h.got| && j < |h.ran| && h.ran[j].index == i
  }

  /** While completions are read in the order of their commands, all unanswered commands differ. */
  lemma InOrderCidsDiffer(s: State, i: nat, j: nat)
    requires Inv(s) && Labelled(s) && i < j < s.his.sub && !Answered(s.his, i) && !Answered(s.his, j)
    requires forall k :: 0 <= k < |s.his.got| ==> s.his.ran[k].index == k
    ensures CmdCid(s.his.cmds[i]) != CmdCid(s.his.cmds[j])
  {
    forall k | 0 <= k < |s.his.got|
      ensures Answered(s.his, k)
    {
      assert s.his.ran[k].index == k;
    }
    OutstandingCidsDiffer(s, i, j);
  }

  // ------------------------------------------------------------ an overtaken command

  /** How far each counter of the history has come. */
  datatype Stage = Stage(cmds: nat, sub: nat, fetched: nat, cpls: nat, got: nat, upd: nat, rung: nat)

  /** All commands are labelled, and the controller still holds command 0. */
  predicate Holding(s: State, qs: nat, g: Stage) {
    && Shape(s) && s.sq.qs == qs && Labels(s, |s.his.cmds|) && 0 in s.dev.pending
    && Stage(|s.his.cmds|, s.his.sub, s.his.fetched, |s.his.cpls|, |s.his.got|, s.his.upd, s.his.rung) == g
  }

  /** Command 0 is held by the controller; n - 1 later commands went all the way round. */
  predicate Overtaken(s: State, qs: nat, n: nat) {
    1 <= n && Holding(s, qs, Stage(n, n, n, n - 1, n - 1, n - 1, n - 1))
  }

  /** As above, with one more command fetched. */
  predicate Overtaking(s: State, qs: nat, n: nat) {
    1 <= n && Holding(s, qs, Stage(n + 1, n + 1, n + 1, n - 1, n - 1, n - 1, n - 1)) && n in s.dev.pending
  }

  lemma SaneShape(s: Sane)
    ensures Shape(s) && s.sq.qs >= 2
    ensures |s.his.cmds| - s.his.upd < s.sq.qs - 1 ==> !Full(s.sq)
    ensures s.his.fetched < s.his.sub ==> Enabled(s, Fetch)
  {
    SaneInv(s);
    FullExactly(s);
    if s.his.fetched < s.his.sub {
      SlotsDiffer(s.his.fetched, s.his.sub, s.sq.qs);
    }
  }

  lemma Place(s: Sane, qs: nat, n: nat) returns (t: Sane)
    requires 3 < qs && Overtaken(s, qs, n)
    ensures Holding(t, qs, Stage(n + 1, n, n, n - 1, n - 1, n - 1, n - 1))
  {
    SaneShape(s);
    var s1 := After(s, Enqueue);
    SaneShape(s1);
    t := After(s1, Write(n, Labelling(Label(n + 1, qs))));
    SaneShape(t);
  }

  /** The next command is enqueued under its default identifier, announced and fetched. */
  lemma Announce(s: Sane, qs: nat, n: nat) returns (t: Sane)
    requires 3 < qs && Overtaken(s, qs, n)
    ensures Overtaking(t, qs, n)
  {
    var s1 := Place(s, qs, n);
    var s2 := After(s1, Submit);
    SaneShape(s2);
    t := After(s2, Fetch);
    SaneShape(t);
  }

  lemma Complete(s: Sane, qs: nat, n: nat) returns (t: Sane)
    requires Overtaking(s, qs, n)
    ensures Holding(t, qs, Stage(n + 1, n + 1, n + 1, n, n - 1, n - 1, n - 1))
  {
    t := After(s, Step.Complete(n, 0, 0));
    SaneShape(t);
  }

  lemma Finish(s: Sane, qs: nat, n: nat) returns (t: Sane)
    requires Overtaking(s, qs, n)
    ensures Holding(t, qs, Stage(n + 1, n + 1, n + 1, n, n, n - 1, n - 1))
  {
    var s1 := Complete(s, qs, n);
    SanePoll(s1);
    t := After(s1, Dequeue);
    SaneShape(t);
  }

  lemma SanePoll(s: Sane)
    ensures s.cq.head < |s.cqMem| && (Polled(s.cq, s.cqMem).Some? <==> |s.his.got| < |s.his.cpls|)
  {
    SaneInv(s);
    PollExactly(s);
  }

  /** The new command overtakes: it is completed, read and released while command 0 stays. */
  lemma Overtake(s: Sane, qs: nat, n: nat) returns (t: Sane)
    requires Overtaking(s, qs, n)
    ensures Overtaken(t, qs, n + 1)
  {
    var s1 := Finish(s, qs, n);
    var s2 := After(s1, SqUpdate);
    SaneShape(s2);
    t := After(s2, CqUpdate);
    SaneShape(t);
  }

  lemma {:induction false} OvertakeUpTo(s: Sane, qs: nat, n: nat, m: nat) returns (t: Sane)
    requires 3 < qs && Overtaken(s, qs, n) && n <= m
    ensures Overtaken(t, qs, m)
    decreases m - n
  {
    t := s;
    if n < m {
      t := Announce(t, qs, n);
      t := Overtake(t, qs, n);
      t := OvertakeUpTo(t, qs, n + 1, m);
    }
  }

  lemma FirstPlaced(sqs: nat, cqs: nat) returns (t: Sane)
    requires 3 < sqs <= cqs <= 0x1_0000 && 0x1_0000 % sqs == 0
    ensures Shape(t) && t.sq.qs == sqs && Labels(t, 1)
    ensures Stage(|t.his.cmds|, t.his.sub, t.his.fetched, |t.his.cpls|, |t.his.got|, t.his.upd, t.his.rung) == Stage(1, 0, 0, 0, 0, 0, 0)
  {
    var s0 := Initial(sqs, cqs, []);
    SlotIsRemainder(0x1_0000, sqs);
    assert Cleanly(s0) && Runs(s0, [], s0);
    var s: Sane := s0;
    SaneShape(s);
    var s1 := After(s, Enqueue);
    SaneShape(s1);
    t := After(s1, Write(0, Labelling(Label(1, sqs))));
    SaneShape(t);
  }

  lemma FirstHeld(sqs: nat, cqs: nat) returns (t: Sane)
    requires 3 < sqs <= cqs <= 0x1_0000 && 0x1_0000 % sqs == 0
    ensures Overtaken(t, sqs, 1)
  {
    var s := FirstPlaced(sqs, cqs);
    var s1 := After(s, Submit);
    SaneShape(s1);
    t := After(s1, Fetch);
    SaneShape(t);
  }

  /**
   The restriction to completions in order is needed: on every queue of four or more entries some
   run leaves the controller with two commands of one identifier, each given to it as the default.
   */
  lemma OvertakenCollides(sqs: nat, cqs: nat) returns (t: Sane)
    requires 3 < sqs <= cqs <= 0x1_0000 && 0x1_0000 % sqs == 0
    ensures Labelled(t) && t.sq.qs == sqs
    ensures var m := Period(sqs);
      0 != m && 0 in t.dev.pending && m in t.dev.pending && CmdCid(t.dev.pending[0]) == CmdCid(t.dev.pending[m])
  {
    var m := Period(sqs);
    t := FirstHeld(sqs, cqs);
    t := OvertakeUpTo(t, sqs, 1, m);
    t := Announce(t, sqs, m);
    SaneInv(t);
    SubmittedCids(t, 0, m);
  }
}
