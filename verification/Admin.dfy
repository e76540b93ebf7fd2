/** Admin commands: one command at a time on the admin queue pair, under the reference's lock. */
module Admin {
  import opened Arithmetic
  import opened Rings
  import opened Protocol
  import opened ProtocolSafety
  import opened Threads
  import opened QueuePairs
  import opened ChunkIo

  const EAGAIN: int := 11
  const ETIME: int := 62

  /** The command with its identifier field, the upper half of word 0, replaced. */
  function WithCid(c: Cmd, cid: nat): Cmd {
    if c == [] then c else c[0 := c[0] % 0x1_0000 + cid * 0x1_0000]
  }

  /** x is command c in every word and bit, but for its identifier. */
  predicate Copies(x: Cmd, c: Cmd, cid: nat) {
    && |x| == |c| > 0
    && x[0] / 0x1_0000 == cid && x[0] % 0x1_0000 == c[0] % 0x1_0000
    && (forall k :: 1 <= k < |c| ==> x[k] == c[k])
  }

  lemma WithCidCopies(c: Cmd, cid: nat)
    requires c != [] && cid < 0x1_0000
    ensures Copies(WithCid(c, cid), c, cid) && CmdCid(WithCid(c, cid)) == cid
  {
    DivModUnique(c[0] % 0x1_0000 + cid * 0x1_0000, 0x1_0000, cid, c[0] % 0x1_0000);
  }

  method BlockSane(qp: QueuePair, timeout: nat, ghost s: Sane) returns (cpl: Option<Cpl>, polls: nat, ghost t: Sane)
    requires qp.Valid() && qp.View() == s
    modifies qp, qp.cq, qp.cq.vaddr, qp.meter
    ensures qp.meter.polls == old(qp.meter.polls) + polls
    ensures qp.Valid() && qp.Parts() == old(qp.Parts())
    ensures qp.View() == t && Waited(s, t, cpl) && polls <= timeout + 1 && (cpl.None? ==> polls == timeout + 1)
  {
    ghost var last, steps;
    cpl, polls, last, steps := qp.DequeueBlock(timeout);
    t := After(AfterRun(s, steps, last), Dequeue);
    RanThenRead(s, last);
  }

  /** Ring the doorbell and block for one completion. */
  method SubmitAndBlock(qp: QueuePair, timeout: nat, ghost s: Sane)
    returns (cpl: Option<Cpl>, polls: nat, ghost t: Sane)
    requires qp.Valid() && qp.View() == s && HostAt(s.his, Filling)
    modifies qp.Footprint(), qp.meter
    ensures qp.meter.polls == old(qp.meter.polls) + polls
    ensures qp.Valid() && qp.Parts() == old(qp.Parts())
    ensures qp.View() == t && Settled(t.his) && polls <= timeout + 1 && (cpl.None? ==> polls == timeout + 1)
    ensures Returned(s.his.got, t.his.got, cpl) && (Labels(s, |s.his.cmds|) ==> Labelled(t))
    ensures OneReady(s) && cpl.Some? ==>
              && Idle(t) && cpl.value.Cid() == CmdCid(s.his.cmds[s.his.sub])
              && t.his.ran == s.his.ran + [Ran(s.his.sub, s.his.cmds[s.his.sub], s.prp)]
  {
    ghost var u := SubmitSane(qp, s);
    cpl, polls, u := BlockSane(qp, timeout, u);
    t := CountAnswer(qp, cpl, s, u);
  }

  /**
   execute_command.  From an idle pair the command executed meanwhile is exactly the caller's under a
   fresh identifier, the completion returned answers it, and the pair is idle again.
   */
  method ExecuteCommand(qp: QueuePair, cmd: Cmd, timeout: nat, ghost s: Sane)
    returns (err: int, cpl: Option<Cpl>, polls: nat, ghost t: Sane)
    requires qp.Valid() && qp.View() == s && Settled(s.his) && cmd != []
    modifies qp.Footprint(), qp.meter
    ensures qp.meter.polls == old(qp.meter.polls) + polls
    ensures qp.Valid() && qp.View() == t && Settled(t.his) && polls <= timeout + 1
    ensures err == EAGAIN <==> |s.his.cmds| - s.his.upd == s.sq.qs - 1
    ensures err == EAGAIN ==> t == s && polls == 0
    ensures err == 0 <==> cpl.Some?
    ensures Returned(s.his.got, t.his.got, cpl)
    ensures (Labelled(s) ==> Labelled(t)) && (|t.his.got| == |t.his.cmds| ==> Idle(t))
    ensures err == 0 || err == EAGAIN || (err == ETIME && polls == timeout + 1)
    ensures Idle(s) && err == 0 ==>
              var n := |s.his.cmds|;
              && Idle(t) && |t.his.ran| == |s.his.ran| + 1 && s.his.ran <= t.his.ran
              && Copies(t.his.ran[|s.his.ran|].cmd, cmd, CidOf(n + 1, s.sq.qs))
              && cpl.value.Cid() == CidOf(n + 1, s.sq.qs)
  {
    var slot;
    cpl, polls := None, 0;
    slot, t := TryEnqueue(qp, s);
    if slot.None? {
      UnchangedWhenFull(s);
      AnsweredIsIdle(s);
      return EAGAIN, cpl, polls, t;
    }
    t := PlaceCopy(qp, slot.value, cmd, s, t);
    cpl, polls, t := SubmitAndBlock(qp, timeout, t);
    err := if cpl.None? then ETIME else 0;
    AnsweredIsIdle(t);
  }

  /** Copy the caller's command into the slot under the queue's identifier. */
  method PlaceCopy(qp: QueuePair, slot: nat, cmd: Cmd, ghost s: Sane, ghost taken: Sane) returns (ghost t: Sane)
    requires qp.Valid() && qp.View() == taken && SlotTaken(taken, Some(slot)) && cmd != []
    requires Shape(s) && taken == AfterEnqueue(s) && |taken.his.cmds| == |s.his.cmds| + 1
    modifies qp, qp.sq.vaddr
    ensures qp.Valid() && qp.Parts() == old(qp.Parts()) && qp.View() == t
    ensures HostAt(t.his, Filling) && t.his.got == s.his.got && (Labelled(s) ==> Labels(t, |t.his.cmds|))
    ensures var cid := CidOf(|s.his.cmds| + 1, s.sq.qs);
      && |t.his.cmds| == |s.his.cmds| + 1 && Copies(t.his.cmds[|s.his.cmds|], cmd, cid) && CmdCid(t.his.cmds[|s.his.cmds|]) == cid
      && (Idle(s) ==> OneReady(t) && t.his.ran == s.his.ran && t.his.sub == |s.his.cmds|)
  {
    var cid := DefaultCidOf(qp.sq);
    TakenCid(s, taken);
    var copy := WithCid(cmd, cid);
    WithCidCopies(cmd, cid);
    t := After(taken, Write(|taken.his.cmds| - 1, copy));
    WriteFills(taken, copy);
    qp.WriteNewest(slot, copy);
    ChunkIssued(s, taken, t, copy);
    CopyLabels(s, taken, t, copy);
  }

  lemma CopyLabels(s: State, taken: Sane, t: State, copy: Cmd)
    requires Shape(s) && taken == AfterEnqueue(s) && HostAt(taken.his, Filling)
    requires Filled(taken, t, copy) && CmdCid(copy) == DefaultCid(taken.sq)
    ensures Labelled(s) ==> Labels(t, |t.his.cmds|)
  {
    SaneLabel(taken);
    EnqueueLabels(s);
    if Labelled(s) {
      LabelsStay(taken, t, taken.his.sub);
    }
  }

  /** The completion returned is the one read, and nothing else was read. */
  predicate Returned(got: seq<Cpl>, got': seq<Cpl>, cpl: Option<Cpl>) {
    got' == got + if cpl.Some? then [cpl.value] else []
  }

  lemma UnchangedWhenFull(s: Sane)
    requires Shape(s) && |s.his.cmds| - s.his.upd == s.sq.qs - 1
    ensures AfterEnqueue(s) == s
  {
    SaneInv(s);
    FullExactly(s);
  }

  /** The identifier read after the enqueue is that of the n-th command, for every n. */
  lemma TakenCid(s: Sane, t: Sane)
    requires Shape(s) && t == AfterEnqueue(s) && |t.his.cmds| == |s.his.cmds| + 1
    ensures DefaultCid(t.sq) == CidOf(|s.his.cmds| + 1, s.sq.qs)
  {
    SaneInv(t);
    DefaultCidCounts(t.sq, |t.his.cmds|);
  }
}
