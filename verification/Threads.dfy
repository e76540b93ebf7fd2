/**
 Threads in do_io (and in execute_command) over several queue pairs.  Each pair has a lock, and the
 thread that holds it walks through enqueue, fill, submit, poll and the two updates; controllers
 step at any time.  The invariant covers every interleaving, also after polls that timed out.
 */
module Threads {
  import opened Arithmetic
  import opened Rings
  import opened Protocol
  import opened ProtocolSafety

  /** Where the lock holder stands; a pair whose lock is free stands at Top. */
  datatype Pc =
    | Top        // before nvm_sq_enqueue
    | Filling    // slot taken, command and PRP page being written
    | Written    // the command stands in its slot under its default identifier
    | Waiting    // doorbell rung, polling
    | Read       // completion read
    | Counted    // nvm_sq_update done, nvm_cq_update next

  /** `late` records that some poll on this pair ran out of time. */
  datatype Pair = Pair(s: State, owner: Option<nat>, pc: Pc, late: bool)

  datatype Action =
    | Lock(thread: nat)
    | Take               // nvm_sq_enqueue
    | Fill(cmd: Cmd)     // write the command just enqueued
    | FillPrp(page: seq<nat>)
    | Ring               // nvm_sq_submit
    | Poll               // nvm_cq_dequeue, after submitting
    | Drain              // nvm_cq_dequeue, because the queue was full
    | Count              // nvm_sq_update
    | Release            // nvm_cq_update
    | Unlock
    | TimeOut            // give up polling and unlock
    | Device(step: Step)

  /** The protocol step an action performs, if any. */
  function StepOf(p: Pair, a: Action): Option<Step> {
    match a
    case Take => Some(Enqueue)
    case Fill(c) => if |p.s.his.cmds| > 0 then Some(Write(|p.s.his.cmds| - 1, c)) else None
    case FillPrp(page) => Some(WritePrp(page))
    case Ring => Some(Submit)
    case Poll => Some(Dequeue)
    case Drain => Some(Dequeue)
    case Count => Some(SqUpdate)
    case Release => Some(CqUpdate)
    case Device(step) => Some(step)
    case _ => None
  }

  function Arrived(p: Pair): Option<Cpl>
    requires Shape(p.s)
  {
    Polled(p.s.cq, p.s.cqMem)
  }

  /** What the code lets a thread do here; the guards of the protocol steps are not among it. */
  predicate May(p: Pair, thread: nat, a: Action)
    requires Shape(p.s)
  {
    match a
    case Lock(t) => p.owner.None? && t == thread
    case Device(step) => !HostStep(step) && Enabled(p.s, step)
    case Take => p.owner == Some(thread) && p.pc.Top? && !Full(p.s.sq)
    case Drain => p.owner == Some(thread) && p.pc.Top? && Full(p.s.sq)
    case Unlock => p.owner == Some(thread) && p.pc.Top?
    case Fill(c) => p.owner == Some(thread) && (p.pc.Filling? || p.pc.Written?) && CmdCid(c) == DefaultCid(p.s.sq)
    case FillPrp(_) => p.owner == Some(thread) && (p.pc.Filling? || p.pc.Written?)
    case Ring => p.owner == Some(thread) && p.pc.Written?
    case Poll => p.owner == Some(thread) && p.pc.Waiting?
    case Count => p.owner == Some(thread) && p.pc.Read?
    case Release => p.owner == Some(thread) && p.pc.Counted?
    case TimeOut => p.owner == Some(thread) && Arrived(p).None? && (p.pc.Waiting? || (p.pc.Top? && Full(p.s.sq)))
  }

  function NextPc(p: Pair, a: Action): Pc
    requires Shape(p.s)
  {
    match a
    case Take => Filling
    case Fill(_) => Written
    case Ring => Waiting
    case Poll => if Arrived(p).Some? then Read else Waiting
    case Drain => if Arrived(p).Some? then Read else Top
    case Count => Counted
    case Release => Top
    case TimeOut => Top
    case _ => p.pc
  }

  /** Stutters if the protocol would forbid the step; the invariant shows that it never does. */
  function Do(p: Pair, a: Action): Pair
    requires Shape(p.s)
  {
    var step := StepOf(p, a);
    Pair(if step.Some? && Enabled(p.s, step.value) then Apply(p.s, step.value) else p.s,
         match a case Lock(t) => Some(t) case Unlock => None case TimeOut => None case _ => p.owner,
         NextPc(p, a),
         p.late || a.TimeOut?)
  }

  // ------------------------------------------------------------------ invariant

  /** The host's own counters, exact on every run. */
  predicate HostAt(h: History, pc: Pc) {
    && |h.cmds| == h.sub + (if pc.Filling? || pc.Written? then 1 else 0)
    && |h.got| == h.upd + (if pc.Read? then 1 else 0)
    && |h.got| == h.rung + (if pc.Read? || pc.Counted? then 1 else 0)
  }

  /** Without a timeout exactly the submitted command is unread, and commands finish in order. */
  predicate InStep(h: History, pc: Pc) {
    && h.sub == |h.got| + (if pc.Waiting? then 1 else 0)
    && (forall j :: 0 <= j < |h.ran| ==> h.ran[j].index == j)
  }

  predicate PairInv(p: Pair) {
    && Inv(p.s)
    && HostAt(p.s.his, p.pc)
    && (!p.late ==> InStep(p.s.his, p.pc))
    && (p.owner.None? ==> p.pc.Top?)
    && Labels(p.s, if p.pc.Written? then |p.s.his.cmds| else p.s.his.sub)
  }

  /** Nothing is in flight: every command was fetched, completed, read, counted and released. */
  predicate Idle(s: State) {
    var h := s.his;
    && |h.cmds| == h.sub == h.fetched == |h.cpls| == |h.ran| == |h.got| == h.upd == h.rung
    && s.dev.pending == map[]
  }

  /** The protocol guards that the code does not test hold wherever the code takes the step. */
  lemma GuardsHold(p: Pair, thread: nat, a: Action)
    requires PairInv(p) && May(p, thread, a)
    ensures StepOf(p, a).Some? ==> Enabled(p.s, StepOf(p, a).value)
    ensures a.Fill? ==> StepOf(p, a).Some?
  {
  }

  lemma ActionKeepsInv(p: Pair, thread: nat, a: Action)
    requires PairInv(p) && May(p, thread, a)
    ensures PairInv(Do(p, a))
  {
    GuardsHold(p, thread, a);
    var step := StepOf(p, a);
    if step.Some? {
      StepKeepsInv(p.s, step.value);
    }
    HostStaysAt(p, thread, a);
    if !p.late && !a.TimeOut? {
      StaysInStep(p, thread, a);
    }
    StaysLabelled(p, thread, a);
  }

  /** The identifier the code reads after the enqueue is the new command's default. */
  lemma NewestLabel(s: State)
    requires Inv(s)
    ensures DefaultCid(s.sq) == Label(|s.his.cmds|, s.sq.qs)
  {
    DefaultCidCounts(s.sq, |s.his.cmds|);
    LabelIsCid(|s.his.cmds|, s.sq.qs);
  }

  /** Commands that stay keep their labels. */
  lemma LabelsStay(s: State, t: State, n: nat)
    requires Labels(s, n) && t.sq.qs == s.sq.qs && n <= |t.his.cmds| && t.his.cmds[..n] == s.his.cmds[..n]
    ensures Labels(t, n)
  {
    forall i | 0 <= i < n
      ensures CmdCid(t.his.cmds[i]) == Label(i + 1, t.sq.qs)
    {
      assert t.his.cmds[..n][i] == s.his.cmds[..n][i];
    }
  }

  lemma FillLabels(s: State, c: Cmd)
    requires Inv(s) && Labels(s, s.his.sub) && |s.his.cmds| == s.his.sub + 1 && CmdCid(c) == DefaultCid(s.sq)
    ensures Labels(AfterWrite(s, s.his.sub, c), |s.his.cmds|)
  {
    NewestLabel(s);
    LabelsStay(s, AfterWrite(s, s.his.sub, c), s.his.sub);
  }

  lemma StaysLabelled(p: Pair, thread: nat, a: Action)
    requires PairInv(p) && May(p, thread, a)
    ensures Labels(Do(p, a).s, if Do(p, a).pc.Written? then |Do(p, a).s.his.cmds| else Do(p, a).s.his.sub)
  {
    if a.Fill? {
      FillLabels(p.s, a.cmd);
      FillWrites(p, thread, a);
    } else {
      OthersLabel(p, thread, a);
    }
  }

  lemma FillWrites(p: Pair, thread: nat, a: Action)
    requires Shape(p.s) && May(p, thread, a) && a.Fill? && HostAt(p.s.his, p.pc)
    ensures Do(p, a).s == AfterWrite(p.s, p.s.his.sub, a.cmd) && Do(p, a).pc.Written?
  {
  }

  lemma OthersLabel(p: Pair, thread: nat, a: Action)
    requires Shape(p.s) && May(p, thread, a) && !a.Fill? && HostAt(p.s.his, p.pc)
    requires Labels(p.s, if p.pc.Written? then |p.s.his.cmds| else p.s.his.sub)
    ensures Labels(Do(p, a).s, if Do(p, a).pc.Written? then |Do(p, a).s.his.cmds| else Do(p, a).s.his.sub)
  {
    if !a.Take? {
      assert Do(p, a).s.his.cmds == p.s.his.cmds && Do(p, a).s.sq.qs == p.s.sq.qs;
    }
  }

  lemma HostStaysAt(p: Pair, thread: nat, a: Action)
    requires PairInv(p) && May(p, thread, a)
    ensures HostAt(Do(p, a).s.his, Do(p, a).pc)
  {
    GuardsHold(p, thread, a);
    HostMoves(p, thread, a);
  }

  lemma HostMoves(p: Pair, thread: nat, a: Action)
    requires Shape(p.s) && May(p, thread, a) && HostAt(p.s.his, p.pc) && (p.owner.None? ==> p.pc.Top?)
    requires StepOf(p, a).Some? ==> Enabled(p.s, StepOf(p, a).value)
    ensures HostAt(Do(p, a).s.his, Do(p, a).pc)
  {
  }

  lemma StaysInStep(p: Pair, thread: nat, a: Action)
    requires PairInv(p) && May(p, thread, a) && !p.late && !a.TimeOut?
    ensures InStep(Do(p, a).s.his, Do(p, a).pc)
  {
    GuardsHold(p, thread, a);
    if a.Device? && a.step.Complete? {
      OnlyPending(p, a.step.index);
    }
    PollExactly(p.s);
    FullExactly(p.s);
    StepMoves(p, thread, a);
  }

  lemma StepMoves(p: Pair, thread: nat, a: Action)
    requires Shape(p.s) && May(p, thread, a) && !a.TimeOut? && InStep(p.s.his, p.pc) && HostAt(p.s.his, p.pc)
    requires StepOf(p, a).Some? ==> Enabled(p.s, StepOf(p, a).value)
    requires a.Device? && a.step.Complete? ==> a.step.index == |p.s.his.ran|
    requires Arrived(p).Some? ==> |p.s.his.got| < |p.s.his.cpls| <= p.s.his.sub
    requires Full(p.s.sq) ==> p.s.his.upd < |p.s.his.cmds|
    ensures InStep(Do(p, a).s.his, Do(p, a).pc)
  {
  }

  /** In step, the one command the controller can hold is the one just submitted. */
  lemma OnlyPending(p: Pair, i: nat)
    requires PairInv(p) && !p.late && i in p.s.dev.pending
    ensures i == |p.s.his.ran|
  {
    var h := p.s.his;
    forall j | 0 <= j < |h.ran|
      ensures j !in p.s.dev.pending
    {
      assert h.ran[j].index == j;
    }
  }

  /** A pair whose lock is free and that never timed out is idle. */
  lemma IdleWhenInStep(p: Pair)
    requires PairInv(p) && !p.late && p.pc.Top?
    ensures Idle(p.s)
  {
    assert |p.s.dev.pending| == 0;
  }

  // -------------------------------------------------------------- all interleavings

  datatype Event = Event(pair: nat, thread: nat, action: Action)

  predicate AllShaped(sys: seq<Pair>) {
    forall q :: 0 <= q < |sys| ==> Shape(sys[q].s)
  }

  ghost predicate Interleaves(sys: seq<Pair>, events: seq<Event>, sys': seq<Pair>)
    decreases |events|
  {
    if events == [] then sys == sys'
    else
      var e := events[0];
      && AllShaped(sys) && e.pair < |sys| && May(sys[e.pair], e.thread, e.action)
      && Interleaves(sys[e.pair := Do(sys[e.pair], e.action)], events[1..], sys')
  }

  /** Unlocked pairs over cleared rings: admin or IO queues, whatever their sizes. */
  predicate Fresh(p: Pair) {
    && 2 <= p.s.sq.qs <= p.s.cq.qs <= 0x1_0000 && 0x1_0000 % p.s.sq.qs == 0
    && p.s == Initial(p.s.sq.qs, p.s.cq.qs, p.s.prp)
    && p.owner.None? && p.pc.Top? && !p.late
  }

  lemma FreshInv(p: Pair)
    requires Fresh(p)
    ensures PairInv(p)
  {
    InitialInv(p.s.sq.qs, p.s.cq.qs, p.s.prp);
  }

  lemma {:induction false} InterleavingKeepsInv(sys: seq<Pair>, events: seq<Event>, sys': seq<Pair>)
    requires forall q :: 0 <= q < |sys| ==> PairInv(sys[q])
    requires Interleaves(sys, events, sys')
    ensures |sys'| == |sys| && forall q :: 0 <= q < |sys'| ==> PairInv(sys'[q])
    decreases |events|
  {
    if events != [] {
      var e := events[0];
      ActionKeepsInv(sys[e.pair], e.thread, e.action);
      InterleavingKeepsInv(sys[e.pair := Do(sys[e.pair], e.action)], events[1..], sys');
    }
  }

  /** Idle while unlocked; command and PRP page are written only while the controller holds nothing. */
  predicate IdleUnlocked(p: Pair) {
    && (!p.late && p.owner.None? ==> Idle(p.s))
    && (!p.late && (p.pc.Filling? || p.pc.Written?) ==> p.s.dev.pending == map[] && p.s.his.fetched == p.s.his.sub)
  }

  /** A completion that can be read answers the command just submitted. */
  predicate OwnAnswer(p: Pair)
    requires Shape(p.s)
  {
    !p.late && p.pc.Waiting? && Arrived(p).Some? ==>
      var n := |p.s.his.cmds|;
      && 0 < n == |p.s.his.ran| && p.s.his.ran[n - 1].index == n - 1
      && Arrived(p).value.Cid() == CmdCid(p.s.his.cmds[n - 1])
  }

  /** The drain loop is entered only after a timeout, and one drained entry makes room. */
  predicate DrainOnce(p: Pair)
    requires Shape(p.s)
  {
    && (p.pc.Top? && Full(p.s.sq) ==> p.late && |p.s.his.cmds| - p.s.his.upd == p.s.sq.qs - 1)
    && (p.pc.Counted? ==> !Full(p.s.sq))
  }

  /**
   What a pair in any interleaving of any threads promises before its next action; also after
   timeouts every announced command carries its default identifier.
   */
  predicate Promises(p: Pair) {
    Shape(p.s) && IdleUnlocked(p) && OwnAnswer(p) && DrainOnce(p) && Labelled(p.s)
  }

  lemma EveryInterleavingPromises(sys: seq<Pair>, events: seq<Event>, sys': seq<Pair>, q: nat)
    requires forall k :: 0 <= k < |sys| ==> Fresh(sys[k])
    requires Interleaves(sys, events, sys') && q < |sys'|
    ensures Promises(sys'[q])
  {
    forall k | 0 <= k < |sys|
      ensures PairInv(sys[k])
    {
      FreshInv(sys[k]);
    }
    InterleavingKeepsInv(sys, events, sys');
    InvPromises(sys'[q]);
  }

  lemma InvPromises(p: Pair)
    requires PairInv(p)
    ensures Promises(p)
  {
    NothingHeld(p);
    AnswerIsOwn(p);
    DrainMakesRoom(p);
  }

  lemma NothingHeld(p: Pair)
    requires PairInv(p)
    ensures IdleUnlocked(p)
  {
    if !p.late && p.pc.Top? {
      IdleWhenInStep(p);
    }
    if !p.late && (p.pc.Filling? || p.pc.Written?) {
      assert |p.s.dev.pending| == 0;
    }
  }

  lemma AnswerIsOwn(p: Pair)
    requires PairInv(p)
    ensures OwnAnswer(p)
  {
    PollExactly(p.s);
    if !p.late && p.pc.Waiting? && Arrived(p).Some? {
      var n := |p.s.his.cmds|;
      assert p.s.his.ran[n - 1].cmd == p.s.his.cmds[n - 1];
    }
  }

  lemma DrainMakesRoom(p: Pair)
    requires PairInv(p)
    ensures DrainOnce(p)
  {
    FullExactly(p.s);
  }

  /** A timed-out poll on a pair in step always leaves its command behind: the pair is not idle. */
  lemma TimeOutLeavesCommand(p: Pair, thread: nat)
    requires PairInv(p) && !p.late && May(p, thread, TimeOut)
    ensures Do(p, TimeOut).owner.None? && !Idle(Do(p, TimeOut).s)
  {
    FullExactly(p.s);
  }
}
