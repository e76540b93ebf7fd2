/** Every step keeps the queue-pair invariant, and what the invariant promises. */
module ProtocolSafety {
  import opened Arithmetic
  import opened Rings
  import opened Protocol

  lemma InitialInv(sqs: nat, cqs: nat, prp: seq<nat>)
    requires 2 <= sqs <= cqs <= 0x1_0000 && 0x1_0000 % sqs == 0
    ensures Inv(Initial(sqs, cqs, prp))
  {
    SlotIsRemainder(0x1_0000, sqs);
  }

  // ------------------------------------------------------ what single states promise

  /** The full test refuses exactly when qs - 1 commands are not yet counted as completed. */
  lemma FullExactly(s: State)
    requires Inv(s)
    ensures Full(s.sq) <==> |s.his.cmds| - s.his.upd == s.sq.qs - 1
  {
    FullCounts(s.sq, |s.his.cmds|, s.his.sub, s.his.upd);
  }

  lemma FullCounts(sq: Ring, enq: nat, sub: nat, upd: nat)
    requires SqWrapped(sq, enq, sub, upd) && Slot(0x1_0000, sq.qs) == 0 && upd <= enq < upd + sq.qs
    ensures Full(sq) <==> enq - upd == sq.qs - 1
  {
    SlotIsRemainder(0x1_0000, sq.qs);
    TruncatedDistance(sq);
    SlotGap(upd, enq, sq.qs);
    OccupancyIs(sq, enq - upd);
  }

  lemma OccupancyIs(r: Ring, n: nat)
    requires Wf(r) && n < r.qs && (r.tail - r.head == n || r.tail - r.head == n - r.qs)
    ensures Occupancy(r) == n
  {
    DivModUnique(r.tail - r.head, r.qs, if r.tail - r.head == n then 0 else -1, n);
  }

  /** The slot a new command takes is none of those the controller has yet to fetch. */
  lemma SlotFree(s: State)
    requires Inv(s) && !Full(s.sq)
    ensures forall i :: s.his.fetched <= i < |s.his.cmds| ==> Slot(i, s.sq.qs) != s.sq.tail
  {
    FullExactly(s);
    forall i | s.his.fetched <= i < |s.his.cmds|
      ensures Slot(i, s.sq.qs) != s.sq.tail
    {
      SlotsDiffer(i, |s.his.cmds|, s.sq.qs);
    }
  }

  /** The host sees a new entry exactly when one is posted and unread, and it is the oldest such. */
  lemma PollExactly(s: State)
    requires Inv(s)
    ensures Polled(s.cq, s.cqMem) ==
            if |s.his.got| < |s.his.cpls| then Some(s.his.cpls[|s.his.got|]) else None
  {
    var n, q := |s.his.got|, s.cq.qs;
    if n < |s.his.cpls| {
      assert s.cqMem[Slot(n, q)] == s.his.cpls[n];
    } else if n >= q {
      assert s.cqMem[Slot(n - q, q)] == s.his.cpls[n - q];
    }
  }

  /** The slot the controller posts into holds no completion the host has yet to release. */
  lemma PostSlotFree(s: State)
    requires Inv(s)
    ensures |s.his.cpls| - s.his.rung < s.cq.qs
    ensures forall p :: s.his.rung <= p < |s.his.cpls| ==> Slot(p, s.cq.qs) != s.dev.post
  {
    forall p | s.his.rung <= p < |s.his.cpls|
      ensures Slot(p, s.cq.qs) != s.dev.post
    {
      SlotsDiffer(p, |s.his.cpls|, s.cq.qs);
    }
  }

  /** An entry that was read stays in its slot until its consumption is announced. */
  lemma ReadEntryStable(s: State, p: nat)
    requires Inv(s) && s.his.rung <= p < |s.his.got|
    ensures s.cqMem[Slot(p, s.cq.qs)] == s.his.got[p]
  {
    assert s.his.got[p] == s.his.cpls[p];
  }

  /** The first n commands carry the identifiers that NVM_DEFAULT_CID gave them. */
  predicate Labels(s: State, n: nat) {
    && 0 < s.sq.qs && n <= |s.his.cmds|
    && forall i :: 0 <= i < n ==> CmdCid(s.his.cmds[i]) == Label(i + 1, s.sq.qs)
  }

  /** Every command announced to the controller carries its default identifier. */
  predicate Labelled(s: State) {
    Labels(s, s.his.sub)
  }

  /** A command that carries nothing but an identifier. */
  function Labelling(cid: nat): (c: Cmd)
    requires cid < 0x1_0000
    ensures CmdCid(c) == cid
  {
    [cid * 0x1_0000]
  }

  lemma LargeDivisor(q: nat)
    requires 0 < q <= 0x1_0000 && Slot(0x1_0000, q) == 0
    ensures q <= 0x8000 || q == 0x1_0000
  {
    SlotIsRemainder(0x1_0000, q);
    var k := 0x1_0000 / q;
    assert q * k == 0x1_0000;
    if k >= 2 {
      assert q * 2 <= q * k;
    }
  }

  // ------------------------------------------------------------- each step keeps Inv

  lemma EnqueueKeeps(s: State)
    requires Inv(s)
    ensures Inv(AfterEnqueue(s))
  {
    EnqueueRings(s);
    EnqueueMemory(s);
  }

  lemma EnqueueRings(s: State)
    requires RingInv(s)
    ensures RingInv(AfterEnqueue(s))
  {
    FullCounts(s.sq, |s.his.cmds|, s.his.sub, s.his.upd);
    StepSlot(|s.his.cmds|, s.sq.qs);
  }

  lemma EnqueueMemory(s: State)
    requires Inv(s)
    ensures MemInv(AfterEnqueue(s))
  {
    FlightGrows(s.dev.pending, s.his.cmds, s.his.fetched, s.his.ran, s.sqMem[s.sq.tail]);
    SlotsGrow(s);
  }

  lemma FlightGrows(pending: map<nat, Cmd>, cmds: seq<Cmd>, fetched: nat, ran: seq<Ran>, c: Cmd)
    requires Flight(pending, cmds, fetched, ran)
    ensures Flight(pending, cmds + [c], fetched, ran)
  {
  }

  lemma SlotsGrow(s: State)
    requires Inv(s)
    ensures SqSlots(s.sqMem, s.his.cmds + [s.sqMem[s.sq.tail]], s.his.fetched)
  {
  }

  lemma WriteKeeps(s: State, i: nat, c: Cmd)
    requires Inv(s) && Enabled(s, Write(i, c))
    ensures Inv(AfterWrite(s, i, c))
  {
    assert Flight(s.dev.pending, s.his.cmds[i := c], s.his.fetched, s.his.ran);
    WriteSlot(s, i, c);
  }

  lemma WriteSlot(s: State, i: nat, c: Cmd)
    requires Inv(s) && Enabled(s, Write(i, c))
    ensures SqSlots(s.sqMem[Slot(i, s.sq.qs) := c], s.his.cmds[i := c], s.his.fetched)
  {
    var q := s.sq.qs;
    var mem, cmds := s.sqMem[Slot(i, q) := c], s.his.cmds[i := c];
    forall k | s.his.fetched <= k < |cmds|
      ensures mem[Slot(k, q)] == cmds[k]
    {
      if k < i {
        SlotsDiffer(k, i, q);
      } else if i < k {
        SlotsDiffer(i, k, q);
      }
      assert s.sqMem[Slot(k, q)] == s.his.cmds[k];
    }
  }

  lemma SubmitKeeps(s: State)
    requires Inv(s) && Enabled(s, Submit)
    ensures Inv(AfterSubmit(s))
    ensures AfterSubmit(s).sq.bell == Some(s.sq.tail)
  {
    SlotGap(s.his.sub, |s.his.cmds|, s.sq.qs);
  }

  lemma DequeueKeeps(s: State)
    requires Inv(s)
    ensures Inv(AfterDequeue(s))
  {
    PollExactly(s);
    if Polled(s.cq, s.cqMem).Some? {
      DequeueRings(s);
      PrefixGrows(s.his.got, s.his.cpls);
    }
  }

  lemma DequeueRings(s: State)
    requires RingInv(s) && |s.his.got| < |s.his.cpls|
    ensures RingInv(AfterDequeue(s))
  {
    StepSlot(|s.his.got|, s.cq.qs);
  }

  lemma PrefixGrows<T>(a: seq<T>, b: seq<T>)
    requires a <= b && |a| < |b|
    ensures a + [b[|a|]] <= b
  {
  }

  lemma SqUpdateKeeps(s: State)
    requires Inv(s) && Enabled(s, SqUpdate)
    ensures Inv(AfterSqUpdate(s))
  {
    SqUpdateRings(s);
  }

  lemma SqUpdateRings(s: State)
    requires RingInv(s) && Enabled(s, SqUpdate)
    ensures RingInv(AfterSqUpdate(s))
  {
    StepSlot(s.his.upd, s.sq.qs);
  }

  lemma CqUpdateKeeps(s: State)
    requires Inv(s)
    ensures Inv(AfterCqUpdate(s))
  {
    SlotGap(s.his.rung, |s.his.got|, s.cq.qs);
  }

  lemma FetchKeeps(s: State)
    requires Inv(s) && Enabled(s, Fetch)
    ensures Inv(AfterFetch(s))
  {
    FetchRings(s);
    FetchMemory(s);
  }

  lemma FetchRings(s: State)
    requires RingInv(s) && Enabled(s, Fetch)
    ensures s.his.fetched < s.his.sub
    ensures RingInv(AfterFetch(s))
  {
    SlotGap(s.his.fetched, s.his.sub, s.sq.qs);
    StepSlot(s.his.fetched, s.sq.qs);
  }

  lemma FetchMemory(s: State)
    requires Inv(s) && s.his.fetched < s.his.sub
    ensures MemInv(AfterFetch(s))
  {
    assert s.sqMem[s.dev.fetch] == s.his.cmds[s.his.fetched];
  }

  lemma CompleteKeeps(s: State, i: nat, dw0: nat, status: nat)
    requires Inv(s) && Enabled(s, Complete(i, dw0, status))
    ensures Inv(AfterComplete(s, i, Posted(s, i, dw0, status)))
  {
    var c := Posted(s, i, dw0, status);
    CplWordFields(dw0, CmdCid(s.dev.pending[i]), s.dev.tag, status);
    CompleteMemory(s, i, c);
    CompleteRings(s, i, c);
  }

  lemma CompleteRings(s: State, i: nat, c: Cpl)
    requires RingInv(s) && i in s.dev.pending && |s.his.cpls| < s.his.fetched
    ensures RingInv(AfterComplete(s, i, c))
  {
    StepSlot(|s.his.cpls|, s.cq.qs);
  }

  lemma CompleteMemory(s: State, i: nat, c: Cpl)
    requires Inv(s) && i in s.dev.pending
    requires c.Tag() == s.dev.tag && c.Cid() == CmdCid(s.dev.pending[i])
    ensures |s.his.cpls| < s.his.fetched
    ensures MemInv(AfterComplete(s, i, c))
  {
    var h := s.his;
    CompleteFlight(s.dev.pending, h.cmds, h.fetched, h.ran, i, s.prp);
    PostIntoSlot(s.cqMem, h.cpls, s.dev, c);
    AnswersGrow(h.cpls, h.ran, c, Ran(i, s.dev.pending[i], s.prp));
    PrefixStays(h.got, h.cpls, c);
  }

  lemma PrefixStays<T>(a: seq<T>, b: seq<T>, x: T)
    requires a <= b
    ensures a <= b + [x]
  {
  }

  lemma AnswersGrow(cpls: seq<Cpl>, ran: seq<Ran>, c: Cpl, r: Ran)
    requires Answers(cpls, ran) && c.Cid() == CmdCid(r.cmd)
    ensures Answers(cpls + [c], ran + [r])
  {
  }

  lemma CompleteFlight(pending: map<nat, Cmd>, cmds: seq<Cmd>, fetched: nat, ran: seq<Ran>, i: nat, page: seq<nat>)
    requires Flight(pending, cmds, fetched, ran) && i in pending
    ensures Flight(pending - {i}, cmds, fetched, ran + [Ran(i, pending[i], page)])
  {
    var pending' := pending - {i};
    assert pending'.Keys == pending.Keys - {i};
  }

  lemma PostIntoSlot(cqMem: seq<Cpl>, cpls: seq<Cpl>, dev: Device, c: Cpl)
    requires CqSlots(cqMem, cpls) && PostWrapped(dev, |cqMem|, |cpls|) && c.Tag() == dev.tag
    ensures CqSlots(cqMem[dev.post := c], cpls + [c])
  {
    var n, q := |cpls|, |cqMem|;
    var mem', cpls' := cqMem[dev.post := c], cpls + [c];
    forall p | 0 <= p < |cpls'| && |cpls'| - q <= p
      ensures mem'[Slot(p, q)] == cpls'[p]
    {
      if p < n {
        SlotsDiffer(p, n, q);
        assert cqMem[Slot(p, q)] == cpls[p];
      }
    }
  }

  lemma StepKeepsInv(s: State, step: Step)
    requires Inv(s) && Enabled(s, step)
    ensures Inv(Apply(s, step))
  {
    match step
    case Enqueue => EnqueueKeeps(s);
    case Write(i, c) => WriteKeeps(s, i, c);
    case WritePrp(page) =>
    case Submit => SubmitKeeps(s);
    case Dequeue => DequeueKeeps(s);
    case SqUpdate => SqUpdateKeeps(s);
    case CqUpdate => CqUpdateKeeps(s);
    case Fetch => FetchKeeps(s);
    case Complete(i, dw0, status) => CompleteKeeps(s, i, dw0, status);
  }

  // ------------------------------------------------------------------- whole runs

  ghost predicate Runs(s: State, steps: seq<Step>, t: State)
    decreases |steps|
  {
    if steps == [] then s == t
    else Shape(s) && Enabled(s, steps[0]) && Runs(Apply(s, steps[0]), steps[1..], t)
  }

  lemma {:induction false} RunsAppend(s: State, a: seq<Step>, u: State, b: seq<Step>, t: State)
    requires Runs(s, a, u) && Runs(u, b, t)
    ensures Runs(s, a + b, t)
    decreases |a|
  {
    if a == [] {
      assert a + b == b;
    } else {
      RunsAppend(Apply(s, a[0]), a[1..], u, b, t);
      assert (a + b)[1..] == a[1..] + b;
    }
  }

  lemma RunsStep(s: State, a: seq<Step>, u: State, step: Step)
    requires Runs(s, a, u) && Shape(u) && Enabled(u, step)
    ensures Runs(s, a + [step], Apply(u, step))
  {
    var t := Apply(u, step);
    assert [step][1..] == [];
    assert Runs(t, [], t);
    assert Runs(u, [step], t);
    RunsAppend(s, a, u, [step], t);
  }

  lemma {:induction false} RunKeepsInv(s: State, steps: seq<Step>, t: State)
    requires Inv(s) && Runs(s, steps, t)
    ensures Inv(t)
    decreases |steps|
  {
    if steps != [] {
      StepKeepsInv(s, steps[0]);
      RunKeepsInv(Apply(s, steps[0]), steps[1..], t);
    }
  }

  /** What is announced, posted, executed and read is never taken back. */
  predicate Extends(h: History, h': History) {
    && h.sub <= h'.sub && h.fetched <= h'.fetched && h.upd <= h'.upd && h.rung <= h'.rung
    && h.cpls <= h'.cpls && h.ran <= h'.ran && h.got <= h'.got
    && |h.cmds| <= |h'.cmds| && h.sub <= |h.cmds|
    && (forall i :: 0 <= i < h.sub ==> h'.cmds[i] == h.cmds[i])
  }

  lemma StepExtends(s: State, step: Step)
    requires Inv(s) && Enabled(s, step)
    ensures Extends(s.his, Apply(s, step).his)
  {
  }

  lemma ExtendsTransitive(a: History, b: History, c: History)
    requires Extends(a, b) && Extends(b, c)
    ensures Extends(a, c)
  {
  }

  lemma {:induction false} RunExtends(s: State, steps: seq<Step>, t: State)
    requires Inv(s) && Runs(s, steps, t)
    ensures Extends(s.his, t.his)
    decreases |steps|
  {
    if steps != [] {
      var u := Apply(s, steps[0]);
      StepKeepsInv(s, steps[0]);
      StepExtends(s, steps[0]);
      RunExtends(u, steps[1..], t);
      ExtendsTransitive(s.his, u.his, t.his);
    }
  }

  /**
   Submission-slot safety over every run from cleared rings: a command is refused exactly when
   qs - 1 are outstanding, the slot an accepted command takes holds nothing unfetched, and what the
   controller holds and executed is what the host announced, each command at most once.
   */
  lemma EveryRunSubmissionSafe(sqs: nat, cqs: nat, prp: seq<nat>, steps: seq<Step>, t: State)
    requires 2 <= sqs <= cqs <= 0x1_0000 && 0x1_0000 % sqs == 0
    requires Runs(Initial(sqs, cqs, prp), steps, t)
    ensures 0 < t.sq.qs && (Full(t.sq) <==> |t.his.cmds| - t.his.upd == t.sq.qs - 1)
    ensures !Full(t.sq) ==>
              forall i :: t.his.fetched <= i < |t.his.cmds| ==> Slot(i, t.sq.qs) != t.sq.tail
    ensures forall i :: i in t.dev.pending ==> i < t.his.sub <= |t.his.cmds| && t.dev.pending[i] == t.his.cmds[i]
    ensures forall j :: 0 <= j < |t.his.ran| ==>
              t.his.ran[j].index < t.his.sub <= |t.his.cmds| && t.his.ran[j].cmd == t.his.cmds[t.his.ran[j].index]
    ensures forall j, k :: 0 <= j < k < |t.his.ran| ==> t.his.ran[j].index != t.his.ran[k].index
  {
    InitialInv(sqs, cqs, prp);
    RunKeepsInv(Initial(sqs, cqs, prp), steps, t);
    FullExactly(t);
    if !Full(t.sq) {
      SlotFree(t);
    }
  }

  /**
   Completion safety over every run from zeroed memory, through any number of wraps: the host has
   read exactly the first completions posted, it sees another exactly when one is unread, and the
   controller's next slot holds none that the host has not released.
   */
  lemma EveryRunCompletionSafe(sqs: nat, cqs: nat, prp: seq<nat>, steps: seq<Step>, t: State)
    requires 2 <= sqs <= cqs <= 0x1_0000 && 0x1_0000 % sqs == 0
    requires Runs(Initial(sqs, cqs, prp), steps, t)
    ensures t.his.got <= t.his.cpls && t.cq.head < |t.cqMem|
    ensures Polled(t.cq, t.cqMem) ==
            if |t.his.got| < |t.his.cpls| then Some(t.his.cpls[|t.his.got|]) else None
    ensures 0 < t.cq.qs
    ensures forall p :: t.his.rung <= p < |t.his.cpls| ==> Slot(p, t.cq.qs) != t.dev.post
    ensures forall p :: t.his.rung <= p < |t.his.got| ==>
              Slot(p, t.cq.qs) < |t.cqMem| && t.cqMem[Slot(p, t.cq.qs)] == t.his.got[p]
  {
    InitialInv(sqs, cqs, prp);
    RunKeepsInv(Initial(sqs, cqs, prp), steps, t);
    PollExactly(t);
    PostSlotFree(t);
    forall p | t.his.rung <= p < |t.his.got|
      ensures t.cqMem[Slot(p, t.cq.qs)] == t.his.got[p]
    {
      ReadEntryStable(t, p);
    }
  }

  // -------------------------------------------------------------- reachable states

  /** Some run from cleared rings of admissible sizes leads to s. */
  ghost predicate Reachable(s: State) {
    exists start: State, steps: seq<Step> :: Cleanly(start) && Runs(start, steps, s)
  }

  predicate Cleanly(s: State) {
    && 2 <= s.sq.qs <= s.cq.qs <= 0x1_0000 && Slot(0x1_0000, s.sq.qs) == 0
    && s == Initial(s.sq.qs, s.cq.qs, s.prp)
  }

  ghost function Origin(): (s: State)
    ensures Reachable(s)
  {
    var s := Initial(2, 2, []);
    SlotIsRemainder(0x1_0000, 2);
    assert Runs(s, [], s);
    s
  }

  type Sane = s: State | Reachable(s) ghost witness Origin()

  lemma SaneInv(s: Sane)
    ensures Inv(s)
  {
    var start: State, steps: seq<Step> :| Cleanly(start) && Runs(start, steps, s);
    SlotIsRemainder(0x1_0000, start.sq.qs);
    InitialInv(start.sq.qs, start.cq.qs, start.prp);
    RunKeepsInv(start, steps, s);
  }

  lemma {:induction false} RunKeepsSane(s: Sane, more: seq<Step>, t: State)
    requires Runs(s, more, t)
    ensures Reachable(t)
  {
    var start: State, steps: seq<Step> :| Cleanly(start) && Runs(start, steps, s);
    RunsAppend(start, steps, s, more, t);
  }

  ghost function After(s: Sane, step: Step): (t: Sane)
    requires Shape(s) && Enabled(s, step)
    ensures t == Apply(s, step)
  {
    var t := Apply(s, step);
    assert [step][1..] == [];
    assert Runs(t, [], t);
    RunKeepsSane(s, [step], t);
    t
  }
}
