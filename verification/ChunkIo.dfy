/** The part of do_io between taking a queue slot and releasing its completion: one command. */
module ChunkIo {
  import opened Arithmetic
  import opened Rings
  import opened Protocol
  import opened ProtocolSafety
  import opened Threads
  import opened QueuePairs
  import opened Command
  import opened Prp
  import opened Transfer

  /** The host has no step of its own pending: what the holder of the pair's lock finds. */
  predicate Settled(h: History) {
    HostAt(h, Top)
  }

  /** Every completion read after the first |got| reports success. */
  predicate AllOk(got: seq<Cpl>, got': seq<Cpl>) {
    got <= got' && forall j :: |got| <= j < |got'| ==> got'[j].Status() == 0
  }

  /** Success means every completion read reported success; failure, that one did not or a command is left unanswered. */
  predicate Heard(got: seq<Cpl>, h: History, ok: bool) {
    && got <= h.got
    && (ok ==> AllOk(got, h.got))
    && (!ok ==> !AllOk(got, h.got) || |h.got| < |h.cmds|)
  }

  /** A failure that no error status explains has spent a whole wait. */
  predicate Patient(got: seq<Cpl>, h: History, ok: bool, polls: nat, limit: nat) {
    !ok && AllOk(got, h.got) ==> polls > limit
  }

  /** One wait: the completion it read, if any, with its status. */
  predicate Answered(h: History, h': History, status: Option<nat>) {
    && h'.cmds == h.cmds && h.got <= h'.got
    && |h'.got| == |h.got| + (if status.Some? then 1 else 0)
    && (status.Some? ==> h'.got[|h.got|].Status() == status.value)
  }

  lemma HeardOn(got: seq<Cpl>, h: History, h': History, ok: bool)
    requires Heard(got, h, true) && Heard(h.got, h', ok)
    ensures Heard(got, h', ok)
  {
    if ok {
      forall j | |got| <= j < |h'.got|
        ensures h'.got[j].Status() == 0
      {
        assert j < |h.got| ==> h'.got[j] == h.got[j];
      }
    }
  }

  lemma PatientOn(got: seq<Cpl>, h: History, h': History, ok: bool, more: nat, polls: nat, limit: nat)
    requires Heard(got, h, true) && h.got <= h'.got && Patient(h.got, h', ok, more, limit) && more <= polls
    ensures Patient(got, h', ok, polls, limit)
  {
  }

  lemma HeardAnswer(h: History, h': History, status: Option<nat>)
    requires Answered(h, h', status) && |h.got| < |h.cmds|
    ensures Heard(h.got, h', status == Some(0))
  {
  }

  /** A pair between calls whose commands were all answered is idle, however the last call ended. */
  lemma AnsweredIsIdle(s: Sane)
    ensures Settled(s.his) && |s.his.got| == |s.his.cmds| ==> Idle(s)
  {
    SaneInv(s);
    if Settled(s.his) && |s.his.got| == |s.his.cmds| {
      assert |s.dev.pending| == 0;
    }
  }

  // --------------------------------------------------------------- taking a slot

  /** A slot was taken for a new command, or none was and nothing is pending. */
  predicate SlotTaken(t: State, slot: Option<nat>) {
    && HostAt(t.his, if slot.Some? then Filling else Top)
    && 0 < t.sq.qs
    && (slot.Some? ==> slot.value == Slot(|t.his.cmds| - 1, t.sq.qs))
  }

  method TryEnqueue(qp: QueuePair, ghost s: Sane) returns (slot: Option<nat>, ghost t: Sane)
    requires qp.Valid() && qp.View() == s && Settled(s.his)
    modifies qp, qp.sq
    ensures qp.Valid() && qp.Parts() == old(qp.Parts())
    ensures qp.View() == t == AfterEnqueue(s) && SlotTaken(t, slot)
    ensures slot.None? <==> |s.his.cmds| - s.his.upd == s.sq.qs - 1
  {
    t := After(s, Enqueue);
    slot := qp.Enqueue();
    EnqueueTakes(s, slot);
  }

  lemma EnqueueTakes(s: Sane, slot: Option<nat>)
    requires Shape(s) && Settled(s.his) && slot == if Full(s.sq) then None else Some(s.sq.tail)
    ensures SlotTaken(AfterEnqueue(s), slot)
    ensures slot.None? <==> |s.his.cmds| - s.his.upd == s.sq.qs - 1
  {
    SaneInv(s);
    FullExactly(s);
  }

  ghost predicate Drained(s: State, t: State, ok: bool) {
    && Settled(t.his) && t.his.cmds == s.his.cmds && t.his.sub == s.his.sub && t.sq.qs == s.sq.qs && t.prp == s.prp
    && (ok ==> t.his.upd == s.his.upd + 1)
  }

  /** Wait for a completion, count it and release it; fails on a timeout or on an error status. */
  method Drain(qp: QueuePair, limit: nat, ghost s: Sane)
    returns (ok: bool, polls: nat, ghost t: Sane, ghost status: Option<nat>)
    requires qp.Valid() && qp.View() == s && Settled(s.his)
    modifies qp.Footprint(), qp.meter
    ensures qp.meter.polls == old(qp.meter.polls) + polls
    ensures qp.Valid() && qp.Parts() == old(qp.Parts())
    ensures qp.View() == t && Drained(s, t, ok) && polls <= limit + 1
    ensures Answered(s.his, t.his, status) && (ok <==> status == Some(0)) && (status.None? ==> polls == limit + 1)
  {
    var cpl;
    cpl, polls, t := AwaitSane(qp, limit, s);
    WaitedThenCounted(s, t, cpl);
    if cpl.None? {
      return false, polls, t, None;
    }
    ok := cpl.value.Status() == 0;
    status := Some(cpl.value.Status());
    t := AcknowledgeSane(qp, t);
  }

  /** A wait keeps the host's counters but for the completion read. */
  ghost predicate Waited(s: State, t: State, cpl: Option<Cpl>) {
    && t.sq == s.sq && t.sqMem == s.sqMem && t.prp == s.prp
    && t.his.cmds == s.his.cmds && t.his.sub == s.his.sub && t.his.upd == s.his.upd && t.his.rung == s.his.rung
    && t.his.got == s.his.got + (if cpl.Some? then [cpl.value] else [])
    && s.his.ran <= t.his.ran
    && (s.dev.pending == map[] ==>
          forall j :: |s.his.ran| <= j < |t.his.ran| ==>
            t.his.ran[j].page == s.prp && t.his.ran[j].index >= s.his.fetched)
  }

  method AwaitSane(qp: QueuePair, limit: nat, ghost s: Sane) returns (cpl: Option<Cpl>, polls: nat, ghost t: Sane)
    requires qp.Valid() && qp.View() == s
    modifies qp, qp.cq, qp.cq.vaddr, qp.meter
    ensures qp.meter.polls == old(qp.meter.polls) + polls
    ensures qp.Valid() && qp.Parts() == old(qp.Parts())
    ensures qp.View() == t && Waited(s, t, cpl) && 1 <= polls <= limit + 1 && (cpl.None? ==> polls == limit + 1)
  {
    ghost var last, steps;
    cpl, polls, last, steps := qp.Await(limit);
    t := After(AfterRun(s, steps, last), Dequeue);
    RanThenRead(s, last);
  }

  lemma RanThenRead(s: State, last: State)
    requires DeviceRan(s, last) && Shape(last)
    ensures Waited(s, AfterDequeue(last), Polled(last.cq, last.cqMem))
  {
    var cpl, t := Polled(last.cq, last.cqMem), AfterDequeue(last);
    assert t.his.got == s.his.got + (if cpl.Some? then [cpl.value] else []);
    assert t.his == last.his.(got := t.his.got);
  }

  method AcknowledgeSane(qp: QueuePair, ghost s: Sane) returns (ghost t: Sane)
    requires qp.Valid() && qp.View() == s && s.his.upd < |s.his.got|
    modifies qp, qp.sq, qp.cq, qp.cq.db
    ensures qp.Valid() && qp.Parts() == old(qp.Parts())
    ensures qp.meter.polls == old(qp.meter.polls)
    ensures qp.View() == t == AfterCqUpdate(AfterSqUpdate(s))
  {
    t := After(After(s, SqUpdate), CqUpdate);
    qp.Acknowledge();
  }

  lemma WaitedThenCounted(s: State, t: State, cpl: Option<Cpl>)
    requires Waited(s, t, cpl) && Settled(s.his)
    ensures cpl.None? ==> Drained(s, t, false) && Answered(s.his, t.his, None)
    ensures cpl.Some? ==> t.his.upd < |t.his.got| && Drained(s, AfterCqUpdate(AfterSqUpdate(t)), true)
    ensures cpl.Some? ==> Answered(s.his, AfterCqUpdate(AfterSqUpdate(t)).his, Some(cpl.value.Status()))
  {
  }

  ghost function AfterRun(s: Sane, steps: seq<Step>, t: State): (u: Sane)
    requires Runs(s, steps, t) && DeviceOnly(steps)
    ensures u == t && DeviceRan(s, t)
  {
    SaneInv(s);
    DeviceRunRan(s, steps, t);
    RunKeepsSane(s, steps, t);
    t
  }

  /** The enqueue loop: when the queue is full, drain one completion and try again. */
  method TakeSlot(qp: QueuePair, limit: nat, ghost s: Sane)
    returns (slot: Option<nat>, drains: nat, polls: nat, ghost t: Sane)
    requires qp.Valid() && qp.View() == s && Settled(s.his)
    modifies qp.Footprint(), qp.meter
    ensures qp.meter.polls == old(qp.meter.polls) + polls
    ensures qp.Valid() && qp.Parts() == old(qp.Parts())
    ensures qp.View() == t && t.prp == s.prp && SlotTaken(t, slot)
    ensures drains <= 1 && polls <= (if drains == 0 then 0 else limit + 1)
    ensures Idle(s) ==> slot.Some? && drains == 0 && t == AfterEnqueue(s)
    ensures Heard(s.his.got, t.his, slot.Some?) && Patient(s.his.got, t.his, slot.Some?, polls, limit)
    ensures Labelled(s) ==> Labelled(t)
  {
    drains, polls := 0, 0;
    slot, t := TryEnqueue(qp, s);
    EnqueueLabels(s);
    var ok := true;
    while slot.None? && ok
      invariant qp.meter.polls == old(qp.meter.polls) + polls
      invariant qp.Valid() && qp.Parts() == old(qp.Parts())
      invariant qp.View() == t && t.prp == s.prp && SlotTaken(t, slot)
      invariant drains <= 1 && polls <= (if drains == 0 then 0 else limit + 1)
      invariant slot.None? && ok ==> drains == polls == 0 && |t.his.cmds| - t.his.upd == t.sq.qs - 1
      invariant Idle(s) ==> slot.Some? && drains == 0 && t == AfterEnqueue(s)
      invariant if slot.None? && ok then t.his.got == s.his.got else Heard(s.his.got, t.his, slot.Some?)
      invariant (slot.None? && ok) || Patient(s.his.got, t.his, slot.Some?, polls, limit)
      invariant Labelled(s) ==> Labelled(t)
      decreases slot.None? && ok
    {
      ok, slot, polls, t := DrainAndRetry(qp, limit, t);
      drains := 1;
    }
  }

  /** The loop body: drain one completion, and enqueue again unless that failed. */
  method DrainAndRetry(qp: QueuePair, limit: nat, ghost s: Sane)
    returns (ok: bool, slot: Option<nat>, polls: nat, ghost t: Sane)
    requires qp.Valid() && qp.View() == s && Settled(s.his)
    requires |s.his.cmds| - s.his.upd == s.sq.qs - 1
    modifies qp.Footprint(), qp.meter
    ensures qp.meter.polls == old(qp.meter.polls) + polls
    ensures qp.Valid() && qp.Parts() == old(qp.Parts())
    ensures qp.View() == t && t.prp == s.prp && SlotTaken(t, slot)
    ensures polls <= limit + 1 && (ok <==> slot.Some?) && Heard(s.his.got, t.his, ok)
    ensures Patient(s.his.got, t.his, ok, polls, limit)
    ensures Labelled(s) ==> Labelled(t)
  {
    slot := None;
    ghost var status;
    ok, polls, t, status := Drain(qp, limit, s);
    FullLeaves(s);
    HeardAnswer(s.his, t.his, status);
    if ok {
      EnqueueLabels(t);
      slot, t := TryEnqueue(qp, t);
    }
  }

  /** An enqueued command is not yet announced, so it needs no identifier yet. */
  lemma EnqueueLabels(s: State)
    requires Shape(s)
    ensures Labelled(s) ==> Labelled(AfterEnqueue(s))
  {
  }

  /** Commands of a full queue, and a command not yet announced, are unanswered. */
  lemma FullLeaves(s: Sane)
    ensures |s.his.got| <= s.his.sub <= |s.his.cmds|
    ensures s.his.upd == |s.his.got| && |s.his.cmds| - s.his.upd == s.sq.qs - 1 ==> |s.his.got| < |s.his.cmds|
  {
    SaneInv(s);
  }

  // ------------------------------------------------------------ filling in the command

  /** The loop that writes the PRP list of a chunk of three pages or more. */
  method FillPrpList(prp: array<nat>, ioaddrs: seq<nat>, page: nat, pages: nat)
    requires 1 <= pages && page + pages <= |ioaddrs| && pages - 1 <= prp.Length
    modifies prp
    ensures prp[..pages - 1] == ioaddrs[page..page + pages][1..]
  {
    var i := 1;
    while i < pages
      invariant 1 <= i <= pages
      invariant forall k :: 0 <= k < i - 1 ==> prp[k] == ioaddrs[page + 1 + k]
    {
      prp[i - 1] := ioaddrs[page + i];
      i := i + 1;
    }
  }

  /** Zero the slot and write header, data pointers and block fields into it. */
  method BuildCommand(mem: array<Cmd>, slot: nat, cid: nat, opcode: nat, ns: nat, prp1: nat, prp2: nat, lba: nat, blocks: nat)
    requires slot < mem.Length
    modifies mem
    ensures mem[..] == old(mem[..])[slot := RwCmd(cid, opcode, ns, prp1, prp2, lba, blocks)]
  {
    mem[slot] := ZeroCmd();
    CmdHeader(mem, slot, cid, opcode, ns);
    CmdDataPtr(mem, slot, prp1, prp2);
    CmdRwBlks(mem, slot, lba, blocks % 0x1_0000);
  }

  /** The command of a chunk, with the pointers and the list that describe the chunk's pages. */
  datatype Built = Built(cid: nat, opcode: nat, ns: nat, prp1: nat, prp2: nat, lba: nat, blocks: nat) {
    function Cmd(): Cmd { RwCmd(cid, opcode, ns, prp1, prp2, lba, blocks) }
  }

  /** Writing the PRP page and the newest command changes nothing else. */
  predicate Filled(s: State, t: State, cmd: Cmd) {
    && |s.his.cmds| > 0
    && t == s.(prp := t.prp, sqMem := t.sqMem, his := s.his.(cmds := s.his.cmds[|s.his.cmds| - 1 := cmd]))
    && |t.prp| == |s.prp|
  }

  /** The built command describes chunk c: its fields, pointers and list. */
  predicate Describes(b: Built, cid: nat, opcode: nat, ns: nat, c: Chunk, ioaddrs: seq<nat>, prpAddr: nat, prp: seq<nat>) {
    && b == Built(cid, opcode, ns, b.prp1, b.prp2, c.lba, c.blocks)
    && c.page + c.pages <= |ioaddrs|
    && OneListBuilt(ioaddrs[c.page..c.page + c.pages], prpAddr, prp, b.prp1, b.prp2)
  }

  /** Choose the two pointers of a chunk's pages, writing the PRP list if it has three or more. */
  method WritePointers(qp: QueuePair, c: Chunk, ioaddrs: seq<nat>, ghost s: Sane)
    returns (prp1: nat, prp2: nat, ghost t: Sane)
    requires qp.Valid() && qp.View() == s
    requires 1 <= c.pages && c.page + c.pages <= |ioaddrs| && c.pages - 1 <= qp.prp.Length
    modifies qp.prp
    ensures qp.Valid() && qp.View() == t == s.(prp := t.prp) && |t.prp| == |s.prp|
    ensures OneListBuilt(ioaddrs[c.page..c.page + c.pages], qp.prpAddr, t.prp, prp1, prp2)
  {
    prp1, prp2 := Pointers(qp.prp, qp.prpAddr, c, ioaddrs);
    t := After(s, WritePrp(qp.prp[..]));
  }

  method Pointers(prp: array<nat>, prpAddr: nat, c: Chunk, ioaddrs: seq<nat>) returns (prp1: nat, prp2: nat)
    requires 1 <= c.pages && c.page + c.pages <= |ioaddrs| && c.pages - 1 <= prp.Length
    modifies prp
    ensures OneListBuilt(ioaddrs[c.page..c.page + c.pages], prpAddr, prp[..], prp1, prp2)
  {
    prp1, prp2 := ioaddrs[c.page], 0;
    if c.pages == 2 {
      prp2 := ioaddrs[c.page + 1];
    } else if c.pages > 2 {
      FillPrpList(prp, ioaddrs, c.page, c.pages);
      prp2 := prpAddr;
      assert prp[..][..c.pages - 1] == prp[..c.pages - 1];
    }
  }

  method WriteCommand(qp: QueuePair, slot: nat, b: Built, ghost s: Sane) returns (ghost t: Sane)
    requires qp.Valid() && qp.View() == s && SlotTaken(s, Some(slot))
    modifies qp, qp.sq.vaddr
    ensures qp.Valid() && qp.Parts() == old(qp.Parts())
    ensures qp.View() == t && Filled(s, t, b.Cmd()) && t.prp == s.prp
  {
    BuildCommand(qp.sq.vaddr, slot, b.cid, b.opcode, b.ns, b.prp1, b.prp2, b.lba, b.blocks);
    qp.his := qp.his.(cmds := qp.his.cmds[|qp.his.cmds| - 1 := b.Cmd()]);
    WriteFills(s, b.Cmd());
    t := After(s, Write(|s.his.cmds| - 1, b.Cmd()));
    assert qp.sq.vaddr[..] == t.sqMem;
  }

  lemma WriteFills(s: State, cmd: Cmd)
    requires Shape(s) && HostAt(s.his, Filling)
    ensures Filled(s, AfterWrite(s, |s.his.cmds| - 1, cmd), cmd)
    ensures AfterWrite(s, |s.his.cmds| - 1, cmd).prp == s.prp
  {
  }

  lemma PrpThenFilled(s: State, u: State, t: State, cmd: Cmd)
    requires u == s.(prp := u.prp) && |u.prp| == |s.prp| && Filled(u, t, cmd)
    ensures Filled(s, t, cmd)
  {
  }

  method FillSlot(qp: QueuePair, slot: nat, opcode: nat, ns: nat, c: Chunk, ioaddrs: seq<nat>, ghost s: Sane)
    returns (ghost t: Sane, b: Built)
    requires qp.Valid() && qp.View() == s && SlotTaken(s, Some(slot))
    requires 1 <= c.pages && c.page + c.pages <= |ioaddrs| && c.pages - 1 <= qp.prp.Length
    modifies qp, qp.sq.vaddr, qp.prp
    ensures qp.Valid() && qp.Parts() == old(qp.Parts())
    ensures qp.View() == t && Filled(s, t, b.Cmd())
    ensures Describes(b, DefaultCid(s.sq), opcode, ns, c, ioaddrs, qp.prpAddr, t.prp)
  {
    var cid := DefaultCidOf(qp.sq);
    var prp1, prp2;
    prp1, prp2, t := WritePointers(qp, c, ioaddrs, s);
    b := Built(cid, opcode, ns, prp1, prp2, c.lba, c.blocks);
    ghost var u := t;
    t := WriteCommand(qp, slot, b, u);
    PrpThenFilled(s, u, t, b.Cmd());
  }

  /** The macro NVM_DEFAULT_CID. */
  method DefaultCidOf(sq: Queue<Cmd>) returns (cid: nat)
    ensures cid == DefaultCid(sq.View())
  {
    cid := (sq.tail + if sq.phase then 0 else sq.qs) % 0x1_0000;
  }

  // ------------------------------------------------------------- submitting and waiting

  /** Everything announced was completed and released, and one command waits to be announced. */
  predicate OneReady(s: State) {
    var h := s.his;
    && |h.cmds| == h.sub + 1
    && h.sub == h.fetched == |h.ran| == |h.got| == h.upd == h.rung
    && s.dev.pending == map[]
  }

  method SubmitAndWait(qp: QueuePair, limit: nat, ghost s: Sane)
    returns (status: Option<nat>, polls: nat, ghost t: Sane)
    requires qp.Valid() && qp.View() == s && HostAt(s.his, Filling)
    modifies qp.Footprint(), qp.meter
    ensures qp.meter.polls == old(qp.meter.polls) + polls
    ensures qp.Valid() && qp.Parts() == old(qp.Parts())
    ensures qp.View() == t && Settled(t.his) && t.prp == s.prp && polls <= limit + 1 && (status.None? ==> polls == limit + 1)
    ensures Answered(s.his, t.his, status) && (Labels(s, |s.his.cmds|) ==> Labelled(t))
    ensures OneReady(s) && status.Some? ==>
              && Idle(t)
              && t.his.ran == s.his.ran + [Ran(s.his.sub, s.his.cmds[s.his.sub], s.prp)]
  {
    ghost var u := SubmitSane(qp, s);
    var cpl;
    cpl, polls, u := AwaitSane(qp, limit, u);
    t := CountAnswer(qp, cpl, s, u);
    status := StatusOf(cpl);
  }

  function StatusOf(cpl: Option<Cpl>): Option<nat> {
    if cpl.None? then None else Some(cpl.value.Status())
  }

  method SubmitSane(qp: QueuePair, ghost s: Sane) returns (ghost u: Sane)
    requires qp.Valid() && qp.View() == s && HostAt(s.his, Filling)
    modifies qp, qp.sq, qp.sq.db
    ensures qp.Valid() && qp.Parts() == old(qp.Parts()) && qp.View() == u == AfterSubmit(s)
    ensures qp.meter.polls == old(qp.meter.polls)
  {
    u := After(s, Submit);
    qp.Submit();
  }

  /** A completion that came is counted and released. */
  method CountAnswer(qp: QueuePair, cpl: Option<Cpl>, ghost s: Sane, ghost u: Sane) returns (ghost t: Sane)
    requires qp.Valid() && qp.View() == u && HostAt(s.his, Filling) && Waited(AfterSubmit(s), u, cpl)
    modifies qp, qp.sq, qp.cq, qp.cq.db
    ensures qp.Valid() && qp.Parts() == old(qp.Parts()) && qp.View() == t && Settled(t.his) && t.prp == s.prp
    ensures qp.meter.polls == old(qp.meter.polls)
    ensures Answered(s.his, t.his, StatusOf(cpl))
    ensures t.his.got == s.his.got + (if cpl.Some? then [cpl.value] else []) && (Labels(s, |s.his.cmds|) ==> Labelled(t))
    ensures OneReady(s) && cpl.Some? ==>
              && Idle(t) && cpl.value.Cid() == CmdCid(s.his.cmds[s.his.sub])
              && t.his.ran == s.his.ran + [Ran(s.his.sub, s.his.cmds[s.his.sub], s.prp)]
  {
    CountersAfterWait(s, u, cpl);
    t := u;
    if cpl.Some? {
      if OneReady(s) {
        AnswersOwnCommand(s, u, cpl.value);
      }
      t := AcknowledgeSane(qp, u);
    }
  }

  lemma CountersAfterWait(s: State, t: State, cpl: Option<Cpl>)
    requires HostAt(s.his, Filling) && Waited(AfterSubmit(s), t, cpl)
    ensures t.prp == s.prp && t.his.cmds == s.his.cmds && t.his.sub == |s.his.cmds| && t.sq.qs == s.sq.qs
    ensures cpl.None? ==> Settled(t.his) && Answered(s.his, t.his, None)
    ensures cpl.Some? ==> t.his.upd < |t.his.got| && Settled(AfterCqUpdate(AfterSqUpdate(t)).his)
    ensures cpl.Some? ==> Answered(s.his, AfterCqUpdate(AfterSqUpdate(t)).his, Some(cpl.value.Status()))
  {
  }

  /** With nothing else outstanding, the completion read answers the command just announced. */
  lemma AnswersOwnCommand(s: Sane, t: Sane, cpl: Cpl)
    requires OneReady(s) && Waited(AfterSubmit(s), t, Some(cpl))
    ensures t.his.ran == s.his.ran + [Ran(s.his.sub, s.his.cmds[s.his.sub], s.prp)]
    ensures Idle(AfterCqUpdate(AfterSqUpdate(t)))
    ensures cpl.Cid() == CmdCid(s.his.cmds[s.his.sub])
  {
    SaneInv(s);
    SaneInv(t);
    var n := s.his.sub;
    assert |t.his.ran| == n + 1 == t.his.fetched;
    assert |t.dev.pending| == 0;
    var r := t.his.ran[n];
    assert r.page == s.prp && n <= r.index < n + 1;
    assert r.cmd == t.his.cmds[n];
    assert t.his.ran == t.his.ran[..n] + [r];
    assert t.his.cpls[n] == t.his.got[n] == cpl;
  }

  // --------------------------------------------------------------------- one chunk

  /** The executed command is the one built for chunk c, and the controller saw its PRP list. */
  predicate RanChunk(r: Ran, b: Built, c: Chunk, opcode: nat, ns: nat, ioaddrs: seq<nat>, prpAddr: nat) {
    r.cmd == b.Cmd() && b.cid < 0x1_0000 && Describes(b, b.cid, opcode, ns, c, ioaddrs, prpAddr, r.page)
  }

  /** The command of chunk c stands in its slot, ready to be announced. */
  predicate Issued(s: State, f: State, b: Built, c: Chunk, opcode: nat, ns: nat, ioaddrs: seq<nat>, prpAddr: nat) {
    && HostAt(f.his, Filling) && |f.prp| == |s.prp|
    && b.cid < 0x1_0000 && Describes(b, b.cid, opcode, ns, c, ioaddrs, prpAddr, f.prp)
    && (Idle(s) ==> OneReady(f) && f.his.ran == s.his.ran && f.his.cmds[f.his.sub] == b.Cmd())
  }

  method IssueChunk(qp: QueuePair, limit: nat, opcode: nat, ns: nat, c: Chunk, ioaddrs: seq<nat>, ghost s: Sane)
    returns (ok: bool, polls: nat, ghost f: Sane, ghost b: Built)
    requires qp.Valid() && qp.View() == s && Settled(s.his)
    requires 1 <= c.pages && c.page + c.pages <= |ioaddrs| && c.pages - 1 <= qp.prp.Length
    modifies qp.Footprint(), qp.meter
    ensures qp.meter.polls == old(qp.meter.polls) + polls
    ensures qp.Valid() && qp.Parts() == old(qp.Parts())
    ensures qp.View() == f && polls <= limit + 1
    ensures if ok then Issued(s, f, b, c, opcode, ns, ioaddrs, qp.prpAddr) else Settled(f.his) && !Idle(s)
    ensures Heard(s.his.got, f.his, ok) && Patient(s.his.got, f.his, ok, polls, limit)
    ensures Labelled(s) ==> if ok then Labels(f, |f.his.cmds|) else Labelled(f)
  {
    var slot, drains;
    b := Built(0, 0, 0, 0, 0, 0, 0);
    slot, drains, polls, f := TakeSlot(qp, limit, s);
    ok := slot.Some?;
    if ok {
      ghost var taken := f;
      f, b := FillSlot(qp, slot.value, opcode, ns, c, ioaddrs, taken);
      ChunkIssued(s, taken, f, b.Cmd());
      ChunkLabels(taken, f, b);
    }
  }

  /** The command written into the slot carries the identifier the queue gave it. */
  lemma ChunkLabels(taken: Sane, f: State, b: Built)
    requires HostAt(taken.his, Filling) && Filled(taken, f, b.Cmd()) && b.cid == DefaultCid(taken.sq)
    ensures Labelled(taken) ==> Labels(f, |f.his.cmds|)
  {
    SaneLabel(taken);
    BuiltCid(b);
    if Labelled(taken) {
      LabelsStay(taken, f, taken.his.sub);
    }
  }

  lemma SaneLabel(s: Sane)
    ensures 0 < s.sq.qs && DefaultCid(s.sq) == Label(|s.his.cmds|, s.sq.qs)
  {
    SaneInv(s);
    NewestLabel(s);
  }

  lemma BuiltCid(b: Built)
    requires b.cid < 0x1_0000
    ensures CmdCid(b.Cmd()) == b.cid
  {
    RwCmdWords(b.cid, b.opcode, b.ns, b.prp1, b.prp2, b.lba, b.blocks);
    Word0(b.cid, b.opcode);
  }

  lemma ChunkIssued(s: State, taken: State, f: State, cmd: Cmd)
    requires HostAt(taken.his, Filling) && Filled(taken, f, cmd)
    requires Idle(s) ==> Shape(s) && taken == AfterEnqueue(s)
    ensures HostAt(f.his, Filling)
    ensures Idle(s) ==>
              OneReady(f) && f.his.ran == s.his.ran && f.his.cmds[f.his.sub] == cmd
  {
  }

  /** Issue one chunk and wait for it. */
  method RunChunk(qp: QueuePair, limit: nat, opcode: nat, ns: nat, c: Chunk, ioaddrs: seq<nat>, ghost s: Sane)
    returns (ok: bool, polls: nat, ghost t: Sane, ghost b: Built)
    requires qp.Valid() && qp.View() == s && Settled(s.his)
    requires 1 <= c.pages && c.page + c.pages <= |ioaddrs| && c.pages - 1 <= qp.prp.Length
    modifies qp.Footprint(), qp.meter
    ensures qp.meter.polls == old(qp.meter.polls) + polls
    ensures qp.Valid() && qp.Parts() == old(qp.Parts())
    ensures qp.View() == t && Settled(t.his) && polls <= 2 * (limit + 1)
    ensures Idle(s) && ok ==> Finished(s, t, b, c, opcode, ns, ioaddrs, qp.prpAddr)
    ensures Heard(s.his.got, t.his, ok) && Patient(s.his.got, t.his, ok, polls, limit)
    ensures Labelled(s) ==> Labelled(t)
  {
    ghost var f;
    ok, polls, f, b := IssueChunk(qp, limit, opcode, ns, c, ioaddrs, s);
    t := f;
    if ok {
      var status, more;
      status, more, t := SubmitAndWait(qp, limit, f);
      polls := polls + more;
      ok := status.Some? && status.value == 0;
      FullLeaves(f);
      HeardAnswer(f.his, t.his, status);
      HeardOn(s.his.got, f.his, t.his, ok);
      PatientOn(s.his.got, f.his, t.his, ok, more, polls, limit);
      if Idle(s) && ok {
        ChunkFinished(s, f, t, b, c, opcode, ns, ioaddrs, qp.prpAddr);
      }
    }
  }

  /** The chunk's command, and no other, was executed meanwhile, and the pair is idle again. */
  predicate Finished(s: State, t: State, b: Built, c: Chunk, opcode: nat, ns: nat, ioaddrs: seq<nat>, prpAddr: nat) {
    && Idle(t) && |t.his.ran| == |s.his.ran| + 1 && s.his.ran <= t.his.ran
    && |t.prp| == |s.prp| == |t.his.ran[|s.his.ran|].page|
    && RanChunk(t.his.ran[|s.his.ran|], b, c, opcode, ns, ioaddrs, prpAddr)
  }

  lemma ChunkFinished(s: State, f: State, t: State, b: Built, c: Chunk, opcode: nat, ns: nat, ioaddrs: seq<nat>, prpAddr: nat)
    requires Idle(s) && Issued(s, f, b, c, opcode, ns, ioaddrs, prpAddr) && t.prp == f.prp
    requires Idle(t) && t.his.ran == f.his.ran + [Ran(f.his.sub, f.his.cmds[f.his.sub], f.prp)]
    ensures Finished(s, t, b, c, opcode, ns, ioaddrs, prpAddr)
  {
  }

  lemma ChunkEffect(ps: nat, bs: nat, r: Ran, b: Built, c: Chunk, opcode: nat, ns: nat, ioaddrs: seq<nat>, prpAddr: nat)
    requires 16 <= ps && 0 < bs && |r.page| == ps / 8
    requires RanChunk(r, b, c, opcode, ns, ioaddrs, prpAddr)
    requires opcode < 0x80 && ns < WORD && prpAddr < WORD * WORD && c.lba < WORD * WORD
    requires forall i :: 0 <= i < |ioaddrs| ==> ioaddrs[i] < WORD * WORD
    requires 1 <= c.blocks <= 0x1_0000 && 1 <= c.pages == PagesFor(ps, c.blocks * bs)
    ensures |r.cmd| == 16
    ensures var e := Effect(ps, bs, prpAddr, r.page, r.cmd);
            e.Some? && Pairs(e.value, c.lba * bs, ioaddrs, ps, c.page * ps, c.blocks * bs)
  {
    var ios := ioaddrs[c.page..c.page + c.pages];
    OneListWalk(ios, ps / 8, prpAddr, r.page, b.prp1, b.prp2);
    RwRoundTrip(b.cid, opcode, ns, b.prp1, b.prp2, c.lba, c.blocks);
    EffectOfCommand(ps, bs, prpAddr, r.page, r.cmd, c, ioaddrs);
  }
}
