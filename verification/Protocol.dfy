/**
 One queue pair as a transition system: host steps move the two ring descriptors, controller
 steps fetch commands in order, complete them in any order and post completions without looking
 whether the completion ring is full.  The history counts without wrapping; the invariant says
 that the wrapping state is its image, for every run.
 */
module Protocol {
  import opened Arithmetic
  import opened Rings

  /** A command the controller has executed, with the PRP page it saw while executing. */
  datatype Ran = Ran(index: nat, cmd: Cmd, page: seq<nat>)

  /** The controller: where it fetches and posts, and what it fetched but did not complete. */
  datatype Device = Device(fetch: nat, post: nat, tag: bool, pending: map<nat, Cmd>)

  /** Unbounded history: nothing in it is read to decide a step. */
  datatype History = History(
    cmds: seq<Cmd>,   // every command enqueued, in order
    sub: nat,         // how many the doorbell has announced
    fetched: nat,     // how many the controller fetched
    cpls: seq<Cpl>,   // every completion posted, in order
    ran: seq<Ran>,    // the command each completion answers
    got: seq<Cpl>,    // what the host read, in order
    upd: nat,         // completions counted by the submission head
    rung: nat)        // completions announced as consumed

  datatype State = State(
    sq: Ring, cq: Ring, sqMem: seq<Cmd>, cqMem: seq<Cpl>, prp: seq<nat>, dev: Device, his: History)

  datatype Step =
    | Enqueue
    | Write(index: nat, cmd: Cmd)
    | WritePrp(page: seq<nat>)
    | Submit
    | Dequeue
    | SqUpdate
    | CqUpdate
    | Fetch
    | Complete(index: nat, dw0: nat, status: nat)

  /** The identifier field: the upper half of word 0. */
  function CmdCid(c: Cmd): (cid: nat)
    ensures cid < 0x1_0000
  {
    if c == [] then 0 else (c[0] / 0x1_0000) % 0x1_0000
  }

  predicate Shape(s: State) {
    && Wf(s.sq) && Wf(s.cq) && s.sq.bell.Some? && s.cq.bell.Some?
    && |s.sqMem| == s.sq.qs && |s.cqMem| == s.cq.qs
    && s.dev.fetch < s.sq.qs && s.dev.post < s.cq.qs
  }

  /**
   The controller fetches while its head differs from the doorbell, and completes what it fetched.
   The host writes only slots it took and has not announced, counts a completion only after
   reading it, and announces new commands only after announcing the completions it counted.
   */
  predicate Enabled(s: State, step: Step) {
    match step
    case Enqueue => true
    case Write(i, c) => s.his.sub <= i < |s.his.cmds|
    case WritePrp(_) => true
    case Submit => s.his.upd <= s.his.rung
    case Dequeue => true
    case SqUpdate => s.his.upd < |s.his.got|
    case CqUpdate => true
    case Fetch => s.sq.bell.Some? && s.dev.fetch != s.sq.bell.value
    case Complete(i, _, status) => i in s.dev.pending && status < 0x800
  }

  predicate HostStep(step: Step) {
    !step.Fetch? && !step.Complete?
  }

  function AfterEnqueue(s: State): State
    requires Shape(s)
  {
    if Full(s.sq) then s
    else s.(sq := Enqueued(s.sq), his := s.his.(cmds := s.his.cmds + [s.sqMem[s.sq.tail]]))
  }

  function AfterWrite(s: State, i: nat, c: Cmd): State
    requires Shape(s) && Enabled(s, Write(i, c))
  {
    s.(sqMem := s.sqMem[Slot(i, s.sq.qs) := c], his := s.his.(cmds := s.his.cmds[i := c]))
  }

  function AfterSubmit(s: State): State {
    s.(sq := Submitted(s.sq), his := s.his.(sub := |s.his.cmds|))
  }

  function AfterDequeue(s: State): State
    requires Shape(s)
  {
    var entry := Polled(s.cq, s.cqMem);
    if entry.None? then s
    else s.(cq := Dequeued(s.cq, s.cqMem), his := s.his.(got := s.his.got + [entry.value]))
  }

  function AfterSqUpdate(s: State): State {
    s.(sq := SqUpdated(s.sq), his := s.his.(upd := s.his.upd + 1))
  }

  function AfterCqUpdate(s: State): State {
    s.(cq := CqUpdated(s.cq), his := s.his.(rung := |s.his.got|))
  }

  function AfterFetch(s: State): State
    requires Shape(s)
  {
    s.(dev := s.dev.(fetch := Advance(s.dev.fetch, s.sq.qs),
                     pending := s.dev.pending[s.his.fetched := s.sqMem[s.dev.fetch]]),
       his := s.his.(fetched := s.his.fetched + 1))
  }

  function Posted(s: State, i: nat, dw0: nat, status: nat): Cpl
    requires Shape(s) && i in s.dev.pending
  {
    Cpl(dw0, CplWord(CmdCid(s.dev.pending[i]), s.dev.tag, status))
  }

  function AfterComplete(s: State, i: nat, c: Cpl): State
    requires Shape(s) && i in s.dev.pending
  {
    s.(cqMem := s.cqMem[s.dev.post := c],
       dev := s.dev.(post := Advance(s.dev.post, s.cq.qs),
                     tag := if s.dev.post + 1 == s.cq.qs then !s.dev.tag else s.dev.tag,
                     pending := s.dev.pending - {i}),
       his := s.his.(cpls := s.his.cpls + [c], ran := s.his.ran + [Ran(i, s.dev.pending[i], s.prp)]))
  }

  function Apply(s: State, step: Step): State
    requires Shape(s) && Enabled(s, step)
  {
    match step
    case Enqueue => AfterEnqueue(s)
    case Write(i, c) => AfterWrite(s, i, c)
    case WritePrp(page) => s.(prp := page)
    case Submit => AfterSubmit(s)
    case Dequeue => AfterDequeue(s)
    case SqUpdate => AfterSqUpdate(s)
    case CqUpdate => AfterCqUpdate(s)
    case Fetch => AfterFetch(s)
    case Complete(i, dw0, status) => AfterComplete(s, i, Posted(s, i, dw0, status))
  }

  // ------------------------------------------------------------------ invariant

  predicate Counters(sqs: nat, h: History) {
    && h.upd <= |h.got| <= |h.cpls| <= h.fetched <= h.sub <= |h.cmds|
    && h.rung <= |h.got|
    && |h.cmds| - h.upd <= sqs - 1
    && h.sub - h.rung <= sqs - 1
  }

  /** The submission ring is the image of the enqueued, submitted and completed counts. */
  predicate SqWrapped(sq: Ring, enq: nat, sub: nat, upd: nat) {
    && Wf(sq) && sq.bell.Some?
    && sq.tail == Slot(enq, sq.qs) && sq.phase == EvenLap(enq, sq.qs)
    && sq.head == Slot(upd, sq.qs)
    && sq.last == Slot(sub, sq.qs) == sq.bell.value
  }

  /** The completion ring is the image of the read and released counts. */
  predicate CqWrapped(cq: Ring, con: nat, rung: nat) {
    && Wf(cq) && cq.bell.Some?
    && cq.head == Slot(con, cq.qs) && cq.phase == EvenLap(con, cq.qs)
    && cq.last == Slot(rung, cq.qs) == cq.bell.value == cq.tail
  }

  predicate PostWrapped(dev: Device, cqs: nat, posted: nat) {
    0 < cqs && dev.post == Slot(posted, cqs) && dev.tag == EvenLap(posted, cqs)
  }

  /** Each fetched command is pending or answered, never both and never answered twice. */
  predicate Flight(pending: map<nat, Cmd>, cmds: seq<Cmd>, fetched: nat, ran: seq<Ran>) {
    && |pending| + |ran| == fetched <= |cmds|
    && (forall i :: i in pending ==> i < fetched && pending[i] == cmds[i])
    && (forall j :: 0 <= j < |ran| ==>
          ran[j].index < fetched && ran[j].index !in pending && ran[j].cmd == cmds[ran[j].index])
    && (forall j, k :: 0 <= j < k < |ran| ==> ran[j].index != ran[k].index)
  }

  /** Slots the controller may still fetch hold the commands that were put there. */
  predicate SqSlots(sqMem: seq<Cmd>, cmds: seq<Cmd>, fetched: nat) {
    && 0 < |sqMem|
    && (forall i :: fetched <= i < |cmds| ==> sqMem[Slot(i, |sqMem|)] == cmds[i])
  }

  /** The last lap of completions is intact, and slots never posted to still carry tag 0. */
  predicate CqSlots(cqMem: seq<Cpl>, cpls: seq<Cpl>) {
    && 0 < |cqMem|
    && (forall p :: 0 <= p < |cpls| && |cpls| - |cqMem| <= p ==> cqMem[Slot(p, |cqMem|)] == cpls[p])
    && (forall j :: |cpls| <= j < |cqMem| ==> !cqMem[j].Tag())
    && (forall p :: 0 <= p < |cpls| ==> cpls[p].Tag() == EvenLap(p, |cqMem|))
  }

  /** Each completion carries the identifier of the command it answers. */
  predicate Answers(cpls: seq<Cpl>, ran: seq<Ran>) {
    && |cpls| == |ran|
    && (forall p :: 0 <= p < |cpls| ==> cpls[p].Cid() == CmdCid(ran[p].cmd))
  }

  /** The wrapping indices are the images of the counters. */
  predicate RingInv(s: State) {
    var h := s.his;
    && Shape(s) && Slot(0x1_0000, s.sq.qs) == 0 && s.sq.qs <= s.cq.qs
    && Counters(s.sq.qs, h)
    && SqWrapped(s.sq, |h.cmds|, h.sub, h.upd)
    && CqWrapped(s.cq, |h.got|, h.rung)
    && s.dev.fetch == Slot(h.fetched, s.sq.qs)
    && PostWrapped(s.dev, s.cq.qs, |h.cpls|)
  }

  /** Ring memory holds what the history says, and the host has read a prefix of the completions. */
  predicate MemInv(s: State) {
    var h := s.his;
    && Flight(s.dev.pending, h.cmds, h.fetched, h.ran)
    && SqSlots(s.sqMem, h.cmds, h.fetched)
    && CqSlots(s.cqMem, h.cpls)
    && Answers(h.cpls, h.ran)
    && h.got <= h.cpls
  }

  predicate Inv(s: State) {
    RingInv(s) && MemInv(s)
  }

  /** Cleared descriptors over zeroed memory, with doorbell registers at zero. */
  function Initial(sqs: nat, cqs: nat, prp: seq<nat>): State {
    var zeroCmd: Cmd := seq(16, _ => 0);
    State(Cleared(sqs, 0), Cleared(cqs, 0), seq(sqs, _ => zeroCmd), seq(cqs, _ => Cpl(0, 0)), prp,
          Device(0, 0, true, map[]), History([], 0, 0, [], [], [], 0, 0))
  }
}
