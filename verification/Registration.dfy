/**
 Registering and deregistering a file handle: a controller, its admin queue, and up to sixteen I/O
 queue pairs, each with three mapped host pages and two queues on the controller.  Every external
 outcome (allocation, mapping, admin commands) is arbitrary.
 */
module Registration {
  import opened Arithmetic
  import opened Ownership
  import opened OwnershipSteps
  import opened LibNvm

  const DEFAULT_NUM_QPS: nat := 16

  type Queue = (Id, nat)  // a queue on a controller, by identifier

  /** An I/O queue pair under construction or finished; None where a pointer is null. */
  datatype QueuePair = QueuePair(no: nat, cq: Option<Id>, sq: Option<Id>, prp: Option<Id>,
                                 cqBuf: Option<nat>, sqBuf: Option<nat>, prpBuf: Option<nat>)

  function Elems<T>(x: Option<T>): set<T> {
    if x.Some? then {x.value} else {}
  }

  function Boxes(qp: QueuePair): set<Id> {
    Elems(qp.cq) + Elems(qp.sq) + Elems(qp.prp)
  }

  function Bufs(qp: QueuePair): set<nat> {
    Elems(qp.cqBuf) + Elems(qp.sqBuf) + Elems(qp.prpBuf)
  }

  function CqOf(c: Id, qp: QueuePair): set<Queue> {
    if qp.cq.Some? then {(c, qp.no)} else {}
  }

  function SqOf(c: Id, qp: QueuePair): set<Queue> {
    if qp.sq.Some? then {(c, qp.no)} else {}
  }

  /** Its containers and pages are all different, and a submission queue has its completion queue. */
  predicate Proper(qp: QueuePair) {
    && Elems(qp.cq) !! Elems(qp.sq) !! Elems(qp.prp)
    && Elems(qp.cqBuf) !! Elems(qp.sqBuf) !! Elems(qp.prpBuf)
    && (qp.sq.Some? ==> qp.cq.Some?)
  }

  /** A registered handle, filed under its controller: admin page, container, reference and queue memory, and pairs. */
  datatype Handle = Handle(aqBuf: nat, aqDma: Id, aq: Id, aqMem: Id, qps: seq<QueuePair>)

  function HandleBoxes(h: Handle): set<Id> {
    {h.aqDma, h.aqMem} + AllBoxes(h.qps)
  }

  function HandleBufs(h: Handle): set<nat> {
    {h.aqBuf} + AllBufs(h.qps)
  }

  predicate HandleOk(h: Handle) {
    && Pairs(h.qps) && h.aqDma != h.aqMem && h.aqDma !in AllBoxes(h.qps) && h.aqMem !in AllBoxes(h.qps)
    && h.aqBuf !in AllBufs(h.qps)
  }

  /** What registration takes and gives back: containers, host pages, and queues on controllers. */
  datatype Holdings = Holdings(boxes: map<Id, Box>, bufs: set<nat>, cqs: set<Queue>, sqs: set<Queue>)

  class Host {
    const lib: Library
    var bufs: set<nat>        // host pages from posix_memalign
    var nextBuf: nat
    var cqs: set<Queue>       // completion queues that exist on a controller
    var sqs: set<Queue>
    const obedient: bool      // controllers carry out every deletion that the standard lets them carry out
    ghost var refused: nat    // delete commands that a controller did not carry out
    ghost var late: nat       // create commands carried out although the host took them for failed

    constructor (obedient: bool, fate: nat -> bool)
      ensures this.obedient == obedient && lib.env.fate == fate && fresh(lib) && fresh(lib.env) && lib.Idle() && lib.State() == EMPTY
      ensures bufs == {} && cqs == {} && sqs == {} && refused == 0 && late == 0 && nextBuf == 0
    {
      lib := new Library(fate);
      this.obedient := obedient;
      bufs, nextBuf, cqs, sqs, refused, late := {}, 0, {}, {}, 0, 0;
    }

    ghost function World(): Holdings
      reads this, lib
    {
      Holdings(lib.boxes, bufs, cqs, sqs)
    }

    ghost predicate BufsFresh()
      reads this
    {
      forall b :: b in bufs ==> b < nextBuf
    }

    /** posix_memalign */
    method PageAlloc() returns (b: Option<nat>)
      requires BufsFresh()
      modifies lib.env, `bufs, `nextBuf
      ensures BufsFresh()
      ensures Succeeded(b.Some?, old(lib.env.failed), lib.env.failed)
      ensures b.Some? ==> lib.env.calls == old(lib.env.calls) + 1
      ensures b.None? ==> bufs == old(bufs)
      ensures b.Some? ==> b.value !in old(bufs) && bufs == old(bufs) + {b.value}
    {
      var got := lib.env.Call();
      if !got {
        return None;
      }
      b := Some(nextBuf);
      bufs, nextBuf := bufs + {nextBuf}, nextBuf + 1;
    }

    /**
     The controller creates a completion queue, in mapped memory, only under an unused identifier.
     When the answer does not come in time, the host takes the command for failed.
     */
    method CqCreate(c: Id, no: nat, mem: Id) returns (ok: bool)
      requires mem in lib.boxes
      modifies lib.env, `cqs, `late
      ensures ok ==> lib.env.calls == old(lib.env.calls) + 1
      ensures old(lib.env.failed) <= lib.env.failed && (ok <==> (c, no) !in old(cqs) && lib.env.failed == old(lib.env.failed))
      ensures Created((c, no), old(cqs), cqs, ok, old(late), late)
    {
      var told := lib.env.Call();
      var done: bool := *;
      done := (told || done) && (c, no) !in cqs;
      ok := done && told;
      if done {
        cqs := cqs + {(c, no)};
        late := if ok then late else late + 1;
      }
    }

    /** A submission queue needs an unused identifier and an existing completion queue. */
    method SqCreate(c: Id, no: nat, mem: Id) returns (ok: bool)
      requires mem in lib.boxes
      modifies lib.env, `sqs, `late
      ensures ok ==> lib.env.calls == old(lib.env.calls) + 1
      ensures old(lib.env.failed) <= lib.env.failed && (ok <==> (c, no) !in old(sqs) && (c, no) in cqs && lib.env.failed == old(lib.env.failed))
      ensures Created((c, no), old(sqs), sqs, ok, old(late), late)
      ensures sqs != old(sqs) ==> (c, no) in cqs
    {
      var told := lib.env.Call();
      var done: bool := *;
      done := (told || done) && (c, no) !in sqs && (c, no) in cqs;
      ok := done && told;
      if done {
        sqs := sqs + {(c, no)};
        late := if ok then late else late + 1;
      }
    }

    /** The queue's memory, in container mem, stays mapped until the controller was asked to let go of it. */
    method SqDelete(c: Id, no: nat, mem: Id)
      requires mem in lib.boxes
      modifies `sqs, `refused
      ensures Deleted((c, no), old(sqs), sqs, old(refused), refused)
      ensures obedient && (c, no) in old(sqs) ==> refused == old(refused)
    {
      var ok: bool := *;
      if (ok || obedient) && (c, no) in sqs {
        sqs := sqs - {(c, no)};
      } else {
        refused := refused + 1;
      }
    }

    /** A completion queue is not deleted while a submission queue uses it. */
    method CqDelete(c: Id, no: nat, mem: Id)
      requires mem in lib.boxes
      modifies `cqs, `refused
      ensures Deleted((c, no), old(cqs), cqs, old(refused), refused)
      ensures (c, no) in sqs ==> refused > old(refused)
      ensures obedient && (c, no) in old(cqs) && (c, no) !in sqs ==> refused == old(refused)
    {
      var ok: bool := *;
      if (ok || obedient) && (c, no) in cqs && (c, no) !in sqs {
        cqs := cqs - {(c, no)};
      } else {
        refused := refused + 1;
      }
    }

    /**
     cleanup_qp: the submission queue goes before its completion queue, each mapping once.  A queue that the
     host does not know of stays, and keeps its completion queue.
     */
    method CleanupQp(c: Id, qp: QueuePair)
      requires lib.Idle() && Proper(qp) && Boxes(qp) <= lib.boxes.Keys && CqOf(c, qp) <= cqs && SqOf(c, qp) <= sqs
      modifies `bufs, `cqs, `sqs, `refused, lib`ctrls, lib`maps, lib`boxes, lib`hc, lib`hm, lib`log
      ensures lib.Idle() && Leads(old(lib.State()), lib.State())
      ensures Shed(Boxes(qp), Bufs(qp), CqOf(c, qp), old(World()), World(), old(refused), refused)
      ensures Stuck(c, qp, old(World())) ==> (c, qp.no) in cqs
      ensures obedient && (qp.sq.None? ==> (c, qp.no) !in old(sqs)) ==> refused == old(refused)
    {
      ghost var before, refused0 := lib.State(), refused;
      InTurn(qp, lib.boxes);
      RetireSq(c, qp);
      ghost var noSq, refused1 := lib.State(), refused;
      RetireCq(c, qp);
      ghost var noCq := lib.State();
      LeadsOn(before, noSq, noCq);
      RetireQp((c, qp.no), qp.sq.Some?, qp.cq.Some?, old(cqs), cqs, old(sqs), sqs, refused0, refused1, refused);
      UnmapSome(qp.prp);
      LeadsOn(before, noCq, lib.State());
      bufs := bufs - Bufs(qp);
    }

    method UnmapSome(k: Option<Id>)
      requires lib.Idle() && Elems(k) <= lib.boxes.Keys
      modifies lib`ctrls, lib`maps, lib`boxes, lib`hc, lib`hm, lib`log
      ensures lib.Idle() && Leads(old(lib.State()), lib.State()) && lib.boxes == old(lib.boxes) - Elems(k)
    {
      if k.Some? {
        lib.Unmap(k.value);
      } else {
        LeadsNowhere(lib.State());
      }
    }

    method RetireSq(c: Id, qp: QueuePair)
      requires lib.Idle() && Elems(qp.sq) <= lib.boxes.Keys
      modifies `sqs, `refused, lib`ctrls, lib`maps, lib`boxes, lib`hc, lib`hm, lib`log
      ensures lib.Idle() && Leads(old(lib.State()), lib.State()) && lib.boxes == old(lib.boxes) - Elems(qp.sq)
      ensures if qp.sq.Some? then Deleted((c, qp.no), old(sqs), sqs, old(refused), refused)
              else sqs == old(sqs) && refused == old(refused)
      ensures obedient && SqOf(c, qp) <= old(sqs) ==> refused == old(refused)
    {
      if qp.sq.Some? {
        SqDelete(c, qp.no, qp.sq.value);
      }
      UnmapSome(qp.sq);
    }

    method RetireCq(c: Id, qp: QueuePair)
      requires lib.Idle() && Elems(qp.cq) <= lib.boxes.Keys
      modifies `cqs, `refused, lib`ctrls, lib`maps, lib`boxes, lib`hc, lib`hm, lib`log
      ensures lib.Idle() && Leads(old(lib.State()), lib.State()) && lib.boxes == old(lib.boxes) - Elems(qp.cq)
      ensures if qp.cq.Some? then Deleted((c, qp.no), old(cqs), cqs, old(refused), refused)
              else cqs == old(cqs) && refused == old(refused)
      ensures qp.cq.Some? && (c, qp.no) in sqs ==> refused > old(refused)
      ensures obedient && CqOf(c, qp) <= old(cqs) && (c, qp.no) !in sqs ==> refused == old(refused)
    {
      if qp.cq.Some? {
        CqDelete(c, qp.no, qp.cq.value);
      }
      UnmapSome(qp.cq);
    }

    /** A zeroed host page, mapped for the controller; the page stays when only the mapping fails. */
    method MapPage(c: Id) returns (buf: Option<nat>, box: Option<Id>)
      requires lib.Idle() && c in lib.users && BufsFresh()
      modifies lib.env, `bufs, `nextBuf, lib`ctrls, lib`maps, lib`boxes, lib`next, lib`hc, lib`log
      ensures lib.Idle() && BufsFresh() && Leads(old(lib.State()), lib.State())
      ensures Succeeded(box.Some?, old(lib.env.failed), lib.env.failed)
      ensures box.Some? ==> lib.env.calls == old(lib.env.calls) + 5
      ensures PageAdded(old(World()), World(), buf, box) && MappedFor(lib.State().h, Elems(box), c)
    {
      ghost var before: Ledger := lib.State();
      LeadsNowhere(before);
      UserLive(before, c);
      buf := PageAlloc();
      if buf.None? {
        return None, None;
      }
      box := lib.DmaInit(c);
      if box.Some? {
        NewBoxExtra(before, lib.State().h, c, box.value);
      }
    }

    /** Map the completion queue's page and create the queue; the mapping goes again if that fails. */
    method AddCq(c: Id, no: nat) returns (buf: Option<nat>, box: Option<Id>)
      requires lib.Idle() && c in lib.users && BufsFresh()
      modifies lib.env, `bufs, `nextBuf, `cqs, `late, lib`ctrls, lib`maps, lib`boxes, lib`next, lib`hc, lib`hm, lib`log
      ensures lib.Idle() && BufsFresh() && Leads(old(lib.State()), lib.State())
      ensures box.Some? ==> lib.env.calls == old(lib.env.calls) + 6
      ensures old(lib.env.failed) <= lib.env.failed && (box.Some? <==> (c, no) !in old(cqs) && lib.env.failed == old(lib.env.failed))
      ensures PageAdded(old(World()), World(), buf, box) && MappedFor(lib.State().h, Elems(box), c)
      ensures Created((c, no), old(cqs), cqs, box.Some?, old(late), late)
    {
      ghost var before: Ledger := lib.State();
      buf, box := MapPage(c);
      if box.Some? {
        ghost var mapped: Ledger := lib.State();
        var ok := CqCreate(c, no, box.value);
        if !ok {
          lib.Unmap(box.value);
          LeadsOn(before, mapped, lib.State());
          box := None;
        }
      }
    }

    method AddSq(c: Id, no: nat) returns (buf: Option<nat>, box: Option<Id>)
      requires lib.Idle() && c in lib.users && BufsFresh()
      modifies lib.env, `bufs, `nextBuf, `sqs, `late, lib`ctrls, lib`maps, lib`boxes, lib`next, lib`hc, lib`hm, lib`log
      ensures lib.Idle() && BufsFresh() && Leads(old(lib.State()), lib.State())
      ensures box.Some? ==> lib.env.calls == old(lib.env.calls) + 6
      ensures old(lib.env.failed) <= lib.env.failed && (box.Some? <==> (c, no) !in old(sqs) && (c, no) in cqs && lib.env.failed == old(lib.env.failed))
      ensures PageAdded(old(World()), World(), buf, box) && MappedFor(lib.State().h, Elems(box), c)
      ensures Created((c, no), old(sqs), sqs, box.Some?, old(late), late)
    {
      ghost var before: Ledger := lib.State();
      buf, box := MapPage(c);
      if box.Some? {
        ghost var mapped: Ledger := lib.State();
        var ok := SqCreate(c, no, box.value);
        if !ok {
          lib.Unmap(box.value);
          LeadsOn(before, mapped, lib.State());
          box := None;
        }
      }
    }

    /** One turn of the registration loop, up to its failure label: completion queue, submission queue, pointer list. */
    method BuildQp(c: Id, no: nat) returns (qp: QueuePair, ok: bool)
      requires lib.Idle() && c in lib.users && BufsFresh()
      modifies lib.env, `bufs, `nextBuf, `cqs, `sqs, `late, lib`ctrls, lib`maps, lib`boxes, lib`next, lib`hc, lib`hm, lib`log
      ensures lib.Idle() && BufsFresh() && Leads(old(lib.State()), lib.State())
      ensures ok ==> lib.env.calls == old(lib.env.calls) + 17
      ensures old(lib.env.failed) <= lib.env.failed && (ok <==> (c, no) !in old(cqs) && (c, no) !in old(sqs) && lib.env.failed == old(lib.env.failed))
      ensures qp.no == no && Proper(qp) && (ok ==> Whole(qp))
      ensures Adds(c, qp, old(World()), World(), old(late), late) && MappedFor(lib.State().h, Boxes(qp), c)
    {
      ghost var before, world := lib.State(), World();
      var buf, cq := AddCq(c, no);
      qp, ok := QueuePair(no, cq, None, None, buf, None, None), false;
      CqAdds(c, qp, world, World(), old(late), late);
      if cq.Some? {
        qp, ok := BuildSq(c, qp, before, world);
      }
    }

    method BuildSq(c: Id, half: QueuePair, ghost before: Ledger, ghost world: Holdings) returns (qp: QueuePair, ok: bool)
      requires lib.Idle() && c in lib.users && BufsFresh() && Leads(before, lib.State())
      requires half == QueuePair(half.no, half.cq, None, None, half.cqBuf, None, None) && half.cq.Some? && half.cqBuf.Some?
      requires Proper(half) && Adds(c, half, world, World(), late, late) && MappedFor(lib.State().h, Boxes(half), c)
      modifies lib.env, `bufs, `nextBuf, `sqs, `late, lib`ctrls, lib`maps, lib`boxes, lib`next, lib`hc, lib`hm, lib`log
      ensures lib.Idle() && BufsFresh() && Leads(before, lib.State())
      ensures ok ==> lib.env.calls == old(lib.env.calls) + 11
      ensures old(lib.env.failed) <= lib.env.failed && (ok <==> (c, half.no) !in old(sqs) && lib.env.failed == old(lib.env.failed))
      ensures qp.no == half.no && Proper(qp) && (ok ==> Whole(qp))
      ensures Adds(c, qp, world, World(), old(late), late) && MappedFor(lib.State().h, Boxes(qp), c)
    {
      ghost var turn, soFar := lib.State(), World();
      var buf, sq := AddSq(c, half.no);
      qp, ok := half.(sq := sq, sqBuf := buf), false;
      SqAdds(c, half, qp, world, soFar, World(), old(late), late);
      Grows(before, turn, lib.State(), c, half, qp, Elems(sq));
      if sq.Some? {
        qp, ok := BuildPrp(c, qp, before, world);
      }
    }

    method BuildPrp(c: Id, half: QueuePair, ghost before: Ledger, ghost world: Holdings) returns (qp: QueuePair, ok: bool)
      requires lib.Idle() && c in lib.users && BufsFresh() && Leads(before, lib.State())
      requires half == QueuePair(half.no, half.cq, half.sq, None, half.cqBuf, half.sqBuf, None)
      requires half.cq.Some? && half.sq.Some? && half.cqBuf.Some? && half.sqBuf.Some?
      requires Proper(half) && Adds(c, half, world, World(), late, late) && MappedFor(lib.State().h, Boxes(half), c)
      modifies lib.env, `bufs, `nextBuf, lib`ctrls, lib`maps, lib`boxes, lib`next, lib`hc, lib`log
      ensures lib.Idle() && BufsFresh() && Leads(before, lib.State())
      ensures Succeeded(ok, old(lib.env.failed), lib.env.failed)
      ensures ok ==> lib.env.calls == old(lib.env.calls) + 5
      ensures qp.no == half.no && Proper(qp) && (ok ==> Whole(qp))
      ensures Adds(c, qp, world, World(), late, late) && MappedFor(lib.State().h, Boxes(qp), c)
    {
      ghost var turn, soFar := lib.State(), World();
      var buf, prp := MapPage(c);
      qp, ok := half.(prp := prp, prpBuf := buf), prp.Some?;
      PrpAdds(c, half, qp, world, soFar, World(), late);
      Grows(before, turn, lib.State(), c, half, qp, Elems(prp));
    }

    /** The failure path of registration cleans the finished pairs from the first to the last. */
    method CleanupForward(c: Id, qps: seq<QueuePair>)
      requires lib.Idle() && Pairs(qps) && AllBoxes(qps) <= lib.boxes.Keys
      requires Queues(c, qps) <= cqs && Queues(c, qps) <= sqs
      modifies `bufs, `cqs, `sqs, `refused, lib`ctrls, lib`maps, lib`boxes, lib`hc, lib`hm, lib`log
      ensures lib.Idle() && Leads(old(lib.State()), lib.State())
      ensures Shed(AllBoxes(qps), AllBufs(qps), Queues(c, qps), old(World()), World(), old(refused), refused)
      ensures obedient ==> refused == old(refused)
    {
      ghost var before, world := lib.State(), World();
      LeadsNowhere(before);
      var i := 0;
      while i < |qps|
        invariant 0 <= i <= |qps| && lib.Idle() && Leads(before, lib.State())
        invariant Shed(AllBoxes(qps[..i]), AllBufs(qps[..i]), Queues(c, qps[..i]), world, World(), old(refused), refused)
        invariant obedient ==> refused == old(refused)
      {
        TakeOne(c, qps, i);
        CleanupOne(c, qps[i], AllBoxes(qps[..i]), AllBufs(qps[..i]), Queues(c, qps[..i]), before, world, old(refused));
        i := i + 1;
      }
      assert qps[..i] == qps;
    }

    /** A finished pair goes after the containers xs, pages bs and queues qs went. */
    method CleanupOne(c: Id, qp: QueuePair, ghost xs: set<Id>, ghost bs: set<nat>, ghost qs: set<Queue>,
                      ghost before: Ledger, ghost world: Holdings, ghost refused0: nat)
      requires lib.Idle() && Leads(before, lib.State()) && Proper(qp) && Whole(qp)
      requires Shed(xs, bs, qs, world, World(), refused0, refused)
      requires Boxes(qp) <= world.boxes.Keys && CqOf(c, qp) <= world.cqs && SqOf(c, qp) <= world.sqs
      requires xs !! Boxes(qp) && qs !! CqOf(c, qp)
      modifies `bufs, `cqs, `sqs, `refused, lib`ctrls, lib`maps, lib`boxes, lib`hc, lib`hm, lib`log
      ensures lib.Idle() && Leads(before, lib.State())
      ensures Shed(xs + Boxes(qp), bs + Bufs(qp), qs + CqOf(c, qp), world, World(), refused0, refused)
      ensures obedient ==> refused == old(refused)
    {
      ghost var turn := lib.State();
      Untouched(c, qp, xs, bs, qs, world, World(), refused0, refused);
      CleanupQp(c, qp);
      LeadsOn(before, turn, lib.State());
      ShedJoin(xs, Boxes(qp), bs, Bufs(qp), qs, CqOf(c, qp), world, old(World()), World(), refused0, old(refused), refused);
    }

    /** Deregistration cleans the pairs from the last to the first. */
    method CleanupBackward(c: Id, qps: seq<QueuePair>)
      requires lib.Idle() && BufsFresh() && Pairs(qps) && AllBoxes(qps) <= lib.boxes.Keys
      requires Queues(c, qps) <= cqs && Queues(c, qps) <= sqs
      modifies `bufs, `cqs, `sqs, `refused, lib`ctrls, lib`maps, lib`boxes, lib`hc, lib`hm, lib`log
      ensures lib.Idle() && BufsFresh() && Leads(old(lib.State()), lib.State())
      ensures Shed(AllBoxes(qps), AllBufs(qps), Queues(c, qps), old(World()), World(), old(refused), refused)
      ensures obedient ==> refused == old(refused)
    {
      ghost var before, world := lib.State(), World();
      LeadsNowhere(before);
      var i := |qps|;
      ghost var xs, bs, qs := {}, {}, {};
      assert qps[..i] == qps;
      while i > 0
        invariant 0 <= i <= |qps| && lib.Idle() && Leads(before, lib.State())
        invariant xs == AllBoxes(qps) - AllBoxes(qps[..i]) && bs == AllBufs(qps) - AllBufs(qps[..i])
        invariant qs == Queues(c, qps) - Queues(c, qps[..i])
        invariant Shed(xs, bs, qs, world, World(), old(refused), refused)
        invariant obedient ==> refused == old(refused)
      {
        i := i - 1;
        TakeOne(c, qps, i);
        PeelOne(c, qps, i);
        CleanupOne(c, qps[i], xs, bs, qs, before, world, old(refused));
        xs, bs, qs := xs + Boxes(qps[i]), bs + Bufs(qps[i]), qs + CqOf(c, qps[i]);
      }
      assert xs == AllBoxes(qps) && bs == AllBufs(qps) && qs == Queues(c, qps);
    }

    /** The controller's admin page and mapping, admin queue, and the three admin commands of registration. */
    method OpenAdmin(c: Id) returns (ok: bool, base: Handle)
      requires lib.Idle() && BufsFresh() && c in lib.users
      modifies lib.env, `bufs, `nextBuf, lib`ctrls, lib`maps, lib`boxes, lib`refs, lib`next, lib`hc, lib`hm, lib`log
      ensures lib.Idle() && BufsFresh() && Leads(old(lib.State()), lib.State())
      ensures Succeeded(ok, old(lib.env.failed), lib.env.failed)
      ensures ok ==> lib.env.calls == old(lib.env.calls) + 13
      ensures !ok ==> SameBut(old(lib.State()).h, lib.State().h) && bufs == old(bufs)
      ensures ok ==> AdminOpened(old(lib.State()).h, lib.State().h, c, base)
      ensures ok ==> MappedFor(lib.State().h, {base.aqDma, base.aqMem}, c)
      ensures ok ==> base.aqBuf !in old(bufs) && bufs == old(bufs) + {base.aqBuf}
    {
      ghost var before: Ledger := lib.State();
      base := Handle(0, 0, 0, 0, []);
      var buf, dma := MapPage(c);
      ghost var mapped: Ledger := lib.State();
      if dma.None? {
        bufs := bufs - Elems(buf);
        Restored(before, mapped);
        return false, base;
      }
      UserLive(mapped, c);
      var ps: nat := *;  // the controller's page size; the window has three such pages
      var aq := lib.AqCreate(c, dma.value, ps, Window(ps, 3, true));
      ghost var tried: Ledger := lib.State();
      LeadsOn(before, mapped, tried);
      if aq.None? {
        lib.Unmap(dma.value);
        LeadsOn(before, tried, lib.State());
        Restored(before, lib.State());
        bufs := bufs - {buf.value};
        return false, base;
      }
      base := Handle(buf.value, dma.value, aq.value, lib.refs[aq.value].qmem.value, []);
      AdminOpens(before.h, mapped, tried, c, base);
      ok := Inquire();
      if !ok {
        CloseAdmin(c, base);
        LeadsOn(before, tried, lib.State());
        AdminShuts(before.h, tried.h, c, base);
        Restored(before, lib.State());
      }
    }

    /** Controller information, namespace information, number of queues. */
    method Inquire() returns (ok: bool)
      modifies lib.env
      ensures Succeeded(ok, old(lib.env.failed), lib.env.failed)
      ensures ok ==> lib.env.calls == old(lib.env.calls) + 3
    {
      ok := lib.env.Call();
      if ok {
        ok := lib.env.Call();
      }
      if ok {
        ok := lib.env.Call();
      }
    }

    method CloseAdmin(c: Id, base: Handle)
      requires lib.Idle() && BufsFresh() && base.aq in lib.refs && lib.refs[base.aq] == Ref(c, Some(base.aqMem))
      requires base.aqDma in lib.boxes && base.aqMem in lib.boxes && base.aqDma != base.aqMem
      modifies `bufs, lib`ctrls, lib`maps, lib`boxes, lib`refs, lib`hc, lib`hm, lib`log
      ensures lib.Idle() && BufsFresh() && Leads(old(lib.State()), lib.State())
      ensures lib.boxes == old(lib.boxes) - {base.aqDma, base.aqMem} && lib.refs == old(lib.refs) - {base.aq}
      ensures bufs == old(bufs) - {base.aqBuf}
    {
      ghost var before: Ledger := lib.State();
      lib.RefPut(base.aq);
      ghost var noAq: Ledger := lib.State();
      lib.Unmap(base.aqDma);
      LeadsOn(before, noAq, lib.State());
      bufs := bufs - {base.aqBuf};
    }

    /** The registration loop; a failure cleans the current pair and then every finished one. */
    method BuildQps(c: Id, n: nat) returns (ok: bool, qps: seq<QueuePair>)
      requires lib.Idle() && BufsFresh() && c in lib.users && NoQueues(c, cqs) && NoQueues(c, sqs)
      modifies lib.env, `bufs, `nextBuf, `cqs, `sqs, `refused, `late
      modifies lib`ctrls, lib`maps, lib`boxes, lib`next, lib`hc, lib`hm, lib`log
      ensures lib.Idle() && BufsFresh() && Leads(old(lib.State()), lib.State())
      ensures !ok ==> Undone(c, old(World()), World(), old(refused), refused, old(late), late)
      ensures ok ==> |qps| == n && Built(c, qps, old(World()), World()) && MappedFor(lib.State().h, AllBoxes(qps), c)
      ensures ok ==> late == old(late)
      ensures Succeeded(ok, old(lib.env.failed), lib.env.failed)
      ensures ok ==> lib.env.calls == old(lib.env.calls) + 17 * n
      ensures ok || (obedient && late == old(late)) ==> refused == old(refused)
    {
      ghost var before, world := lib.State(), World();
      LeadsNowhere(before);
      ok, qps := true, [];
      while ok && |qps| < n
        invariant |qps| <= n && lib.Idle() && BufsFresh() && Leads(before, lib.State())
        invariant ok ==> Built(c, qps, world, World()) && MappedFor(lib.State().h, AllBoxes(qps), c) && late == old(late)
        invariant ok ==> lib.env.calls == old(lib.env.calls) + 17 * |qps|
        invariant Succeeded(ok, old(lib.env.failed), lib.env.failed)
        invariant ok || (obedient && late == old(late)) ==> refused == old(refused)
        invariant !ok ==> Undone(c, world, World(), old(refused), refused, old(late), late)
        decreases ok, n - |qps|
      {
        ghost var turn := lib.State();
        ok, qps := BuildNext(c, qps, world);
        LeadsOn(before, turn, lib.State());
      }
    }

    /** One turn of the loop, with its failure label. */
    method BuildNext(c: Id, qps: seq<QueuePair>, ghost world: Holdings) returns (ok: bool, qps': seq<QueuePair>)
      requires lib.Idle() && BufsFresh() && c in lib.users && NoQueues(c, world.cqs) && NoQueues(c, world.sqs)
      requires Built(c, qps, world, World()) && MappedFor(lib.State().h, AllBoxes(qps), c)
      modifies lib.env, `bufs, `nextBuf, `cqs, `sqs, `refused, `late
      modifies lib`ctrls, lib`maps, lib`boxes, lib`next, lib`hc, lib`hm, lib`log
      ensures lib.Idle() && BufsFresh() && Leads(old(lib.State()), lib.State())
      ensures Succeeded(ok, old(lib.env.failed), lib.env.failed)
      ensures ok ==> lib.env.calls == old(lib.env.calls) + 17
      ensures ok ==> |qps'| == |qps| + 1 && Built(c, qps', world, World()) && late == old(late)
      ensures ok ==> MappedFor(lib.State().h, AllBoxes(qps'), c)
      ensures ok || (obedient && late == old(late)) ==> refused == old(refused)
      ensures !ok ==> |qps'| == |qps| && Undone(c, world, World(), old(refused), refused, old(late), late)
    {
      ghost var before, soFar := lib.State(), World();
      var qp;
      NumberFree(c, qps, world, soFar);
      ok, qp, qps' := TryNext(c, qps, world);
      if ok {
        return;
      }
      ghost var more: Ledger := lib.State();
      Abandon(c, qps, qp, world, soFar, old(late));
      LeadsOn(before, more, lib.State());
    }

    method TryNext(c: Id, qps: seq<QueuePair>, ghost world: Holdings) returns (ok: bool, qp: QueuePair, qps': seq<QueuePair>)
      requires lib.Idle() && BufsFresh() && c in lib.users
      requires Built(c, qps, world, World()) && MappedFor(lib.State().h, AllBoxes(qps), c)
      modifies lib.env, `bufs, `nextBuf, `cqs, `sqs, `late, lib`ctrls, lib`maps, lib`boxes, lib`next, lib`hc, lib`hm, lib`log
      ensures lib.Idle() && BufsFresh() && Leads(old(lib.State()), lib.State()) && Proper(qp) && qp.no == |qps| + 1
      ensures ok ==> lib.env.calls == old(lib.env.calls) + 17
      ensures old(lib.env.failed) <= lib.env.failed && (ok <==> (c, |qps| + 1) !in old(cqs) && (c, |qps| + 1) !in old(sqs) && lib.env.failed == old(lib.env.failed))
      ensures Adds(c, qp, old(World()), World(), old(late), late)
      ensures qps' == if ok then qps + [qp] else qps
      ensures ok ==> Built(c, qps', world, World()) && late == old(late) && MappedFor(lib.State().h, AllBoxes(qps'), c)
    {
      ghost var before, soFar := lib.State(), World();
      qp, ok := BuildQp(c, |qps| + 1);
      qps' := qps;
      if ok {
        BuiltOne(c, qps, qp, world, soFar, World(), old(late), late);
        NextMapped(before, lib.State(), c, qps, qp);
        qps' := qps + [qp];
      }
    }

    /** The failure label of the loop, up to the admin queue. */
    method Abandon(c: Id, qps: seq<QueuePair>, qp: QueuePair, ghost world: Holdings, ghost soFar: Holdings, ghost late0: nat)
      requires lib.Idle() && BufsFresh() && NoQueues(c, world.cqs) && NoQueues(c, world.sqs)
      requires Built(c, qps, world, soFar) && Proper(qp) && qp.no == |qps| + 1 && Adds(c, qp, soFar, World(), late0, late)
      modifies `bufs, `cqs, `sqs, `refused, lib`ctrls, lib`maps, lib`boxes, lib`hc, lib`hm, lib`log
      ensures lib.Idle() && BufsFresh() && Leads(old(lib.State()), lib.State())
      ensures Undone(c, world, World(), old(refused), refused, late0, late)
      ensures obedient && late == late0 ==> refused == old(refused)
    {
      ghost var full := World();
      NumberFree(c, qps, world, soFar);
      AllParts(c, qps, qp, world, soFar, full, late0, late);
      CleanupAll(c, qps, qp);
      LeavesOver(c, qps, qp, world, full, World(), old(refused), refused, late0, late);
    }

    /** The current pair goes first, then the finished ones. */
    method CleanupAll(c: Id, qps: seq<QueuePair>, qp: QueuePair)
      requires lib.Idle() && BufsFresh() && Proper(qp) && Pairs(qps) && Boxes(qp) <= lib.boxes.Keys && AllBoxes(qps) <= lib.boxes.Keys
      requires AllBoxes(qps) !! Boxes(qp) && (c, qp.no) !in Queues(c, qps)
      requires CqOf(c, qp) <= cqs && SqOf(c, qp) <= sqs && Queues(c, qps) <= cqs && Queues(c, qps) <= sqs
      modifies `bufs, `cqs, `sqs, `refused, lib`ctrls, lib`maps, lib`boxes, lib`hc, lib`hm, lib`log
      ensures lib.Idle() && BufsFresh() && Leads(old(lib.State()), lib.State())
      ensures Shed(Boxes(qp) + AllBoxes(qps), Bufs(qp) + AllBufs(qps), CqOf(c, qp) + Queues(c, qps), old(World()), World(),
                   old(refused), refused)
      ensures Stuck(c, qp, old(World())) ==> (c, qp.no) in cqs
      ensures obedient && (qp.sq.None? ==> (c, qp.no) !in old(sqs)) ==> refused == old(refused)
    {
      ghost var before, full := lib.State(), World();
      CleanupQp(c, qp);
      ghost var current, half, refused1 := lib.State(), World(), refused;
      StillParts(c, qps, qp, full, half, old(refused), refused1);
      CleanupForward(c, qps);
      LeadsOn(before, current, lib.State());
      ShedJoin(Boxes(qp), AllBoxes(qps), Bufs(qp), AllBufs(qps), CqOf(c, qp), Queues(c, qps), full, half, World(),
               old(refused), refused1, refused);
    }

    /** All that registration does between creating the controller and entering it into the driver's tables. */
    method Equip(c: Id, n: nat) returns (ok: bool, h: Handle)
      requires lib.Idle() && BufsFresh() && c in lib.users && NoQueues(c, cqs) && NoQueues(c, sqs)
      modifies lib.env, `bufs, `nextBuf, `cqs, `sqs, `refused, `late
      modifies lib`ctrls, lib`maps, lib`boxes, lib`refs, lib`next, lib`hc, lib`hm, lib`log
      ensures lib.Idle() && BufsFresh() && Leads(old(lib.State()), lib.State())
      ensures !ok ==> lib.refs == old(lib.refs) && Undone(c, old(World()), World(), old(refused), refused, old(late), late)
      ensures ok ==> |h.qps| == n && h.aq !in old(lib.refs) && late == old(late)
      ensures Succeeded(ok, old(lib.env.failed), lib.env.failed)
      ensures ok ==> lib.env.calls == old(lib.env.calls) + 13 + 17 * n
      ensures ok || (obedient && late == old(late)) ==> refused == old(refused)
      ensures ok ==> lib.refs == old(lib.refs)[h.aq := Ref(c, Some(h.aqMem))]
      ensures ok ==> Equipped(c, h, old(World()), World()) && MappedFor(lib.State().h, HandleBoxes(h), c)
    {
      ghost var before, world := lib.State(), World();
      ok, h := OpenAdmin(c);
      if !ok {
        return;
      }
      ghost var ready, ground := lib.State(), World();
      ok, h := Furnish(c, n, h, world);
      ghost var built: Ledger := lib.State();
      LeadsOn(before, ready, built);
      if !ok {
        Disband(c, h, before.h, ready.h, world, ground, old(refused), old(late));
        LeadsOn(before, built, lib.State());
      }
    }

    /** The queue pairs of a handle that has its admin queue. */
    method Furnish(c: Id, n: nat, base: Handle, ghost world: Holdings) returns (ok: bool, h: Handle)
      requires lib.Idle() && BufsFresh() && c in lib.users && NoQueues(c, cqs) && NoQueues(c, sqs)
      requires base.aqDma != base.aqMem && Extra(world.boxes, lib.boxes, {base.aqDma, base.aqMem}) && base.aqBuf !in world.bufs
      requires World() == world.(boxes := lib.boxes, bufs := world.bufs + {base.aqBuf})
      requires MappedFor(lib.State().h, {base.aqDma, base.aqMem}, c)
      modifies lib.env, `bufs, `nextBuf, `cqs, `sqs, `refused, `late
      modifies lib`ctrls, lib`maps, lib`boxes, lib`next, lib`hc, lib`hm, lib`log
      ensures lib.Idle() && BufsFresh() && Leads(old(lib.State()), lib.State())
      ensures !ok ==> h == base && Undone(c, old(World()), World(), old(refused), refused, old(late), late)
      ensures ok ==> h == base.(qps := h.qps) && |h.qps| == n && late == old(late)
      ensures Succeeded(ok, old(lib.env.failed), lib.env.failed)
      ensures ok ==> lib.env.calls == old(lib.env.calls) + 17 * n
      ensures ok || (obedient && late == old(late)) ==> refused == old(refused)
      ensures ok ==> Equipped(c, h, world, World()) && MappedFor(lib.State().h, HandleBoxes(h), c)
    {
      ghost var ready, ground := lib.State(), World();
      var qps;
      ok, qps := BuildQps(c, n);
      h := base;
      if ok {
        EquippedAll(c, h, qps, world, ground, World());
        AllMapped(ready, lib.State(), c, h, qps);
        h := h.(qps := qps);
      }
    }

    /** The end of the failure path: the admin queue goes after the queue pairs. */
    method Disband(c: Id, h: Handle, ghost before: Heap, ghost ready: Heap, ghost world: Holdings, ghost ground: Holdings,
                   ghost refused0: nat, ghost late0: nat)
      requires lib.Idle() && BufsFresh() && AdminOpened(before, ready, c, h) && lib.refs == ready.refs && h.aqBuf !in world.bufs
      requires world.boxes == before.boxes && ground == world.(boxes := ready.boxes, bufs := world.bufs + {h.aqBuf})
      requires Undone(c, ground, World(), refused0, refused, late0, late)
      modifies `bufs, lib`ctrls, lib`maps, lib`boxes, lib`refs, lib`hc, lib`hm, lib`log
      ensures lib.Idle() && BufsFresh() && Leads(old(lib.State()), lib.State()) && lib.refs == before.refs
      ensures Undone(c, world, World(), refused0, refused, late0, late)
    {
      ghost var left := World();
      AdminShuts(before, ready, c, h);
      CloseAdmin(c, h);
      UndoneAll(c, h, world, ground, left, World(), refused0, refused, late0, late);
    }

    /** Registration up to the driver's tables. */
    method Take(n: nat) returns (ok: bool, c: Id, h: Handle)
      requires lib.Idle() && BufsFresh() && NoQueues(lib.next, cqs) && NoQueues(lib.next, sqs)
      modifies lib.env, `bufs, `nextBuf, `cqs, `sqs, `refused, `late, lib
      ensures lib.Idle() && BufsFresh() && Leads(old(lib.State()), lib.State()) && c == old(lib.next)
      ensures !ok ==> SameBut(old(lib.State()).h, lib.State().h)
      ensures !ok ==> Undone(c, old(World()), World(), old(refused), refused, old(late), late)
      ensures !ok && (cqs != old(cqs) || sqs != old(sqs)) ==> c < lib.next
      ensures ok ==> |h.qps| == n && Equipped(c, h, old(World()), World()) && late == old(late)
      ensures Succeeded(ok, old(lib.env.failed), lib.env.failed)
      ensures ok ==> lib.env.calls == old(lib.env.calls) + 14 + 17 * n
      ensures ok || (obedient && late == old(late)) ==> refused == old(refused)
      ensures ok ==> Entered(old(lib.State()).h, lib.State().h, c, h)
    {
      ghost var before: Ledger := lib.State();
      c := lib.next;
      var init := lib.CtrlInit(true);
      if init.None? {
        return false, c, Handle(0, 0, 0, 0, []);
      }
      ghost var alone: Ledger := lib.State();
      ok, h := Equip(c, n);
      ghost var equipped: Ledger := lib.State();
      LeadsOn(before, alone, equipped);
      LeadsEvolves(alone, equipped);
      UserLive(equipped, c);
      if !ok {
        lib.CtrlFree(c);
        LeadsOn(before, equipped, lib.State());
        Restored(before, lib.State());
      }
    }

    /** The end of deregistration: admin queue, admin mapping and page, and the user's controller reference. */
    method Shut(c: Id, h: Handle)
      requires lib.Idle() && BufsFresh() && c in lib.users && h.aq in lib.refs && lib.refs[h.aq] == Ref(c, Some(h.aqMem))
      requires h.aqDma in lib.boxes && h.aqMem in lib.boxes && h.aqDma != h.aqMem
      modifies `bufs, lib`ctrls, lib`maps, lib`boxes, lib`refs, lib`users, lib`hc, lib`hm, lib`log
      ensures lib.Idle() && BufsFresh() && Leads(old(lib.State()), lib.State())
      ensures lib.boxes == old(lib.boxes) - {h.aqDma, h.aqMem} && lib.refs == old(lib.refs) - {h.aq}
      ensures lib.users == old(lib.users) - {c} && bufs == old(bufs) - {h.aqBuf}
    {
      ghost var before: Ledger := lib.State();
      CloseAdmin(c, h);
      ghost var closed: Ledger := lib.State();
      lib.CtrlFree(c);
      LeadsOn(before, closed, lib.State());
    }

    /** Deregistration of a handle that owns all its parts: pairs from the last to the first, then the rest. */
    method Release(c: Id, h: Handle)
      requires lib.Idle() && BufsFresh() && c in lib.users && h.aq in lib.refs && lib.refs[h.aq] == Ref(c, Some(h.aqMem))
      requires HandleOk(h) && HandleBoxes(h) <= lib.boxes.Keys && Queues(c, h.qps) <= cqs && Queues(c, h.qps) <= sqs
      modifies `bufs, `cqs, `sqs, `refused, lib`ctrls, lib`maps, lib`boxes, lib`refs, lib`users, lib`hc, lib`hm, lib`log
      ensures lib.Idle() && BufsFresh() && Leads(old(lib.State()), lib.State())
      ensures lib.refs == old(lib.refs) - {h.aq} && lib.users == old(lib.users) - {c}
      ensures Shed(HandleBoxes(h), HandleBufs(h), Queues(c, h.qps), old(World()), World(), old(refused), refused)
      ensures obedient ==> refused == old(refused)
    {
      ghost var before: Ledger := lib.State();
      DropAll(lib.boxes, h);
      CleanupBackward(c, h.qps);
      ghost var clean: Ledger := lib.State();
      Shut(c, h);
      LeadsOn(before, clean, lib.State());
    }
  }

  lemma DropAll(boxes: map<Id, Box>, h: Handle)
    requires HandleOk(h) && HandleBoxes(h) <= boxes.Keys
    ensures AllBoxes(h.qps) <= boxes.Keys && h.aqDma in boxes - AllBoxes(h.qps) && h.aqMem in boxes - AllBoxes(h.qps)
    ensures boxes - AllBoxes(h.qps) - {h.aqDma, h.aqMem} == boxes - HandleBoxes(h)
  {
  }

  /** From h to h': the user of controller c and its admin reference. */
  predicate Entered(h: Heap, h': Heap, c: Id, a: Handle) {
    && c < h'.next && h'.users == h.users + {c} && c in h'.ctrls && h'.ctrls[c].device
    && a.aq !in h.refs && h'.refs == h.refs[a.aq := Ref(c, Some(a.aqMem))]
    && MappedFor(h', HandleBoxes(a), c)
  }

  /** Containers xs are mapped for controller c. */
  predicate MappedFor(h: Heap, xs: set<Id>, c: Id) {
    forall k :: k in xs ==> Serves(h, k, c)
  }

  predicate Serves(h: Heap, k: Id, c: Id) {
    k in h.boxes && h.boxes[k].desc in h.maps && h.maps[h.boxes[k].desc].ctrl == c
  }

  /** A container that stays is mapped for the controller it was mapped for. */
  lemma ServesStill(b: Ledger, t: Ledger, k: Id, c: Id)
    requires Leads(b, t) && k in b.h.boxes && k in t.h.boxes && t.h.boxes[k] == b.h.boxes[k]
    ensures Serves(t.h, k, c) <==> Serves(b.h, k, c)
  {
    LeadsEvolves(b, t);
    BoxLive(b, k);
    BoxLive(t, k);
  }

  lemma MappedStays(b: Ledger, t: Ledger, xs: set<Id>, c: Id, ys: set<Id>)
    requires Leads(b, t) && MappedFor(b.h, xs, c) && Extra(b.h.boxes, t.h.boxes, ys)
    ensures MappedFor(t.h, xs, c)
  {
    forall k | k in xs
      ensures Serves(t.h, k, c)
    {
      assert Serves(b.h, k, c) && k in t.h.boxes - ys;
      ServesStill(b, t, k, c);
    }
  }

  /** Handle h on controller c is what was added. */
  predicate Equipped(c: Id, h: Handle, w: Holdings, w': Holdings) {
    && HandleOk(h) && Extra(w.boxes, w'.boxes, HandleBoxes(h)) && HandleBufs(h) !! w.bufs && w'.bufs == w.bufs + HandleBufs(h)
    && w'.cqs == w.cqs + Queues(c, h.qps) && w'.sqs == w.sqs + Queues(c, h.qps)
  }

  lemma UndoneAll(c: Id, h: Handle, w: Holdings, w1: Holdings, w2: Holdings, w': Holdings,
                  refused: nat, refused': nat, late: nat, late': nat)
    requires Extra(w.boxes, w1.boxes, {h.aqDma, h.aqMem}) && h.aqBuf !in w.bufs
    requires w1 == w.(boxes := w1.boxes, bufs := w.bufs + {h.aqBuf}) && Undone(c, w1, w2, refused, refused', late, late')
    requires w' == w2.(boxes := w2.boxes - {h.aqDma, h.aqMem}, bufs := w2.bufs - {h.aqBuf})
    ensures Undone(c, w, w', refused, refused', late, late')
  {
  }

  lemma EquippedAll(c: Id, h: Handle, qps: seq<QueuePair>, w: Holdings, w1: Holdings, w': Holdings)
    requires h.aqDma != h.aqMem && Extra(w.boxes, w1.boxes, {h.aqDma, h.aqMem}) && h.aqBuf !in w.bufs
    requires w1 == w.(boxes := w1.boxes, bufs := w.bufs + {h.aqBuf}) && Built(c, qps, w1, w')
    ensures Equipped(c, h.(qps := qps), w, w')
  {
    ExtraJoin(w.boxes, w1.boxes, w'.boxes, {h.aqDma, h.aqMem}, AllBoxes(qps));
  }

  lemma AllMapped(b: Ledger, t: Ledger, c: Id, h: Handle, qps: seq<QueuePair>)
    requires Leads(b, t) && MappedFor(b.h, {h.aqDma, h.aqMem}, c) && MappedFor(t.h, AllBoxes(qps), c)
    requires Extra(b.h.boxes, t.h.boxes, AllBoxes(qps))
    ensures MappedFor(t.h, HandleBoxes(h.(qps := qps)), c)
  {
    MappedStays(b, t, {h.aqDma, h.aqMem}, c, AllBoxes(qps));
  }

  /** At most one more page and one more container, and no container without its page. */
  predicate PageAdded(w: Holdings, w': Holdings, buf: Option<nat>, box: Option<Id>) {
    && Elems(buf) !! w.bufs && w'.bufs == w.bufs + Elems(buf)
    && Extra(w.boxes, w'.boxes, Elems(box)) && (box.Some? ==> buf.Some?)
  }

  lemma CqAdds(c: Id, qp: QueuePair, w: Holdings, w': Holdings, late: nat, late': nat)
    requires PageAdded(w, w', qp.cqBuf, qp.cq) && qp == QueuePair(qp.no, qp.cq, None, None, qp.cqBuf, None, None)
    requires w'.sqs == w.sqs && Created((c, qp.no), w.cqs, w'.cqs, qp.cq.Some?, late, late')
    ensures Adds(c, qp, w, w', late, late') && (qp.cq.Some? ==> late' == late)
  {
    assert Boxes(qp) == Elems(qp.cq) && Bufs(qp) == Elems(qp.cqBuf);
  }

  lemma SqAdds(c: Id, half: QueuePair, qp: QueuePair, w: Holdings, w1: Holdings, w': Holdings, late: nat, late': nat)
    requires Proper(half) && half.cq.Some? && half.sq.None? && half.sqBuf.None? && Adds(c, half, w, w1, late, late)
    requires qp == half.(sq := qp.sq, sqBuf := qp.sqBuf) && PageAdded(w1, w', qp.sqBuf, qp.sq)
    requires w'.cqs == w1.cqs && Created((c, qp.no), w1.sqs, w'.sqs, qp.sq.Some?, late, late')
    ensures Proper(qp) && Adds(c, qp, w, w', late, late') && (qp.sq.Some? ==> late' == late)
    ensures Boxes(qp) == Boxes(half) + Elems(qp.sq)
  {
    assert Boxes(qp) == Boxes(half) + Elems(qp.sq) && Bufs(qp) == Bufs(half) + Elems(qp.sqBuf);
    ExtraJoin(w.boxes, w1.boxes, w'.boxes, Boxes(half), Elems(qp.sq));
  }

  lemma PrpAdds(c: Id, half: QueuePair, qp: QueuePair, w: Holdings, w1: Holdings, w': Holdings, late: nat)
    requires Proper(half) && half.prp.None? && half.prpBuf.None? && Adds(c, half, w, w1, late, late)
    requires qp == half.(prp := qp.prp, prpBuf := qp.prpBuf) && PageAdded(w1, w', qp.prpBuf, qp.prp)
    requires w'.cqs == w1.cqs && w'.sqs == w1.sqs
    ensures Proper(qp) && Adds(c, qp, w, w', late, late) && Boxes(qp) == Boxes(half) + Elems(qp.prp)
  {
    assert Boxes(qp) == Boxes(half) + Elems(qp.prp) && Bufs(qp) == Bufs(half) + Elems(qp.prpBuf);
    ExtraJoin(w.boxes, w1.boxes, w'.boxes, Boxes(half), Elems(qp.prp));
  }

  /** A pair that gets container xs keeps those it has. */
  lemma Grows(b: Ledger, t: Ledger, u: Ledger, c: Id, half: QueuePair, qp: QueuePair, xs: set<Id>)
    requires Leads(b, t) && Leads(t, u) && MappedFor(t.h, Boxes(half), c) && MappedFor(u.h, xs, c)
    requires Extra(t.h.boxes, u.h.boxes, xs) && Boxes(qp) == Boxes(half) + xs
    ensures Leads(b, u) && MappedFor(u.h, Boxes(qp), c)
  {
    LeadsOn(b, t, u);
    MappedStays(t, u, Boxes(half), c, xs);
  }

  lemma NextMapped(b: Ledger, t: Ledger, c: Id, qps: seq<QueuePair>, qp: QueuePair)
    requires Leads(b, t) && MappedFor(b.h, AllBoxes(qps), c) && MappedFor(t.h, Boxes(qp), c)
    requires Extra(b.h.boxes, t.h.boxes, Boxes(qp))
    ensures MappedFor(t.h, AllBoxes(qps + [qp]), c)
  {
    assert (qps + [qp])[..|qps|] == qps;
    MappedStays(b, t, AllBoxes(qps), c, Boxes(qp));
  }

  predicate NoQueues(c: Id, qs: set<Queue>) {
    forall q :: q in qs ==> q.0 != c
  }

  /** One create command: carried out, not carried out, or carried out late, which is counted. */
  predicate Created(q: Queue, qs: set<Queue>, qs': set<Queue>, told: bool, late: nat, late': nat) {
    || (q !in qs && qs' == qs + {q} && late' == if told then late else late + 1)
    || (!told && qs' == qs && late' == late)
  }

  /** Pair qp of controller c, finished or not, is what was added; a late create adds a queue that qp does not know. */
  predicate Adds(c: Id, qp: QueuePair, w: Holdings, w': Holdings, late: nat, late': nat) {
    && Extra(w.boxes, w'.boxes, Boxes(qp)) && Bufs(qp) !! w.bufs && w'.bufs == w.bufs + Bufs(qp) && late <= late'
    && w.cqs + CqOf(c, qp) <= w'.cqs <= w.cqs + {(c, qp.no)} && w.sqs + SqOf(c, qp) <= w'.sqs <= w.sqs + {(c, qp.no)}
    && (late' == late ==> w'.cqs == w.cqs + CqOf(c, qp) && w'.sqs == w.sqs + SqOf(c, qp))
    && (late' > late ==> Stuck(c, qp, w'))
  }

  /** The controller has a queue of pair qp that the host does not know of. */
  predicate Stuck(c: Id, qp: QueuePair, w: Holdings) {
    && qp.sq.None? && (c, qp.no) in w.cqs
    && (qp.cq.Some? ==> (c, qp.no) in w.sqs)
  }

  /** Pairs qps of controller c are what was added. */
  predicate Built(c: Id, qps: seq<QueuePair>, w: Holdings, w': Holdings) {
    && Pairs(qps) && Extra(w.boxes, w'.boxes, AllBoxes(qps)) && AllBufs(qps) !! w.bufs && w'.bufs == w.bufs + AllBufs(qps)
    && w'.cqs == w.cqs + Queues(c, qps) && w'.sqs == w.sqs + Queues(c, qps)
  }

  /**
   Everything the host took is given back.  Queues are left on the controller, only its own, exactly
   when it refused a deletion or carried out a creation late.
   */
  predicate Undone(c: Id, w: Holdings, w': Holdings, refused: nat, refused': nat, late: nat, late': nat) {
    && w'.boxes == w.boxes && w'.bufs == w.bufs
    && w.cqs <= w'.cqs && w.sqs <= w'.sqs && refused <= refused' && late <= late'
    && (forall q :: q in w'.cqs - w.cqs ==> q.0 == c) && (forall q :: q in w'.sqs - w.sqs ==> q.0 == c)
    && (refused' == refused && late' == late <==> w' == w)
  }

  lemma NumberFree(c: Id, qps: seq<QueuePair>, w: Holdings, w': Holdings)
    requires NoQueues(c, w.cqs) && NoQueues(c, w.sqs) && Built(c, qps, w, w')
    ensures (c, |qps| + 1) !in w'.cqs && (c, |qps| + 1) !in w'.sqs && (c, |qps| + 1) !in Queues(c, qps)
  {
    QueueNumbers(c, qps);
  }

  lemma BuiltOne(c: Id, qps: seq<QueuePair>, qp: QueuePair, w: Holdings, w1: Holdings, w': Holdings, late: nat, late': nat)
    requires Built(c, qps, w, w1) && Proper(qp) && Whole(qp) && qp.no == |qps| + 1 && Adds(c, qp, w1, w', late, late')
    ensures Built(c, qps + [qp], w, w') && late' == late
  {
    assert (qps + [qp])[..|qps|] == qps;
    ExtraJoin(w.boxes, w1.boxes, w'.boxes, AllBoxes(qps), Boxes(qp));
  }

  /** All that is there when the loop fails. */
  lemma AllParts(c: Id, qps: seq<QueuePair>, qp: QueuePair, w: Holdings, w1: Holdings, w': Holdings, late: nat, late': nat)
    requires Built(c, qps, w, w1) && Adds(c, qp, w1, w', late, late')
    ensures Extra(w.boxes, w'.boxes, Boxes(qp) + AllBoxes(qps)) && AllBoxes(qps) !! Boxes(qp)
    ensures Bufs(qp) + AllBufs(qps) !! w.bufs && w'.bufs == w.bufs + (Bufs(qp) + AllBufs(qps))
    ensures w.cqs + Queues(c, qps) <= w'.cqs <= w.cqs + Queues(c, qps) + {(c, qp.no)}
    ensures w.sqs + Queues(c, qps) <= w'.sqs <= w.sqs + Queues(c, qps) + {(c, qp.no)}
  {
    ExtraJoin(w.boxes, w1.boxes, w'.boxes, AllBoxes(qps), Boxes(qp));
    assert AllBoxes(qps) + Boxes(qp) == Boxes(qp) + AllBoxes(qps);
  }

  /** Cleaning the current pair leaves the finished ones. */
  lemma StillParts(c: Id, qps: seq<QueuePair>, qp: QueuePair, w: Holdings, w': Holdings, refused: nat, refused': nat)
    requires Shed(Boxes(qp), Bufs(qp), CqOf(c, qp), w, w', refused, refused')
    requires AllBoxes(qps) <= w.boxes.Keys && AllBoxes(qps) !! Boxes(qp) && (c, qp.no) !in Queues(c, qps)
    requires Queues(c, qps) <= w.cqs && Queues(c, qps) <= w.sqs
    ensures AllBoxes(qps) <= w'.boxes.Keys && Queues(c, qps) <= w'.cqs && Queues(c, qps) <= w'.sqs
  {
  }

  lemma LeavesOver(c: Id, qps: seq<QueuePair>, qp: QueuePair, w: Holdings, w1: Holdings, w': Holdings,
                   refused: nat, refused': nat, late: nat, late': nat)
    requires Pairs(qps) && NoQueues(c, w.cqs) && NoQueues(c, w.sqs) && (qp.sq.Some? ==> qp.cq.Some?) && late <= late'
    requires Extra(w.boxes, w1.boxes, Boxes(qp) + AllBoxes(qps))
    requires Bufs(qp) + AllBufs(qps) !! w.bufs && w1.bufs == w.bufs + (Bufs(qp) + AllBufs(qps))
    requires w.cqs + Queues(c, qps) <= w1.cqs <= w.cqs + Queues(c, qps) + {(c, qp.no)}
    requires w.sqs + Queues(c, qps) <= w1.sqs <= w.sqs + Queues(c, qps) + {(c, qp.no)}
    requires late' == late ==> w1.cqs == w.cqs + Queues(c, qps) + CqOf(c, qp) && w1.sqs == w.sqs + Queues(c, qps) + SqOf(c, qp)
    requires late' > late ==> (c, qp.no) in w'.cqs
    requires Shed(Boxes(qp) + AllBoxes(qps), Bufs(qp) + AllBufs(qps), CqOf(c, qp) + Queues(c, qps), w1, w', refused, refused')
    ensures Undone(c, w, w', refused, refused', late, late')
  {
    QueueNumbers(c, qps);
    if refused' > refused {
      var x :| x in w'.cqs && x in CqOf(c, qp) + Queues(c, qps);
      assert x !in w.cqs;
    }
  }

  /** From h to h': controller c's admin mapping, admin reference and queue memory. */
  predicate AdminOpened(h: Heap, h': Heap, c: Id, base: Handle) {
    && base.aq !in h.refs && h'.refs == h.refs[base.aq := Ref(c, Some(base.aqMem))]
    && base.aqDma != base.aqMem && Extra(h.boxes, h'.boxes, {base.aqDma, base.aqMem}) && base.qps == []
  }

  lemma AdminOpens(h: Heap, b: Ledger, t: Ledger, c: Id, base: Handle)
    requires b.h.refs == h.refs && Extra(h.boxes, b.h.boxes, {base.aqDma}) && base.qps == []
    requires Admin(b.h, t.h, c, base.aqDma, base.aq) && t.h.refs[base.aq].qmem.value == base.aqMem
    requires Leads(b, t) && MappedFor(b.h, {base.aqDma}, c)
    ensures AdminOpened(h, t.h, c, base) && MappedFor(t.h, {base.aqDma, base.aqMem}, c)
  {
    AdminIsNew(b, t.h, c, base.aqDma, base.aq);
    ExtraJoin(h.boxes, b.h.boxes, t.h.boxes, {base.aqDma}, {base.aqMem});
    assert {base.aqDma} + {base.aqMem} == {base.aqDma, base.aqMem};
    MappedStays(b, t, {base.aqDma}, c, {base.aqMem});
    assert Serves(t.h, base.aqDma, c);
  }

  lemma AdminIsNew(b: Ledger, h: Heap, c: Id, window: Id, r: Id)
    requires Admin(b.h, h, c, window, r)
    ensures r !in b.h.refs && h.refs[r].qmem.value !in b.h.boxes && Extra(b.h.boxes, h.boxes, {h.refs[r].qmem.value})
  {
    LedgerGood(b);
  }

  lemma AdminShuts(h: Heap, h': Heap, c: Id, base: Handle)
    requires AdminOpened(h, h', c, base)
    ensures h'.boxes - {base.aqDma, base.aqMem} == h.boxes && h'.refs - {base.aq} == h.refs
  {
  }

  lemma InTurn(qp: QueuePair, boxes: map<Id, Box>)
    requires Proper(qp) && Boxes(qp) <= boxes.Keys
    ensures Elems(qp.sq) <= boxes.Keys && Elems(qp.cq) <= (boxes - Elems(qp.sq)).Keys
    ensures Elems(qp.prp) <= (boxes - Elems(qp.sq) - Elems(qp.cq)).Keys
    ensures boxes - Elems(qp.sq) - Elems(qp.cq) - Elems(qp.prp) == boxes - Boxes(qp)
  {
  }

  /** One delete command: carried out, or refused and counted. */
  predicate Deleted(q: Queue, qs: set<Queue>, qs': set<Queue>, refused: nat, refused': nat) {
    || (q in qs && qs' == qs - {q} && refused' == refused)
    || (qs' == qs && refused' == refused + 1)
  }

  /** Of the queues in set q, none is left exactly when the controller refused no deletion. */
  predicate Retired(q: set<Queue>, cqs: set<Queue>, cqs': set<Queue>, sqs: set<Queue>, sqs': set<Queue>,
                    refused: nat, refused': nat)
  {
    && cqs - q <= cqs' <= cqs && sqs - q <= sqs' <= sqs && refused <= refused'
    && (refused' == refused ==> cqs' !! q && sqs' !! q)
    && (refused' > refused ==> !(cqs' !! q))
  }

  lemma RetireQp(q: Queue, hasSq: bool, hasCq: bool, cqs: set<Queue>, cqs': set<Queue>, sqs: set<Queue>, sqs': set<Queue>,
                 refused: nat, refused1: nat, refused': nat)
    requires if hasSq then Deleted(q, sqs, sqs', refused, refused1) else sqs' == sqs && refused1 == refused
    requires if hasCq then Deleted(q, cqs, cqs', refused1, refused') else cqs' == cqs && refused' == refused1
    requires hasCq && q in sqs' ==> refused' > refused1
    requires hasSq ==> hasCq
    requires (hasCq ==> q in cqs) && (hasSq ==> q in sqs)
    ensures Retired(if hasCq then {q} else {}, cqs, cqs', sqs, sqs', refused, refused')
  {
    if refused' > refused {
      assert q in cqs' && q in {q};
    }
  }

  /** Containers xs and pages bs are gone, and queues qs as far as the controller obeyed. */
  predicate Shed(xs: set<Id>, bs: set<nat>, qs: set<Queue>, w: Holdings, w': Holdings, refused: nat, refused': nat) {
    && w'.boxes == w.boxes - xs && w'.bufs == w.bufs - bs
    && Retired(qs, w.cqs, w'.cqs, w.sqs, w'.sqs, refused, refused')
  }

  lemma ShedJoin(xs: set<Id>, ys: set<Id>, bs: set<nat>, ds: set<nat>, qs: set<Queue>, rs: set<Queue>,
                 w: Holdings, w1: Holdings, w': Holdings, refused: nat, refused1: nat, refused': nat)
    requires Shed(xs, bs, qs, w, w1, refused, refused1) && Shed(ys, ds, rs, w1, w', refused1, refused') && qs !! rs
    ensures Shed(xs + ys, bs + ds, qs + rs, w, w', refused, refused')
  {
    assert w.boxes - xs - ys == w.boxes - (xs + ys);
    RetiredJoin(qs, rs, w.cqs, w1.cqs, w'.cqs, w.sqs, w1.sqs, w'.sqs, refused, refused1, refused');
  }

  lemma Untouched(c: Id, qp: QueuePair, xs: set<Id>, bs: set<nat>, qs: set<Queue>, w: Holdings, w': Holdings,
                  refused: nat, refused': nat)
    requires Shed(xs, bs, qs, w, w', refused, refused') && xs !! Boxes(qp) && qs !! CqOf(c, qp) && Whole(qp)
    requires Boxes(qp) <= w.boxes.Keys && CqOf(c, qp) <= w.cqs && SqOf(c, qp) <= w.sqs
    ensures Boxes(qp) <= w'.boxes.Keys && CqOf(c, qp) <= w'.cqs && SqOf(c, qp) <= w'.sqs
  {
  }

  lemma RetiredJoin(q: set<Queue>, r: set<Queue>, cqs: set<Queue>, cqs1: set<Queue>, cqs': set<Queue>,
                    sqs: set<Queue>, sqs1: set<Queue>, sqs': set<Queue>, refused: nat, refused1: nat, refused': nat)
    requires Retired(q, cqs, cqs1, sqs, sqs1, refused, refused1) && Retired(r, cqs1, cqs', sqs1, sqs', refused1, refused')
    requires q !! r
    ensures Retired(q + r, cqs, cqs', sqs, sqs', refused, refused')
  {
    if refused1 > refused {
      var x :| x in cqs1 && x in q;
      assert x in cqs' && x in q + r;
    } else if refused' > refused1 {
      var x :| x in cqs' && x in r;
      assert x in q + r;
    }
  }

  function AllBoxes(qps: seq<QueuePair>): set<Id> {
    if qps == [] then {} else AllBoxes(qps[..|qps| - 1]) + Boxes(qps[|qps| - 1])
  }

  function AllBufs(qps: seq<QueuePair>): set<nat> {
    if qps == [] then {} else AllBufs(qps[..|qps| - 1]) + Bufs(qps[|qps| - 1])
  }

  function Queues(c: Id, qps: seq<QueuePair>): set<Queue> {
    if qps == [] then {} else Queues(c, qps[..|qps| - 1]) + {(c, qps[|qps| - 1].no)}
  }

  /** Finished queue pairs, numbered from one, that share nothing. */
  predicate Pairs(qps: seq<QueuePair>) {
    qps != [] ==>
      var rest, qp := qps[..|qps| - 1], qps[|qps| - 1];
      && Pairs(rest) && Whole(qp) && Proper(qp) && qp.no == |qps|
      && Boxes(qp) !! AllBoxes(rest) && Bufs(qp) !! AllBufs(rest)
  }

  lemma {:induction false} QueueNumbers(c: Id, qps: seq<QueuePair>)
    requires Pairs(qps)
    ensures forall x :: x in Queues(c, qps) ==> x.0 == c && 1 <= x.1 <= |qps|
  {
    if qps != [] {
      QueueNumbers(c, qps[..|qps| - 1]);
    }
  }

  lemma {:induction false} Prefix(c: Id, qps: seq<QueuePair>, n: nat)
    requires Pairs(qps) && n <= |qps|
    ensures Pairs(qps[..n]) && AllBoxes(qps[..n]) <= AllBoxes(qps) && AllBufs(qps[..n]) <= AllBufs(qps)
    ensures Queues(c, qps[..n]) <= Queues(c, qps)
  {
    if n < |qps| {
      var rest := qps[..|qps| - 1];
      Prefix(c, rest, n);
      assert rest[..n] == qps[..n];
    } else {
      assert qps[..n] == qps;
    }
  }

  /** What the next pair adds to the ones before it. */
  lemma TakeOne(c: Id, qps: seq<QueuePair>, i: nat)
    requires Pairs(qps) && i < |qps|
    ensures AllBoxes(qps[..i + 1]) == AllBoxes(qps[..i]) + Boxes(qps[i]) && AllBoxes(qps[..i]) !! Boxes(qps[i])
    ensures AllBufs(qps[..i + 1]) == AllBufs(qps[..i]) + Bufs(qps[i]) && AllBufs(qps[..i]) !! Bufs(qps[i])
    ensures Queues(c, qps[..i + 1]) == Queues(c, qps[..i]) + CqOf(c, qps[i]) && Queues(c, qps[..i]) !! CqOf(c, qps[i])
    ensures Boxes(qps[i]) <= AllBoxes(qps) && Bufs(qps[i]) <= AllBufs(qps) && CqOf(c, qps[i]) == SqOf(c, qps[i]) <= Queues(c, qps)
    ensures Whole(qps[i]) && Proper(qps[i])
  {
    Prefix(c, qps, i + 1);
    assert qps[..i + 1][..i] == qps[..i];
    QueueNumbers(c, qps[..i]);
  }

  /** The pairs after the first i are those after the first i + 1, and pair i. */
  lemma PeelOne(c: Id, qps: seq<QueuePair>, i: nat)
    requires Pairs(qps) && i < |qps|
    ensures var xs := AllBoxes(qps) - AllBoxes(qps[..i + 1]);
            xs !! Boxes(qps[i]) && xs + Boxes(qps[i]) == AllBoxes(qps) - AllBoxes(qps[..i])
    ensures AllBufs(qps) - AllBufs(qps[..i + 1]) + Bufs(qps[i]) == AllBufs(qps) - AllBufs(qps[..i])
    ensures var qs := Queues(c, qps) - Queues(c, qps[..i + 1]);
            qs !! CqOf(c, qps[i]) && qs + CqOf(c, qps[i]) == Queues(c, qps) - Queues(c, qps[..i])
  {
    TakeOne(c, qps, i);
    Prefix(c, qps, i + 1);
    Peel(AllBoxes(qps), AllBoxes(qps[..i]), Boxes(qps[i]));
    Peel(AllBufs(qps), AllBufs(qps[..i]), Bufs(qps[i]));
    Peel(Queues(c, qps), Queues(c, qps[..i]), CqOf(c, qps[i]));
  }

  lemma Peel<T>(all: set<T>, rest: set<T>, one: set<T>)
    requires rest !! one && rest + one <= all
    ensures all - (rest + one) !! one && all - (rest + one) + one == all - rest
  {
  }

  predicate Whole(qp: QueuePair) {
    qp.cq.Some? && qp.sq.Some? && qp.prp.Some? && qp.cqBuf.Some? && qp.sqBuf.Some? && qp.prpBuf.Some?
  }

  /** The containers of b plus those named in xs. */
  predicate Extra(b: map<Id, Box>, b': map<Id, Box>, xs: set<Id>) {
    xs !! b.Keys && xs <= b'.Keys && b' - xs == b
  }

  lemma ExtraJoin(a: map<Id, Box>, b: map<Id, Box>, c: map<Id, Box>, xs: set<Id>, ys: set<Id>)
    requires Extra(a, b, xs) && Extra(b, c, ys)
    ensures xs !! ys && Extra(a, c, xs + ys)
  {
    assert c - (xs + ys) == (c - ys) - xs;
  }

  lemma NewBoxExtra(b: Ledger, h: Heap, c: Id, k: Id)
    requires Mapped(b.h, h, c, k, true)
    ensures Extra(b.h.boxes, h.boxes, {k})
  {
    LedgerGood(b);
  }

  lemma UserLive(b: Ledger, c: Id)
    requires c in b.h.users
    ensures c in b.h.ctrls
  {
    LedgerGood(b);
  }
}
