/** Where queues and doorbells lie: the checks of the create commands, slot addresses, registers. */
module QueueLayout {
  import opened Arithmetic
  import opened Transfer
  import opened DmaHandle

  /** NVM_SQ_PAGES and NVM_CQ_PAGES: pages of a queue of qs entries of es bytes. */
  function QueuePages(qs: nat, es: nat, ps: nat): nat
    requires 0 < ps
  {
    (((qs - 1) % 0x1_0000) * es) / ps + 1
  }

  datatype Area = Area(qs: nat, pages: nat)

  /** The size a create call uses: as asked, or as many entries as fit a page. */
  function EffectiveSize(qs: nat, es: nat, dmaPageSize: nat, maxQs: nat): nat
    requires 0 < es
  {
    if qs == 0 then Min(dmaPageSize / es, maxQs) else qs
  }

  /**
   The checks of nvm_admin_cq_create and nvm_admin_sq_create before any command is sent: a queue
   number, a size in range, and enough mapped pages from the given page on.
   */
  method CheckCreate(id: nat, qs: nat, es: nat, ps: nat, maxQs: nat, dmaPageSize: nat, haveVaddr: bool,
                     offset: nat, nIoaddrs: nat) returns (area: Option<Area>)
    requires 0 < ps && 0 < es
    ensures area.Some? <==>
              var size := EffectiveSize(qs, es, dmaPageSize, maxQs);
              && id != 0 && 2 <= size <= 0x1_0000 && size <= maxQs && haveVaddr
              && offset + QueuePages(size, es, ps) <= nIoaddrs
    ensures area.Some? ==>
              && area.value.qs == EffectiveSize(qs, es, dmaPageSize, maxQs)
              && area.value.pages == QueuePages(area.value.qs, es, ps) >= 1
  {
    if id == 0 {
      return None;
    }
    var size := qs;
    if size == 0 {
      size := Min(dmaPageSize / es, maxQs);
    }
    if size < 2 || size > 0x1_0000 || size > maxQs {
      return None;
    }
    var pages := QueuePages(size, es, ps);
    if !haveVaddr {
      return None;
    } else if pages == 0 || pages > nIoaddrs || offset > nIoaddrs || offset + pages > nIoaddrs {
      return None;
    }
    return Some(Area(size, pages));
  }

  // ------------------------------------------------------------------------- slots

  /** All entries of an accepted queue lie inside the pages that were checked. */
  ghost predicate SlotsFit(es: nat, ps: nat)
    requires 0 < ps
  {
    forall qs: nat :: 2 <= qs <= 0x1_0000 ==> qs * es <= QueuePages(qs, es, ps) * ps
  }

  lemma PagesNoCut(qs: nat, es: nat, ps: nat)
    requires 0 < ps && 1 <= qs <= 0x1_0000
    ensures QueuePages(qs, es, ps) == ((qs - 1) * es) / ps + 1
  {
    assert (qs - 1) % 0x1_0000 == qs - 1;
  }

  lemma QueueFits(qs: nat, es: nat, ps: nat)
    requires 0 < ps && 0 < es && ps % es == 0 && 1 <= qs <= 0x1_0000
    ensures qs * es <= QueuePages(qs, es, ps) * ps
  {
    PagesNoCut(qs, es, ps);
    var last := (qs - 1) * es;
    var q := last / ps;
    Distribute(qs - 1, 1, es);
    Distribute(q, 1, ps);
    DivBounds(last, ps);
    var end := q * ps + ps;
    assert last < end;
    ProductDivides(q + 1, ps);
    DividesThrough(end, ps, es);
    ProductDivides(qs - 1, es);
    NextMultiple(last, end, es);
  }

  /** Between multiples of es there is nothing less than es apart. */
  lemma NextMultiple(a: nat, b: nat, es: nat)
    requires 0 < es && a < b && a % es == 0 && b % es == 0
    ensures a + es <= b
  {
    MultipleIs(a, es);
    MultipleIs(b, es);
    MulStrict(b / es, a / es, es);
    if b / es <= a / es {
      MulMono(b / es, a / es, es);
    }
  }

  /** Slots fit for every accepted size exactly when the entry size divides the page size. */
  lemma {:induction false} SlotsFitExactly(es: nat, ps: nat)
    requires 0 < es && 0 < ps <= 0xffff * es
    ensures SlotsFit(es, ps) <==> ps % es == 0
  {
    if ps % es == 0 {
      forall qs: nat | 2 <= qs <= 0x1_0000
        ensures qs * es <= QueuePages(qs, es, ps) * ps
      {
        QueueFits(qs, es, ps);
      }
    } else {
      var qs := if ps < es then 2 else ps / es + 1;
      SomeSlotSticksOut(es, ps, qs);
      assert 2 <= qs <= 0x1_0000;
    }
  }

  lemma QuotientPositive(x: nat, b: nat)
    requires 0 < b <= x
    ensures 1 <= x / b
  {
    DivBounds(x, b);
  }

  lemma SomeSlotSticksOut(es: nat, ps: nat, qs: nat)
    requires 0 < es && 0 < ps <= 0xffff * es && ps % es != 0
    requires qs == if ps < es then 2 else ps / es + 1
    ensures 2 <= qs <= 0x1_0000 && qs * es > QueuePages(qs, es, ps) * ps
  {
    DivBounds(ps, es);
    MultipleIs(ps, es);
    if ps < es {
      PagesNoCut(2, es, ps);
      DivBounds(es, ps);
      Distribute(es / ps, 1, ps);
    } else {
      var k := ps / es;
      QuotientPositive(ps, es);
      MulStrict(k, 0xffff, es);
      PagesNoCut(qs, es, ps);
      DivModUnique(k * es, ps, 0, k * es);
      Distribute(k, 1, es);
    }
  }

  /** The controller's slot j, for physically contiguous queue memory. */
  function DeviceSlot(base: nat, es: nat, j: nat): nat {
    base + j * es
  }

  /** Host and controller agree on slot j of a queue that starts at the first of these pages. */
  predicate SlotAgrees(pages: seq<nat>, es: nat, ps: nat, j: nat)
    requires 0 < ps && |pages| > 0
  {
    DeviceSlot(pages[0], es, j) == Bus(pages, ps, j * es)
  }

  /**
   Host and controller see the same slots exactly when the queue's pages form one run of bus
   addresses; the create functions do not check that, so it rests on single-page queues.
   */
  lemma {:induction false} SlotsAgreeExactly(pages: seq<nat>, qs: nat, es: nat, ps: nat)
    requires 0 < ps && 0 < es && ps % es == 0 && 1 <= qs <= 0x1_0000
    requires |pages| == QueuePages(qs, es, ps)
    ensures (forall j: nat :: j < qs ==> SlotAgrees(pages, es, ps, j)) <==> OneRun(pages, ps)
  {
    if OneRun(pages, ps) {
      forall j: nat | j < qs
        ensures SlotAgrees(pages, es, ps, j)
      {
        SlotInRun(pages, qs, es, ps, j);
      }
    }
    if forall j: nat :: j < qs ==> SlotAgrees(pages, es, ps, j) {
      forall p | 0 <= p < |pages|
        ensures pages[p] == pages[0] + p * ps
      {
        var j := FirstSlotOf(qs, es, ps, p);
        assert SlotAgrees(pages, es, ps, j);
        ProductDivides(p, ps);
      }
    }
  }

  lemma SlotInRun(pages: seq<nat>, qs: nat, es: nat, ps: nat, j: nat)
    requires 0 < ps && 0 < es && 1 <= qs <= 0x1_0000 && |pages| == QueuePages(qs, es, ps) && j < qs
    requires OneRun(pages, ps)
    ensures SlotAgrees(pages, es, ps, j)
  {
    PagesNoCut(qs, es, ps);
    MulMono(j, qs - 1, es);
    PageOfSlot(j * es, (qs - 1) * es, ps);
    ByteInRun(pages, ps, j * es);
  }

  lemma PageOfSlot(x: nat, last: nat, ps: nat)
    requires 0 < ps && x <= last
    ensures x / ps <= last / ps
  {
    DivBounds(last, ps);
    DivBounds(x, ps);
    MulStrict(x / ps, last / ps, ps);
  }

  lemma ByteInRun(pages: seq<nat>, ps: nat, x: nat)
    requires 0 < ps && x / ps < |pages| && OneRun(pages, ps)
    ensures Bus(pages, ps, x) == pages[0] + x
  {
    assert pages[x / ps] == pages[0] + (x / ps) * ps;
    assert x == ps * (x / ps) + x % ps;
  }

  /** The slot that starts page p of a queue. */
  lemma FirstSlotOf(qs: nat, es: nat, ps: nat, p: nat) returns (j: nat)
    requires 0 < ps && 0 < es && ps % es == 0 && 1 <= qs <= 0x1_0000 && p < QueuePages(qs, es, ps)
    ensures j < qs && j * es == p * ps
  {
    PagesNoCut(qs, es, ps);
    ProductDivides(p, ps);
    DividesThrough(p * ps, ps, es);
    MultipleIs(p * ps, es);
    j := (p * ps) / es;
    var last := (qs - 1) * es;
    DivBounds(last, ps);
    MulMono(p, last / ps, ps);
    MulStrict(j, qs - 1, es);
  }

  // ---------------------------------------------------------------- create commands

  /** Words 10 and 11 of a create command: size and number, completion queue (none in its own command) and contiguity. */
  function CreateWord10(qs: nat, no: nat): nat
    requires 1 <= qs
  {
    (qs - 1) * 0x1_0000 + no
  }

  function CreateWord11(cqNo: nat, contiguous: bool): nat {
    cqNo * 0x1_0000 + if contiguous then 1 else 0
  }

  /** The controller reads back size and numbers, and no bit but the contiguity bit is set in the lower half of word 11. */
  lemma CreateRoundTrip(qs: nat, no: nat, cqNo: nat, contiguous: bool)
    requires 1 <= qs <= 0x1_0000 && no < 0x1_0000 && cqNo < 0x1_0000
    ensures CreateWord10(qs, no) < 0x1_0000_0000 && CreateWord11(cqNo, contiguous) < 0x1_0000_0000
    ensures CreateWord10(qs, no) / 0x1_0000 + 1 == qs && CreateWord10(qs, no) % 0x1_0000 == no
    ensures CreateWord11(cqNo, contiguous) / 0x1_0000 == cqNo
    ensures CreateWord11(cqNo, contiguous) % 0x1_0000 == if contiguous then 1 else 0
  {
    DivModUnique(CreateWord10(qs, no), 0x1_0000, qs - 1, no);
    DivModUnique(CreateWord11(cqNo, contiguous), 0x1_0000, cqNo, if contiguous then 1 else 0);
  }

  // --------------------------------------------------------------------- doorbells

  function Pow2(d: nat): (p: nat)
    ensures p >= 1
  {
    if d == 0 then 1 else 2 * Pow2(d - 1)
  }

  lemma {:induction false} Pow2Mono(a: nat, b: nat)
    requires a <= b
    ensures Pow2(a) <= Pow2(b)
  {
    if a < b {
      Pow2Mono(a, b - 1);
    }
  }

  /** SQ_DBL and CQ_DBL: a pair of registers per queue, one stride apart. */
  function Doorbell(queue: nat, completion: bool, dstrd: nat): nat {
    0x1000 + (2 * queue + if completion then 1 else 0) * (4 * Pow2(dstrd))
  }

  /**
   Section 3.1.16 of NVM Express 1.3: the admin submission doorbell comes first, then the doorbells alternate, one
   stride apart, submission before completion; the stride is four bytes at code 0 and doubles with each code.
   */
  lemma DoorbellLayout(q: nat, dstrd: nat)
    ensures Doorbell(0, false, dstrd) == 0x1000
    ensures Doorbell(q, true, dstrd) - Doorbell(q, false, dstrd) == Stride(dstrd)
    ensures Doorbell(q + 1, false, dstrd) - Doorbell(q, true, dstrd) == Stride(dstrd)
    ensures Stride(0) == 4 && Stride(dstrd + 1) == 2 * Stride(dstrd)
  {
    var w := 4 * Pow2(dstrd);
    Distribute(2 * q, 1, w);
    Distribute(2 * q + 1, 1, w);
    Distribute(1, 0, 8 * Pow2(dstrd));
  }

  /** The distance of the two doorbells of the admin queue. */
  function Stride(dstrd: nat): int {
    Doorbell(0, true, dstrd) - Doorbell(0, false, dstrd)
  }

  /** Doorbells of different queues or kinds never overlap. */
  lemma DoorbellsApart(q: nat, c: bool, q': nat, c': bool, dstrd: nat)
    requires q != q' || c != c'
    ensures Doorbell(q, c, dstrd) + 4 <= Doorbell(q', c', dstrd) || Doorbell(q', c', dstrd) + 4 <= Doorbell(q, c, dstrd)
  {
    var i, j := 2 * q + (if c then 1 else 0), 2 * q' + (if c' then 1 else 0);
    var w := 4 * Pow2(dstrd);
    assert i != j;
    MulStrict(i, j, w);
    MulStrict(j, i, w);
  }

  ghost predicate DoorbellsFit(dstrd: nat) {
    forall q: nat, c: bool :: q <= 16 ==> Doorbell(q, c, dstrd) + 4 <= 0x2000
  }

  /** The doorbells of the admin queue and sixteen IO queues lie in the mapped window iff the stride code is at most 4. */
  lemma {:induction false} DoorbellsFitExactly(dstrd: nat)
    ensures DoorbellsFit(dstrd) <==> dstrd <= 4
  {
    assert Pow2(4) == 16 && Pow2(5) == 32 by {
      assert Pow2(2) == 4;
      assert Pow2(3) == 8;
    }
    if dstrd <= 4 {
      Pow2Mono(dstrd, 4);
      var w := 4 * Pow2(dstrd);
      forall q: nat, c: bool | q <= 16
        ensures Doorbell(q, c, dstrd) + 4 <= 0x2000
      {
        var i := 2 * q + if c then 1 else 0;
        MulMono(i, 33, w);
      }
    } else {
      Pow2Mono(5, dstrd);
      assert Doorbell(16, true, dstrd) + 4 > 0x2000;
    }
  }
}
