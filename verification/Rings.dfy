/**
 The submission and completion ring descriptors (`nvm_queue_t`): wrapping head and tail
 indices, the phase tag, the doorbell, and the inline functions that move them.
 */
module Rings {
  import opened Arithmetic

  /** A submission entry: sixteen 32-bit words. */
  type Cmd = seq<nat>

  /** The two words of a completion entry that the host reads. */
  datatype Cpl = Cpl(dw0: nat, dw3: nat) {
    function Cid(): nat { dw3 % 0x1_0000 }
    predicate Tag() { (dw3 / 0x1_0000) % 2 == 1 }
    function Status(): nat { (dw3 / 0x2_0000) % 0x800 }
  }

  /** Word 3 of a completion entry, as the controller lays it out. */
  function CplWord(cid: nat, tag: bool, status: nat): nat {
    cid + (if tag then 0x1_0000 else 0) + 0x2_0000 * status
  }

  /** The host reads back the identifier, the tag and the status the controller wrote. */
  lemma CplWordFields(dw0: nat, cid: nat, tag: bool, status: nat)
    requires cid < 0x1_0000 && status < 0x800
    ensures var c := Cpl(dw0, CplWord(cid, tag, status));
            c.Cid() == cid && c.Tag() == tag && c.Status() == status
  {
    var w := CplWord(cid, tag, status);
    var hi := (if tag then 1 else 0) + 2 * status;
    DivModUnique(w, 0x1_0000, hi, cid);
    DivModUnique(w, 0x2_0000, status, cid + (if tag then 0x1_0000 else 0));
  }

  /** Descriptor contents; `bell` is the doorbell register, None once the queue is deleted. */
  datatype Ring = Ring(qs: nat, head: nat, tail: nat, last: nat, phase: bool, bell: Option<nat>)

  predicate Wf(r: Ring) {
    && 2 <= r.qs <= 0x1_0000
    && r.head < r.qs && r.tail < r.qs && r.last < r.qs
  }

  function Advance(i: nat, qs: nat): nat {
    if i + 1 == qs then 0 else i + 1
  }

  /** The test of nvm_sq_enqueue: the index distance is cut to 16 bits before the remainder. */
  predicate Full(r: Ring)
    requires 0 < r.qs
  {
    ((r.tail - r.head) % 0x1_0000) % r.qs == r.qs - 1
  }

  /** How many entries really lie between head and tail. */
  function Occupancy(r: Ring): (n: nat)
    requires 0 < r.qs
  {
    (r.tail - r.head) % r.qs
  }

  function Cleared(qs: nat, bell: nat): Ring {
    Ring(qs, 0, 0, 0, true, Some(bell))
  }

  function Enqueued(r: Ring): Ring {
    r.(tail := Advance(r.tail, r.qs), phase := if r.tail + 1 == r.qs then !r.phase else r.phase)
  }

  function Submitted(r: Ring): Ring {
    if r.last != r.tail && r.bell.Some? then r.(bell := Some(r.tail), last := r.tail) else r
  }

  function SqUpdated(r: Ring): Ring {
    if r.bell.Some? then r.(head := Advance(r.head, r.qs)) else r
  }

  function CqUpdated(r: Ring): Ring {
    if r.last != r.head && r.bell.Some?
    then r.(bell := Some(r.head), last := r.head, tail := r.head)
    else r
  }

  /** The entry under the head, if its phase tag says it is new. */
  function Polled(r: Ring, mem: seq<Cpl>): Option<Cpl>
    requires r.head < |mem|
  {
    if mem[r.head].Tag() == r.phase then Some(mem[r.head]) else None
  }

  function Dequeued(r: Ring, mem: seq<Cpl>): Ring
    requires r.head < |mem|
  {
    if Polled(r, mem).None? then r
    else r.(head := Advance(r.head, r.qs), phase := if r.head + 1 == r.qs then !r.phase else r.phase)
  }

  /** The identifier macro NVM_DEFAULT_CID, read after the enqueue. */
  function DefaultCid(r: Ring): nat {
    (r.tail + if r.phase then 0 else r.qs) % 0x1_0000
  }

  // ------------------------------------------------------------ the full test

  lemma TruncatedDistance(r: Ring)
    requires Wf(r) && 0x1_0000 % r.qs == 0
    ensures ((r.tail - r.head) % 0x1_0000) % r.qs == Occupancy(r)
  {
    var d := r.tail - r.head;
    if d < 0 {
      var k := 0x1_0000 / r.qs;
      assert 0x1_0000 == r.qs * k;
      DivModUnique(d, 0x1_0000, -1, 0x1_0000 + d);
      assert 0x1_0000 + d == r.qs * (k - 1) + (r.qs + d) by {
        assert r.qs * (k - 1) == r.qs * k - r.qs;
      }
      DivModUnique(0x1_0000 + d, r.qs, k - 1, r.qs + d);
      DivModUnique(d, r.qs, -1, r.qs + d);
    }
  }

  /**
   The full test tells a full ring from a non-full one for every head and tail exactly when
   the queue size divides 65536.  (Six entries with head 3 and tail 2 is a ring it misjudges.)
   */
  lemma {:induction false} FullTestExact(qs: nat)
    requires 2 <= qs <= 0x1_0000
    ensures (forall r: Ring :: Wf(r) && r.qs == qs ==> (Full(r) <==> Occupancy(r) == qs - 1))
       <==> 0x1_0000 % qs == 0
  {
    var r := Ring(qs, 1, 0, 0, true, None);
    assert Wf(r);
    DivModUnique(-1, 0x1_0000, -1, 0xffff);
    DivModUnique(-1, qs, -1, qs - 1);
    assert Occupancy(r) == qs - 1;
    NextRemainder(0xffff, qs);
    assert Full(r) <==> 0x1_0000 % qs == 0;
    if 0x1_0000 % qs == 0 {
      forall r: Ring | Wf(r) && r.qs == qs
        ensures Full(r) <==> Occupancy(r) == qs - 1
      {
        TruncatedDistance(r);
      }
    }
  }

  lemma NextRemainder(n: nat, q: nat)
    requires 0 < q
    ensures n % q == q - 1 <==> (n + 1) % q == 0
  {
    var d, r := n / q, n % q;
    assert n == q * d + r;
    if r == q - 1 {
      assert q * (d + 1) == q * d + q;
      DivModUnique(n + 1, q, d + 1, 0);
    } else {
      DivModUnique(n + 1, q, d, r + 1);
    }
  }

  /** The misjudged six-entry ring: five entries wait, yet the test does not refuse a sixth. */
  lemma SixEntryRingMisjudged()
    ensures var r := Ring(6, 3, 2, 0, true, None);
            Wf(r) && Occupancy(r) == 5 && !Full(r)
  {
    var r := Ring(6, 3, 2, 0, true, None);
    assert (r.tail - r.head) % 0x1_0000 == 0xffff;
    assert Occupancy(r) == 5;
  }

  // ------------------------------------------------- default command identifiers

  function CidOf(n: nat, qs: nat): nat
    requires 0 < qs
  {
    (n % (2 * qs)) % 0x1_0000
  }

  /** The same number written without division, for use under quantifiers. */
  function Label(n: nat, qs: nat): (cid: nat)
    requires 0 < qs
    ensures cid < 0x1_0000
  {
    Slot(Slot(n, 2 * qs), 0x1_0000)
  }

  lemma LabelIsCid(n: nat, qs: nat)
    requires 0 < qs
    ensures Label(n, qs) == CidOf(n, qs)
  {
    SlotIsRemainder(n, 2 * qs);
    SlotIsRemainder(Slot(n, 2 * qs), 0x1_0000);
  }

  /** After the n-th enqueue the default identifier is n mod 2*qs, cut to 16 bits. */
  lemma DefaultCidCounts(r: Ring, n: nat)
    requires 0 < r.qs && r.tail == Slot(n, r.qs) && r.phase == EvenLap(n, r.qs)
    ensures DefaultCid(r) == CidOf(n, r.qs)
  {
    TwoLaps(n, r.qs);
    SlotIsRemainder(n, 2 * r.qs);
  }

  lemma {:induction false} TwoLaps(n: nat, q: nat)
    requires 0 < q
    ensures Slot(n, 2 * q) == Slot(n, q) + if EvenLap(n, q) then 0 else q
  {
    if n >= 2 * q {
      TwoLaps(n - 2 * q, q);
      assert Slot(n, q) == Slot(n - q, q) == Slot(n - q - q, q);
    }
  }

  /**
   Identifiers of commands that can be outstanding together (at most qs - 1 of them) are pairwise
   distinct exactly when qs is at most 32768, or one of 65535 and 65536.
   */
  lemma {:induction false} CidWindow(qs: nat)
    requires 2 <= qs <= 0x1_0000
    ensures (forall n: nat, m: nat :: 0 < m - n <= qs - 2 ==> CidOf(n, qs) != CidOf(m, qs))
       <==> (qs <= 0x8000 || qs >= 0xffff)
  {
    if qs <= 0x8000 || qs >= 0xffff {
      forall n: nat, m: nat | 0 < m - n <= qs - 2
        ensures CidOf(n, qs) != CidOf(m, qs)
      {
        CidsDiffer(n, m, qs);
      }
    } else {
      CidsMeet(qs);
      assert 0 < 2 * qs - 0x1_0000 <= qs - 2;
    }
  }

  lemma CidsMeet(qs: nat)
    requires 0x8000 < qs < 0xffff
    ensures CidOf(0x1_0000, qs) == CidOf(2 * qs, qs)
  {
    DivModUnique(0x1_0000, 2 * qs, 0, 0x1_0000);
    DivModUnique(2 * qs, 2 * qs, 1, 0);
  }

  lemma CidsDiffer(n: nat, m: nat, qs: nat)
    requires 2 <= qs <= 0x8000 || 0xffff <= qs <= 0x1_0000
    requires 0 < m - n <= qs - 2
    ensures CidOf(n, qs) != CidOf(m, qs)
  {
    if qs <= 0x8000 {
      SmallRing(n, m, qs);
    } else if qs == 0x1_0000 {
      LargestRing(n, m);
    } else {
      NextToLargestRing(n, m);
    }
  }

  lemma SmallRing(n: nat, m: nat, qs: nat)
    requires 0 < qs <= 0x8000 && 0 < m - n < qs
    ensures CidOf(n, qs) != CidOf(m, qs)
  {
    SlotsDiffer(n, m, 2 * qs);
    SlotIsRemainder(n, 2 * qs);
    SlotIsRemainder(m, 2 * qs);
    CutNothing(Slot(n, 2 * qs));
    CutNothing(Slot(m, 2 * qs));
  }

  lemma CutNothing(x: nat)
    requires x < 0x1_0000
    ensures x % 0x1_0000 == x
  {
  }

  lemma LargestRing(n: nat, m: nat)
    requires 0 < m - n < 0x1_0000
    ensures CidOf(n, 0x1_0000) != CidOf(m, 0x1_0000)
  {
    CutTwice(n);
    CutTwice(m);
    SlotsDiffer(n, m, 0x1_0000);
    SlotIsRemainder(n, 0x1_0000);
    SlotIsRemainder(m, 0x1_0000);
  }

  lemma CutTwice(n: nat)
    ensures CidOf(n, 0x1_0000) == n % 0x1_0000
  {
    var k, r := n / 0x2_0000, n % 0x2_0000;
    assert n == 0x2_0000 * k + r;
    DivModUnique(n, 0x1_0000, 2 * k + r / 0x1_0000, r % 0x1_0000);
  }

  lemma NextToLargestRing(n: nat, m: nat)
    requires 0 < m - n <= 0xfffd
    ensures CidOf(n, 0xffff) != CidOf(m, 0xffff)
  {
    var k, x, d := n / 0x1_fffe, n % 0x1_fffe, m - n;
    assert n == 0x1_fffe * k + x;
    var y := if x + d < 0x1_fffe then x + d else x + d - 0x1_fffe;
    assert m % 0x1_fffe == y by {
      DivModUnique(m, 0x1_fffe, if x + d < 0x1_fffe then k else k + 1, y);
    }
    assert x != y && x - y != 0x1_0000 && y - x != 0x1_0000;
    assert x % 0x1_0000 == x || x % 0x1_0000 == x - 0x1_0000;
    assert y % 0x1_0000 == y || y % 0x1_0000 == y - 0x1_0000;
  }

  // --------------------------------------------------------- the mutable descriptor

  class Doorbell {
    var value: nat

    constructor ()
      ensures value == 0
    {
      value := 0;
    }
  }

  class Queue<E> {
    var qs: nat
    var head: nat
    var tail: nat
    var last: nat
    var phase: bool
    var db: Doorbell?
    var vaddr: array<E>

    ghost function View(): Ring
      reads this, db
    {
      Ring(qs, head, tail, last, phase, if db == null then None else Some(db.value))
    }

    ghost predicate Valid()
      reads this, db
    {
      Wf(View()) && vaddr.Length == qs
    }

    constructor (memory: array<E>)
      ensures db == null && vaddr == memory
    {
      qs, head, tail, last, phase, db, vaddr := 0, 0, 0, 0, false, null, memory;
    }

    /** nvm_queue_clear: refuses a size out of range, else puts the descriptor in its initial state. */
    method Clear(maxQs: nat, size: nat, bell: Doorbell, memory: array<E>) returns (ok: bool)
      modifies this
      ensures ok <==> 2 <= size <= 0x1_0000 && size <= maxQs
      ensures ok ==> View() == Cleared(size, bell.value) && db == bell && vaddr == memory
      ensures !ok ==> View() == old(View()) && db == old(db) && vaddr == old(vaddr)
    {
      if size < 2 || size > 0x1_0000 || size > maxQs {
        return false;
      }
      qs := size;
      head, tail, last, phase := 0, 0, 0, true;
      db := bell;
      vaddr := memory;
      return true;
    }

    /** nvm_sq_enqueue: the slot to build the command in, or None when the queue is full. */
    method Enqueue() returns (slot: Option<nat>)
      requires Valid()
      modifies this
      ensures Valid() && vaddr == old(vaddr) && db == old(db)
      ensures slot == if Full(old(View())) then None else Some(old(tail))
      ensures View() == if slot.None? then old(View()) else Enqueued(old(View()))
    {
      if ((tail - head) % 0x1_0000) % qs == qs - 1 {
        return None;
      }
      slot := Some(tail);
      tail := tail + 1;
      if tail == qs {
        phase := !phase;
        tail := 0;
      }
    }

    /** nvm_sq_submit: ring the doorbell if anything was enqueued since the last ring. */
    method Submit()
      requires Valid()
      modifies this, db
      ensures Valid() && vaddr == old(vaddr) && db == old(db)
      ensures View() == Submitted(old(View()))
    {
      if last != tail && db != null {
        db.value := tail;
        last := tail;
      }
    }

    /** nvm_sq_update: count one completed command. */
    method SqUpdate()
      requires Valid()
      modifies this
      ensures Valid() && vaddr == old(vaddr) && db == old(db)
      ensures View() == SqUpdated(old(View()))
    {
      if db != null {
        head := head + 1;
        if head == qs {
          head := 0;
        }
      }
    }

    /** nvm_cq_update: tell the controller which completions have been consumed. */
    method CqUpdate()
      requires Valid()
      modifies this, db
      ensures Valid() && vaddr == old(vaddr) && db == old(db)
      ensures View() == CqUpdated(old(View()))
    {
      if last != head && db != null {
        db.value := head;
        tail, last := head, head;
      }
    }
  }

  /** nvm_cq_poll */
  method CqPoll(cq: Queue<Cpl>) returns (cpl: Option<Cpl>)
    requires cq.Valid()
    ensures cpl == Polled(cq.View(), cq.vaddr[..])
  {
    var entry := cq.vaddr[cq.head];
    if entry.Tag() != cq.phase {
      return None;
    }
    return Some(entry);
  }

  /** nvm_cq_dequeue */
  method CqDequeue(cq: Queue<Cpl>) returns (cpl: Option<Cpl>)
    requires cq.Valid()
    modifies cq
    ensures cq.Valid() && cq.vaddr == old(cq.vaddr) && cq.db == old(cq.db)
    ensures cpl == Polled(old(cq.View()), old(cq.vaddr[..]))
    ensures cq.View() == Dequeued(old(cq.View()), old(cq.vaddr[..]))
  {
    cpl := CqPoll(cq);
    if cpl.Some? {
      cq.head := cq.head + 1;
      if cq.head == cq.qs {
        cq.head := 0;
        cq.phase := !cq.phase;
      }
    }
  }
}
