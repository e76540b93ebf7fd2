/** From mapped pages to controller pages (`populate_handle`), and across the layers of translation. */
module DmaHandle {
  import opened Arithmetic
  import opened Transfer
  import opened SgFlatten

  /** Address of controller page i, given addresses of mapped pages of size pm. */
  function SplitAddr(io: seq<nat>, pm: nat, pc: nat, i: nat): nat
    requires 0 < pm
  {
    var x := i * pc;
    if x / pm < |io| then io[x / pm] + x % pm else 0
  }

  function CtrlPages(pm: nat, n: nat, pc: nat): nat
    requires 0 < pc
  {
    (pm * n) / pc
  }

  /** The controller pages of a table of mapped pages. */
  function Split(io: seq<nat>, pm: nat, pc: nat): (out: seq<nat>)
    requires 0 < pm && 0 < pc
    ensures |out| == CtrlPages(pm, |io|, pc)
  {
    seq(CtrlPages(pm, |io|, pc), (i: nat) => SplitAddr(io, pm, pc, i))
  }

  /** Consecutive addresses a page apart. */
  ghost predicate OneRun(a: seq<nat>, pc: nat) {
    forall i :: 0 <= i < |a| ==> a[i] == a[0] + i * pc
  }

  ghost predicate Adjacent(a: seq<nat>, pc: nat) {
    forall i :: 0 < i < |a| ==> a[i - 1] + pc == a[i]
  }

  lemma {:induction false} AdjacentIsOneRun(a: seq<nat>, pc: nat)
    ensures Adjacent(a, pc) <==> OneRun(a, pc)
  {
    if Adjacent(a, pc) {
      forall i | 0 <= i < |a|
        ensures a[i] == a[0] + i * pc
      {
        RunUpTo(a, pc, i);
      }
    }
    if OneRun(a, pc) {
      forall i | 0 < i < |a|
        ensures a[i - 1] + pc == a[i]
      {
        Distribute(i - 1, 1, pc);
      }
    }
  }

  lemma {:induction false} RunUpTo(a: seq<nat>, pc: nat, i: nat)
    requires Adjacent(a, pc) && i < |a|
    ensures a[i] == a[0] + i * pc
  {
    if i > 0 {
      RunUpTo(a, pc, i - 1);
      Distribute(i - 1, 1, pc);
    }
  }

  /** Every page the loop looks up exists. */
  lemma LookupInRange(pm: nat, n: nat, pc: nat, i: nat)
    requires 0 < pm && 0 < pc && i < CtrlPages(pm, n, pc)
    ensures (i * pc) / pm < n
  {
    DivBounds(pm * n, pc);
    MulStrict(CtrlPages(pm, n, pc), i, pc);
    DivBounds(i * pc, pm);
    MulStrict(n, (i * pc) / pm, pm);
    if (i * pc) / pm >= n {
      MulMono(n, (i * pc) / pm, pm);
    }
  }

  /** populate_handle: fills the container's address list and its contiguity flag. */
  method Populate(out: array<nat>, pm: nat, n: nat, pc: nat, io: seq<nat>) returns (count: nat, contiguous: bool)
    requires 0 < pm && 0 < pc && |io| == n && out.Length == CtrlPages(pm, n, pc)
    modifies out
    ensures count == out.Length
    ensures out[..] == Split(io, pm, pc)
    ensures contiguous <==> OneRun(out[..], pc)
  {
    count := (pm * n) / pc;
    contiguous := FillAddrs(out, pm, n, pc, io, Split(io, pm, pc));
    AdjacentIsOneRun(out[..], pc);
  }

  method FillAddrs(out: array<nat>, pm: nat, n: nat, pc: nat, io: seq<nat>, ghost want: seq<nat>)
    returns (contiguous: bool)
    requires 0 < pm && 0 < pc && |io| == n && want == Split(io, pm, pc) && |want| == out.Length
    modifies out
    ensures out[..] == want
    ensures contiguous <==> Adjacent(out[..], pc)
  {
    contiguous := true;
    var i := 0;
    while i < out.Length
      invariant 0 <= i <= out.Length
      invariant out[..i] == want[..i]
      invariant contiguous <==> Adjacent(out[..i], pc)
    {
      var a := CtrlPageAddr(pm, n, pc, io, i, want);
      ghost var before := out[..i];
      out[i] := a;
      assert out[..i + 1] == before + [a];
      AdjacentGrows(before, pc, a);
      if i > 0 && out[i - 1] + pc != a {
        contiguous := false;
      }
      assert i > 0 ==> before[i - 1] == out[i - 1];
      i := i + 1;
    }
    assert out[..i] == out[..];
  }

  /** The address of one controller page: its mapped page, and the offset within. */
  method CtrlPageAddr(pm: nat, n: nat, pc: nat, io: seq<nat>, i: nat, ghost want: seq<nat>) returns (a: nat)
    requires 0 < pm && 0 < pc && |io| == n && want == Split(io, pm, pc) && i < |want|
    ensures a == want[i]
  {
    LookupInRange(pm, n, pc, i);
    var current := (i * pc) / pm;
    var offset := (i * pc) % pm;
    a := io[current] + offset;
  }

  lemma AdjacentGrows(a: seq<nat>, pc: nat, x: nat)
    ensures Adjacent(a + [x], pc) <==> Adjacent(a, pc) && (|a| > 0 ==> a[|a| - 1] + pc == x)
  {
    var b := a + [x];
    if Adjacent(b, pc) {
      assert |a| > 0 ==> b[|a| - 1] + pc == b[|a|];
      forall i | 0 < i < |a|
        ensures a[i - 1] + pc == a[i]
      {
        assert b[i - 1] + pc == b[i];
      }
    }
  }

  // --------------------------------------------------------- same bytes, smaller pages

  /** Byte x = pm * q + pc * a + b, with pm a multiple of pc, is byte b of controller page x / pc. */
  lemma SplitAt(pm: nat, pc: nat, m: nat, x: nat, q: nat, a: nat, b: nat)
    requires pm == pc * m && x == pm * q + (pc * a + b) && b < pc && pc * a + b < pm
    ensures x % pc == b && ((x / pc) * pc) / pm == q && ((x / pc) * pc) % pm == pc * a
  {
    Regroup(pc, m, q, a);
    DivModUnique(x, pc, m * q + a, b);
    DivModUnique((m * q + a) * pc, pm, q, pc * a);
  }

  lemma Regroup(pc: nat, m: nat, q: nat, a: nat)
    ensures (m * q + a) * pc == pc * (m * q + a) == (pc * m) * q + pc * a
  {
    assert pc * (m * q + a) == pc * (m * q) + pc * a;
    assert pc * (m * q) == (pc * m) * q;
  }

  lemma SplitByte(pm: nat, pc: nat, x: nat)
    requires 0 < pm && 0 < pc && pm % pc == 0
    ensures var y := (x / pc) * pc; y / pm == x / pm && y % pm + x % pc == x % pm
  {
    var q, r, m := x / pm, x % pm, pm / pc;
    SplitAt(pm, pc, m, x, q, r / pc, r % pc);
  }

  /** When controller pages divide mapped pages, every byte keeps its bus address. */
  lemma SplitKeepsBytes(io: seq<nat>, pm: nat, pc: nat, x: nat)
    requires 0 < pm && 0 < pc && pm % pc == 0 && x < pm * |io|
    ensures Bus(Split(io, pm, pc), pc, x) == Bus(io, pm, x) && x / pm < |io| && x / pc < |Split(io, pm, pc)|
  {
    SplitByte(pm, pc, x);
    InTable(pm, |io|, x);
    DividesThrough(pm * |io|, pm, pc) by {
      ProductDivides(|io|, pm);
    }
    MultipleIs(pm * |io|, pc);
    InTable(pc, CtrlPages(pm, |io|, pc), x);
  }

  ghost predicate KeepsBytes(io: seq<nat>, pm: nat, pc: nat)
    requires 0 < pm && 0 < pc
  {
    forall x: nat :: x < pm * |io| ==> Bus(Split(io, pm, pc), pc, x) == Bus(io, pm, x)
  }

  /**
   Whatever the addresses of n mapped pages are, the controller pages keep every byte's address,
   exactly when the controller page size divides the mapped page size.  (The sizes divide in total,
   as create_container checks.)
   */
  lemma {:induction false} SplitExact(pm: nat, n: nat, pc: nat)
    requires 0 < pm && 0 < pc && 0 < n && (pm * n) % pc == 0
    ensures (forall io: seq<nat> :: |io| == n ==> KeepsBytes(io, pm, pc)) <==> pm % pc == 0
  {
    if pm % pc == 0 {
      forall io: seq<nat> | |io| == n
        ensures KeepsBytes(io, pm, pc)
      {
        forall x: nat | x < pm * |io|
          ensures Bus(Split(io, pm, pc), pc, x) == Bus(io, pm, x)
        {
          SplitKeepsBytes(io, pm, pc, x);
        }
      }
    } else {
      var io := seq(n, _ => 0);
      ZeroTableLosesByte(io, pm, pc);
    }
  }

  /** With all mapped pages at address 0, the first byte of the second page is misplaced. */
  lemma ZeroTableLosesByte(io: seq<nat>, pm: nat, pc: nat)
    requires 0 < pm && 0 < pc && pm % pc != 0 && (pm * |io|) % pc == 0 && |io| > 0
    requires forall i :: 0 <= i < |io| ==> io[i] == 0
    ensures !KeepsBytes(io, pm, pc)
  {
    var n, x := |io|, pm;
    assert n >= 2 by {
      assert n == 1 ==> pm * n == pm;
    }
    assert x < pm * n by {
      MulMono(2, n, pm);
    }
    MultipleIs(pm * n, pc);
    InTable(pc, CtrlPages(pm, n, pc), x);
    DivModUnique(pm, pm, 1, 0);
    assert Bus(io, pm, x) == 0;
    var i := x / pc;
    DivBounds(x, pc);
    assert i * pc < pm by {
      MultipleIs(pm, pc);
    }
    DivModUnique(i * pc, pm, 0, i * pc);
    assert Split(io, pm, pc)[i] == i * pc;
    assert Bus(Split(io, pm, pc), pc, x) == i * pc + x % pc;
    assert x == pc * i + x % pc;
  }

  /** nvm_dma_remap: populating from a handle's own list, with its own page size, changes nothing. */
  lemma RemapSame(out: seq<nat>, pc: nat)
    requires 0 < pc
    ensures Split(out, pc, pc) == out
  {
    ProductDivides(|out|, pc);
    assert pc * |out| == |out| * pc;
    forall i | 0 <= i < |out|
      ensures SplitAddr(out, pc, pc, i) == out[i]
    {
      ProductDivides(i, pc);
    }
  }

  // -------------------------------------------------------------- across the layers

  /** A mapping made of whole mapped pages has the controller pages a transfer needs. */
  lemma MappedEnough(size: nat, pm: nat, pc: nat)
    requires 0 < pm && 0 < pc && pm % pc == 0
    ensures PagesFor(pc, size) <= CtrlPages(pm, PagesFor(pm, size), pc)
  {
    var k := PagesFor(pm, size);
    WholePages(pm, size);
    ProductDivides(k, pm);
    DividesThrough(k * pm, pm, pc);
    assert k * pm == pm * k;
    MultipleIs(k * pm, pc);
    WholePages(pc, size);
    MulStrict(PagesFor(pc, size), CtrlPages(pm, k, pc), pc);
  }

  /**
   From scatter-gather segments to the address the controller uses: if the flattened pages locate
   every byte, byte x of the handle is byte off + x of the segment stream.
   */
  lemma LayersAgree(segs: seq<Seg>, io: seq<nat>, pm: nat, pc: nat, off: nat, x: nat)
    requires 0 < pm && 0 < pc && pm % pc == 0 && x < pm * |io|
    requires forall p, b :: 0 <= p < |io| && 0 <= b < pm ==> ByteAt(segs, off, pm, p, b) == Some(io[p] + b)
    ensures Some(Bus(Split(io, pm, pc), pc, x)) == Locate(segs, off + x)
  {
    SplitKeepsBytes(io, pm, pc, x);
    StreamByte(segs, off, pm, x);
    FlatByte(segs, io, pm, off, x);
  }

  lemma StreamByte(segs: seq<Seg>, off: nat, pm: nat, x: nat)
    requires 0 < pm
    ensures ByteAt(segs, off, pm, x / pm, x % pm) == Locate(segs, off + x)
  {
    assert x == pm * (x / pm) + x % pm;
  }

  lemma FlatByte(segs: seq<Seg>, io: seq<nat>, pm: nat, off: nat, x: nat)
    requires 0 < pm && x / pm < |io|
    requires forall p, b :: 0 <= p < |io| && 0 <= b < pm ==> ByteAt(segs, off, pm, p, b) == Some(io[p] + b)
    ensures ByteAt(segs, off, pm, x / pm, x % pm) == Some(Bus(io, pm, x))
  {
  }
}
