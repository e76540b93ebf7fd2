/** Flattening a scatter-gather table into page addresses (`sg_flatten_to_addrs`). */
module SgFlatten {
  import opened Arithmetic

  /** One DMA segment. */
  datatype Seg = Seg(addr: nat, len: nat)

  // ------------------------------------------------------------------ the byte stream

  /** The DMA address of byte k of the stream that the segments form. */
  function Locate(segs: seq<Seg>, k: nat): Option<nat> {
    if segs == [] then None
    else if k < segs[0].len then Some(segs[0].addr + k)
    else Locate(segs[1..], k - segs[0].len)
  }

  /** The page of stream bytes from pos on lies wholly inside one segment. */
  predicate PageWhole(segs: seq<Seg>, pos: nat, ps: nat) {
    if segs == [] then false
    else if pos < segs[0].len then pos + ps <= segs[0].len
    else PageWhole(segs[1..], pos - segs[0].len, ps)
  }

  // ------------------------------------------------------------- pages, one at a time

  /** The addresses of `want` consecutive pages from pos on, if each lies inside one segment. */
  function Take(segs: seq<Seg>, pos: nat, want: nat, ps: nat): Option<seq<nat>>
    requires 0 < ps
    decreases |segs|, want
  {
    if want == 0 then Some([])
    else if segs == [] then None
    else if pos >= segs[0].len then Take(segs[1..], pos - segs[0].len, want, ps)
    else if segs[0].len - pos < ps then None
    else Prepend([segs[0].addr + pos], Take(segs, pos + ps, want - 1, ps))
  }

  function Prepend(a: seq<nat>, b: Option<seq<nat>>): Option<seq<nat>> {
    if b.None? then None else Some(a + b.value)
  }

  lemma PrependNothing(b: Option<seq<nat>>)
    ensures Prepend([], b) == b
  {
    if b.Some? {
      assert [] + b.value == b.value;
    }
  }

  lemma PrependJoin(a: seq<nat>, b: seq<nat>, c: Option<seq<nat>>)
    ensures Prepend(a, Prepend(b, c)) == Prepend(a + b, c)
  {
    if c.Some? {
      assert a + (b + c.value) == (a + b) + c.value;
    }
  }

  predicate AllWhole(segs: seq<Seg>, pos: nat, want: nat, ps: nat)
    decreases want
  {
    want == 0 || (PageWhole(segs, pos, ps) && AllWhole(segs, pos + ps, want - 1, ps))
  }

  lemma {:induction false} AllWholeSkips(segs: seq<Seg>, pos: nat, want: nat, ps: nat)
    requires segs != [] && pos >= segs[0].len
    ensures AllWhole(segs, pos, want, ps) == AllWhole(segs[1..], pos - segs[0].len, want, ps)
    decreases want
  {
    if want > 0 {
      AllWholeSkips(segs, pos + ps, want - 1, ps);
    }
  }

  lemma {:induction false} TakeSucceeds(segs: seq<Seg>, pos: nat, want: nat, ps: nat)
    requires 0 < ps
    ensures Take(segs, pos, want, ps).Some? <==> AllWhole(segs, pos, want, ps)
    decreases |segs|, want
  {
    if want > 0 && segs != [] {
      if pos >= segs[0].len {
        AllWholeSkips(segs, pos, want, ps);
        TakeSucceeds(segs[1..], pos - segs[0].len, want, ps);
      } else if segs[0].len - pos >= ps {
        TakeSucceeds(segs, pos + ps, want - 1, ps);
      }
    }
  }

  /** Stream position of the p-th page. */
  function PageStart(pos: nat, p: nat, ps: nat): nat {
    pos + p * ps
  }

  /** The p-th page lies wholly inside one segment. */
  predicate PageOk(segs: seq<Seg>, pos: nat, ps: nat, p: nat) {
    PageWhole(segs, PageStart(pos, p, ps), ps)
  }

  /** The DMA address of byte b of the p-th page. */
  function ByteAt(segs: seq<Seg>, pos: nat, ps: nat, p: nat, b: nat): Option<nat> {
    Locate(segs, PageStart(pos, p, ps) + b)
  }

  lemma PageStartNext(pos: nat, p: nat, ps: nat)
    ensures PageStart(pos + ps, p, ps) == PageStart(pos, p + 1, ps) && PageStart(pos, 0, ps) == pos
  {
    Distribute(p, 1, ps);
  }

  lemma {:induction false} AllWholeAt(segs: seq<Seg>, pos: nat, want: nat, ps: nat, p: nat)
    requires AllWhole(segs, pos, want, ps) && p < want
    ensures PageOk(segs, pos, ps, p)
    decreases want
  {
    if p > 0 {
      AllWholeAt(segs, pos + ps, want - 1, ps, p - 1);
      PageStartNext(pos, p - 1, ps);
    } else {
      PageStartNext(pos, 0, ps);
    }
  }

  lemma {:induction false} AllWholeFrom(segs: seq<Seg>, pos: nat, want: nat, ps: nat)
    requires forall p :: 0 <= p < want ==> PageOk(segs, pos, ps, p)
    ensures AllWhole(segs, pos, want, ps)
    decreases want
  {
    if want > 0 {
      PageStartNext(pos, 0, ps);
      assert PageOk(segs, pos, ps, 0);
      var next := pos + ps;
      forall p | 0 <= p < want - 1
        ensures PageOk(segs, next, ps, p)
      {
        PageStartNext(pos, p, ps);
        assert PageOk(segs, pos, ps, p + 1);
      }
      AllWholeFrom(segs, next, want - 1, ps);
    }
  }

  /** Byte b of page p is where the stream has it. */
  lemma {:induction false} TakeLocates(segs: seq<Seg>, pos: nat, want: nat, ps: nat, p: nat, b: nat)
    requires 0 < ps && Take(segs, pos, want, ps).Some? && p < want && b < ps
    ensures |Take(segs, pos, want, ps).value| == want
    ensures ByteAt(segs, pos, ps, p, b) == Some(Take(segs, pos, want, ps).value[p] + b)
    decreases |segs|, want
  {
    if pos >= segs[0].len {
      TakeLocates(segs[1..], pos - segs[0].len, want, ps, p, b);
    } else if p > 0 {
      TakeLocates(segs, pos + ps, want - 1, ps, p - 1, b);
      PageStartNext(pos, p - 1, ps);
    } else {
      PageStartNext(pos, 0, ps);
      if want > 1 {
        TakeLocates(segs, pos + ps, want - 1, ps, 0, b);
      }
    }
  }

  // ---------------------------------------------------------------------- the method

  /**
   sg_flatten_to_addrs: skip `off` bytes, then write one address per page.  Succeeds exactly when
   every expected page lies inside one segment, and then byte b of page p has address addrs[p] + b.
   */
  method Flatten(segs: seq<Seg>, addrs: array<nat>, expected: nat, ps: nat, off: nat) returns (ok: bool)
    requires 0 < ps && expected <= addrs.Length
    modifies addrs
    ensures ok <==> forall p :: 0 <= p < expected ==> PageOk(segs, off, ps, p)
    ensures ok ==> forall p, b :: 0 <= p < expected && 0 <= b < ps ==>
                     ByteAt(segs, off, ps, p, b) == Some(addrs[p] + b)
  {
    ok := FlattenPages(segs, addrs, expected, ps, off);
    TakeSucceeds(segs, off, expected, ps);
    if ok {
      forall p | 0 <= p < expected
        ensures PageOk(segs, off, ps, p)
      {
        AllWholeAt(segs, off, expected, ps, p);
      }
      forall p, b | 0 <= p < expected && 0 <= b < ps
        ensures ByteAt(segs, off, ps, p, b) == Some(addrs[p] + b)
      {
        TakeLocates(segs, off, expected, ps, p, b);
        assert addrs[p] == addrs[..expected][p];
      }
    } else if forall p :: 0 <= p < expected ==> PageOk(segs, off, ps, p) {
      AllWholeFrom(segs, off, expected, ps);
    }
  }

  /** The nested loops: segment by segment, and page by page within a segment. */
  method FlattenPages(segs: seq<Seg>, addrs: array<nat>, expected: nat, ps: nat, off: nat) returns (ok: bool)
    requires 0 < ps && expected <= addrs.Length
    modifies addrs
    ensures ok <==> Take(segs, off, expected, ps).Some?
    ensures ok ==> addrs[..expected] == Take(segs, off, expected, ps).value
  {
    var pageIdx, remaining := 0, off;
    ghost var goal := Take(segs, off, expected, ps);
    PrependNothing(goal);
    assert segs[0..] == segs && addrs[..0] == [];
    var i := 0;
    while i < |segs|
      invariant 0 <= i <= |segs| && 0 <= pageIdx <= expected && 0 <= remaining
      invariant remaining > 0 ==> pageIdx == 0
      invariant goal == Prepend(addrs[..pageIdx], Take(segs[i..], remaining, expected - pageIdx, ps))
      invariant pageIdx == expected ==> goal == Some(addrs[..expected])
    {
      var seg := segs[i];
      assert segs[i..][0] == seg && segs[i..][1..] == segs[i + 1..];
      if remaining > 0 && remaining >= seg.len {
        remaining := remaining - seg.len;
        i := i + 1;
        continue;
      }
      var len;
      pageIdx, len := FlattenSegment(segs[i..], addrs, pageIdx, expected, ps, remaining, goal);
      remaining := 0;
      if len > 0 && pageIdx < expected {
        return false;
      }
      if pageIdx >= expected {
        break;
      }
      i := i + 1;
    }
    ok := pageIdx == expected;
  }

  /** The inner loop: take pages from what is left of the first segment. */
  method FlattenSegment(segs: seq<Seg>, addrs: array<nat>, from: nat, expected: nat, ps: nat, skip: nat,
                        ghost goal: Option<seq<nat>>)
    returns (pageIdx: nat, len: nat)
    requires 0 < ps && expected <= addrs.Length && from <= expected && segs != [] && skip <= segs[0].len
    requires goal == Prepend(addrs[..from], Take(segs, skip, expected - from, ps))
    modifies addrs
    ensures from <= pageIdx <= expected
    ensures pageIdx == expected ==> goal == Some(addrs[..expected])
    ensures pageIdx < expected && len > 0 ==> goal == None
    ensures pageIdx < expected && len == 0 ==>
              goal == Prepend(addrs[..pageIdx], Take(segs[1..], 0, expected - pageIdx, ps))
  {
    var seg := segs[0];
    var addr := seg.addr + skip;
    pageIdx, len := from, seg.len - skip;
    while len >= ps && pageIdx < expected
      invariant from <= pageIdx <= expected && len <= seg.len && addr == seg.addr + (seg.len - len)
      invariant goal == Prepend(addrs[..pageIdx], Take(segs, seg.len - len, expected - pageIdx, ps))
    {
      ghost var before, pos := addrs[..pageIdx], seg.len - len;
      PrependJoin(before, [addr], Take(segs, pos + ps, expected - pageIdx - 1, ps));
      addrs[pageIdx] := addr;
      assert addrs[..pageIdx + 1] == before + [addr];
      pageIdx := pageIdx + 1;
      addr := addr + ps;
      len := len - ps;
    }
    assert addrs[..pageIdx] + [] == addrs[..pageIdx];
  }
}
