/**
 How do_io cuts a transfer into commands, and which disk byte meets which buffer byte once a
 controller decodes the commands and walks their PRPs.
 */
module Transfer {
  import opened Arithmetic
  import opened Rings
  import opened Command
  import opened Prp

  // ------------------------------------------------------------------ transfer limits

  /** Controller page size, namespace block size, and the transfer limit (0 when unknown). */
  datatype Geometry = Geometry(ps: nat, bs: nat, mts: nat)

  function PrpMax(ps: nat): nat {
    (ps / 8 + 1) * ps
  }

  /** The longest transfer of one command: the limit, at least a page, at most one PRP list. */
  function MaxXfer(g: Geometry): nat {
    var limit := if g.mts == 0 then 128 * 1024 else g.mts;
    var atLeastPage := if limit < g.ps then g.ps else limit;
    if atLeastPage > PrpMax(g.ps) then PrpMax(g.ps) else atLeastPage
  }

  /** The longest transfer rounded down to whole blocks: the size of every chunk but the last. */
  function FullChunk(g: Geometry): nat
    requires 0 < g.bs
  {
    RoundDown(MaxXfer(g), g.bs)
  }

  /** What a controller's own limits give: sizes that divide one another. */
  predicate Aligned(g: Geometry) {
    && 0 < g.ps && 0 < g.bs && (g.ps % g.bs == 0 || g.bs % g.ps == 0)
    && (g.mts < g.ps || g.mts % g.ps == 0)
    && (g.ps > 128 * 1024 || (128 * 1024) % g.ps == 0)
  }

  /** Under such limits a full chunk is a whole number of pages. */
  lemma AlignedChunks(g: Geometry)
    requires Aligned(g)
    ensures FullChunk(g) % g.ps == 0
  {
    ProductDivides(g.ps / 8 + 1, g.ps);
    ProductDivides(1, g.ps);
    RoundedMultiple(MaxXfer(g), g.ps, g.bs);
  }

  lemma RoundedMultiple(m: nat, ps: nat, bs: nat)
    requires 0 < ps && 0 < bs && m % ps == 0 && (ps % bs == 0 || bs % ps == 0)
    ensures RoundDown(m, bs) % ps == 0
  {
    RoundDownIs(m, bs);
    if ps % bs == 0 {
      DividesThrough(m, ps, bs);
    } else {
      DividesThrough(RoundDown(m, bs), bs, ps);
    }
  }

  // --------------------------------------------------------------------- the chunks

  function PagesFor(ps: nat, bytes: nat): nat
    requires 0 < ps
  {
    (bytes + ps - 1) / ps
  }

  datatype Chunk = Chunk(lba: nat, blocks: nat, page: nat, pages: nat)

  /** The commands of a transfer: full chunks, then what remains. */
  function Plan(ps: nat, bs: nat, full: nat, remaining: nat, lba: nat, page: nat): (plan: seq<Chunk>)
    requires 0 < ps && 0 < bs && 0 < full
    decreases remaining
  {
    if remaining == 0 then []
    else
      var n := Min(remaining, full);
      [Chunk(lba, n / bs, page, PagesFor(ps, n))]
      + Plan(ps, bs, full, remaining - n, lba + n / bs, page + PagesFor(ps, n))
  }

  lemma WholePages(ps: nat, n: nat)
    requires 0 < ps
    ensures PagesFor(ps, n) * ps == n <==> n % ps == 0
    ensures n <= PagesFor(ps, n) * ps < n + ps
  {
    DivBounds(n + ps - 1, ps);
    ProductDivides(PagesFor(ps, n), ps);
    MultipleIs(n, ps);
    if n % ps == 0 {
      DivModUnique(n + ps - 1, ps, n / ps, ps - 1);
    }
  }

  // ---------------------------------------------------- disk bytes against buffer bytes

  /** n bytes from disk position d on, each paired with the buffer position from p on. */
  function Segment(d: nat, p: nat, n: nat): (s: seq<(nat, nat)>)
    ensures |s| == n
  {
    seq(n, j => (d + j, p + j))
  }

  lemma SegmentJoin(d: nat, p: nat, a: nat, b: nat)
    ensures Segment(d, p, a) + Segment(d + a, p + a, b) == Segment(d, p, a + b)
  {
  }

  function ChunkMoves(ps: nat, bs: nat, c: Chunk): seq<(nat, nat)> {
    Segment(c.lba * bs, c.page * ps, c.blocks * bs)
  }

  /** What the planned commands move, in order: each starts at the first byte of its first page. */
  function Moved(ps: nat, bs: nat, plan: seq<Chunk>): seq<(nat, nat)> {
    if plan == [] then [] else ChunkMoves(ps, bs, plan[0]) + Moved(ps, bs, plan[1..])
  }

  /** A non-final chunk that ends on a page boundary hands over where the next one starts. */
  lemma {:induction false} PlanCovers(ps: nat, bs: nat, full: nat, size: nat, lba: nat, page: nat)
    requires 0 < ps && 0 < bs && 0 < full && size % bs == 0 && full % bs == 0
    requires size <= full || full % ps == 0
    ensures Moved(ps, bs, Plan(ps, bs, full, size, lba, page)) == Segment(lba * bs, page * ps, size)
    decreases size
  {
    if size > 0 {
      var n := Min(size, full);
      var blocks, pages := n / bs, PagesFor(ps, n);
      var c, rest := Chunk(lba, blocks, page, pages), Plan(ps, bs, full, size - n, lba + blocks, page + pages);
      MultipleMinus(size, n, bs);
      MultipleIs(n, bs);
      PlanCovers(ps, bs, full, size - n, lba + blocks, page + pages);
      assert ([c] + rest)[1..] == rest;
      HandOver(ps, bs, n, size - n, c);
    }
  }

  lemma HandOver(ps: nat, bs: nat, n: nat, more: nat, c: Chunk)
    requires 0 < ps && 0 < bs && c.blocks * bs == n && c.pages == PagesFor(ps, n)
    requires more == 0 || n % ps == 0
    ensures ChunkMoves(ps, bs, c) + Segment((c.lba + c.blocks) * bs, (c.page + c.pages) * ps, more)
         == Segment(c.lba * bs, c.page * ps, n + more)
  {
    Distribute(c.lba, c.blocks, bs);
    Distribute(c.page, c.pages, ps);
    WholePages(ps, n);
    SegmentJoin(c.lba * bs, c.page * ps, n, more);
  }

  /**
   The planned commands pair disk byte k with buffer byte k for the whole transfer exactly when one
   command suffices or a full chunk is a whole number of pages.
   */
  lemma {:induction false} PlanCoversExactly(ps: nat, bs: nat, full: nat, size: nat, lba: nat, page: nat)
    requires 0 < ps && 0 < bs && 0 < full && size % bs == 0 && full % bs == 0
    ensures Moved(ps, bs, Plan(ps, bs, full, size, lba, page)) == Segment(lba * bs, page * ps, size)
       <==> size <= full || full % ps == 0
  {
    if size <= full || full % ps == 0 {
      PlanCovers(ps, bs, full, size, lba, page);
    } else {
      SecondChunkOff(ps, bs, full, size, lba, page);
    }
  }

  lemma SecondChunkOff(ps: nat, bs: nat, full: nat, size: nat, lba: nat, page: nat)
    requires 0 < ps && 0 < bs && 0 < full < size && size % bs == 0 && full % bs == 0 && full % ps != 0
    ensures Moved(ps, bs, Plan(ps, bs, full, size, lba, page)) != Segment(lba * bs, page * ps, size)
  {
    var blocks, pages := full / bs, PagesFor(ps, full);
    var c := Chunk(lba, blocks, page, pages);
    var rest := Plan(ps, bs, full, size - full, lba + blocks, page + pages);
    var n := Min(size - full, full);
    MultipleIs(full, bs);
    MultipleMinus(size, full, bs);
    FirstByteOff(ps, bs, full, c, rest[0], n);
    MovedSecond(ps, bs, c, rest);
    assert Plan(ps, bs, full, size, lba, page) == [c] + rest;
    DiffersAt(Moved(ps, bs, [c] + rest), lba * bs, page * ps, size, full);
  }

  lemma MovedSecond(ps: nat, bs: nat, c: Chunk, rest: seq<Chunk>)
    requires rest != [] && |ChunkMoves(ps, bs, rest[0])| > 0
    ensures var i := |ChunkMoves(ps, bs, c)|;
            |Moved(ps, bs, [c] + rest)| > i && Moved(ps, bs, [c] + rest)[i] == ChunkMoves(ps, bs, rest[0])[0]
  {
    assert ([c] + rest)[1..] == rest;
    assert Moved(ps, bs, [c] + rest)
        == ChunkMoves(ps, bs, c) + (ChunkMoves(ps, bs, rest[0]) + Moved(ps, bs, rest[1..]));
  }

  lemma DiffersAt(moves: seq<(nat, nat)>, d: nat, p: nat, n: nat, i: nat)
    requires i < n && i < |moves| && moves[i].1 != p + i
    ensures moves != Segment(d, p, n)
  {
    assert Segment(d, p, n)[i].1 == p + i;
  }

  lemma FirstByteOff(ps: nat, bs: nat, full: nat, c: Chunk, next: Chunk, n: nat)
    requires 0 < ps && 0 < bs && full % ps != 0 && 0 < n && n % bs == 0
    requires c.pages == PagesFor(ps, full) && next.page == c.page + c.pages && next.blocks == n / bs
    ensures |ChunkMoves(ps, bs, next)| > 0 && ChunkMoves(ps, bs, next)[0].1 != c.page * ps + full
  {
    MultipleIs(n, bs);
    WholePages(ps, full);
    Distribute(c.page, c.pages, ps);
  }

  /** Every page index the plan uses lies below the pages the whole transfer needs. */
  lemma {:induction false} PlanPages(ps: nat, bs: nat, full: nat, size: nat, lba: nat, page: nat, i: nat)
    requires 0 < ps && 0 < bs && 0 < full
    requires size <= full || full % ps == 0
    requires i < |Plan(ps, bs, full, size, lba, page)|
    ensures var c := Plan(ps, bs, full, size, lba, page)[i];
            page <= c.page && c.page + c.pages <= page + PagesFor(ps, size)
    decreases size
  {
    var n := Min(size, full);
    PagesAdd(ps, n, size - n);
    if i > 0 {
      PlanPages(ps, bs, full, size - n, lba + n / bs, page + PagesFor(ps, n), i - 1);
    }
  }

  lemma PagesAdd(ps: nat, n: nat, rest: nat)
    requires 0 < ps && (n % ps == 0 || rest == 0)
    ensures PagesFor(ps, n) + PagesFor(ps, rest) == PagesFor(ps, n + rest)
  {
    if rest == 0 {
      DivModUnique(ps - 1, ps, 0, ps - 1);
    } else {
      var j, m := n / ps, rest + ps - 1;
      assert n == ps * j;
      DivModUnique(n + ps - 1, ps, j, ps - 1);
      assert n + m == ps * (j + m / ps) + m % ps by {
        assert m == ps * (m / ps) + m % ps;
        assert ps * (j + m / ps) == ps * j + ps * (m / ps);
      }
      DivModUnique(n + m, ps, j + m / ps, m % ps);
    }
  }

  // -------------------------------------------------------- what the controller does

  /** Byte x of a buffer given by its page addresses. */
  function Bus(ioaddrs: seq<nat>, ps: nat, x: nat): nat
    requires 0 < ps
  {
    if x / ps < |ioaddrs| then ioaddrs[x / ps] + x % ps else 0
  }

  /** Disk bytes against bus addresses, for a command and the PRP page the controller can read. */
  function Effect(ps: nat, bs: nat, prpAddr: nat, page: seq<nat>, cmd: Cmd): Option<seq<(nat, nat)>>
    requires 16 <= ps && 0 < bs && |cmd| == 16
  {
    var rw := Decode(cmd);
    var bytes := rw.blocks * bs;
    var pages := Walk(map[prpAddr := page], ps / 8, rw.prp1, rw.prp2, PagesFor(ps, bytes));
    if pages.None? then None
    else Some(PageMoves(ps, rw.lba * bs, bytes, pages.value))
  }

  /** Byte j of the command goes to offset j % ps of its page j / ps. */
  function PageMoves(ps: nat, d: nat, bytes: nat, pages: seq<nat>): seq<(nat, nat)>
    requires 0 < ps
  {
    seq(bytes, (j: nat) => (d + j, Bus(pages, ps, j)))
  }

  lemma PageIndex(ps: nat, bytes: nat, j: nat)
    requires 0 < ps && j < bytes
    ensures j / ps < PagesFor(ps, bytes)
  {
    WholePages(ps, bytes);
    InTable(ps, PagesFor(ps, bytes), j);
  }

  /** Disk bytes from d on against the bus addresses of buffer bytes from p on, n of them. */
  ghost predicate Pairs(moves: seq<(nat, nat)>, d: nat, ioaddrs: seq<nat>, ps: nat, p: nat, n: nat)
    requires 0 < ps
  {
    && |moves| == n
    && (forall k :: 0 <= k < n ==> moves[k] == (d + k, Bus(ioaddrs, ps, p + k)))
  }

  lemma PairsJoin(a: seq<(nat, nat)>, b: seq<(nat, nat)>, d: nat, ioaddrs: seq<nat>, ps: nat, p: nat, m: nat, n: nat)
    requires 0 < ps && Pairs(a, d, ioaddrs, ps, p, m) && Pairs(b, d + m, ioaddrs, ps, p + m, n)
    ensures Pairs(a + b, d, ioaddrs, ps, p, m + n)
  {
    forall k | 0 <= k < m + n
      ensures (a + b)[k] == (d + k, Bus(ioaddrs, ps, p + k))
    {
      if k >= m {
        assert b[k - m] == (d + m + (k - m), Bus(ioaddrs, ps, p + m + (k - m)));
        assert p + m + (k - m) == p + k;
      }
    }
  }

  /** Byte j of the run of pages that starts at `page` is byte page * ps + j of the buffer. */
  lemma BusOfPage(ioaddrs: seq<nat>, ps: nat, page: nat, pages: nat, j: nat)
    requires 0 < ps && page + pages <= |ioaddrs| && j / ps < pages
    ensures Bus(ioaddrs[page..page + pages], ps, j) == Bus(ioaddrs, ps, page * ps + j)
    ensures (page * ps + j) / ps < |ioaddrs|
  {
    SplitPage(ps, page, j);
    BusOfSlice(ioaddrs, ps, page, pages, j, page * ps + j);
  }

  lemma BusOfSlice(ioaddrs: seq<nat>, ps: nat, page: nat, pages: nat, j: nat, x: nat)
    requires 0 < ps && page + pages <= |ioaddrs| && j / ps < pages && x / ps == page + j / ps && x % ps == j % ps
    ensures Bus(ioaddrs[page..page + pages], ps, j) == Bus(ioaddrs, ps, x) && x / ps < |ioaddrs|
  {
  }

  lemma SplitPage(ps: nat, page: nat, j: nat)
    requires 0 < ps
    ensures (page * ps + j) / ps == page + j / ps && (page * ps + j) % ps == j % ps
  {
    assert page * ps + j == ps * (page + j / ps) + j % ps by {
      assert j == ps * (j / ps) + j % ps;
      assert ps * (page + j / ps) == ps * page + ps * (j / ps);
    }
    DivModUnique(page * ps + j, ps, page + j / ps, j % ps);
  }

  /**
   A command whose pointers describe `pages` consecutive page addresses moves its disk bytes against
   exactly the buffer bytes that start at its first page.
   */
  lemma EffectOfCommand(ps: nat, bs: nat, prpAddr: nat, prp: seq<nat>, cmd: Cmd, c: Chunk, ioaddrs: seq<nat>)
    requires 16 <= ps && 0 < bs && |cmd| == 16
    requires Decode(cmd).lba == c.lba && Decode(cmd).blocks == c.blocks
    requires c.pages == PagesFor(ps, c.blocks * bs) && c.page + c.pages <= |ioaddrs|
    requires Walk(map[prpAddr := prp], ps / 8, Decode(cmd).prp1, Decode(cmd).prp2, c.pages)
               == Some(ioaddrs[c.page..c.page + c.pages])
    ensures var e := Effect(ps, bs, prpAddr, prp, cmd);
            e.Some? && Pairs(e.value, c.lba * bs, ioaddrs, ps, c.page * ps, c.blocks * bs)
  {
    PageBytes(ps, c.lba * bs, c.blocks * bs, ioaddrs, c.page, c.pages);
  }

  lemma PageBytes(ps: nat, d: nat, bytes: nat, ioaddrs: seq<nat>, page: nat, pages: nat)
    requires 0 < ps && pages == PagesFor(ps, bytes) && page + pages <= |ioaddrs|
    ensures Pairs(PageMoves(ps, d, bytes, ioaddrs[page..page + pages]), d, ioaddrs, ps, page * ps, bytes)
  {
    var moves := PageMoves(ps, d, bytes, ioaddrs[page..page + pages]);
    forall k | 0 <= k < bytes
      ensures moves[k] == (d + k, Bus(ioaddrs, ps, page * ps + k))
    {
      PageIndex(ps, bytes, k);
      BusOfPage(ioaddrs, ps, page, pages, k);
    }
  }
}
