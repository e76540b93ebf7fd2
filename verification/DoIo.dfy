/** do_io: one read or write, from argument checks to the last completion. */
module DoIo {
  import opened Arithmetic
  import opened Rings
  import opened Protocol
  import opened ProtocolSafety
  import opened Threads
  import opened QueuePairs
  import opened Command
  import opened Prp
  import opened Transfer
  import opened ChunkIo

  const EIO: int := 5
  const EINVAL: int := 22

  // ---------------------------------------------------------------- the whole request

  /** Everything a sequence of executed commands moved, if each is well formed. */
  function Effects(ps: nat, bs: nat, prpAddr: nat, log: seq<Ran>): Option<seq<(nat, nat)>>
    requires 16 <= ps && 0 < bs
  {
    if log == [] then Some([])
    else
      var last := log[|log| - 1];
      var before := Effects(ps, bs, prpAddr, log[..|log| - 1]);
      if before.None? || |last.cmd| != 16 || Effect(ps, bs, prpAddr, last.page, last.cmd).None? then None
      else Some(before.value + Effect(ps, bs, prpAddr, last.page, last.cmd).value)
  }

  datatype Request = Request(
    g: Geometry, ns: nat, opcode: nat, timeout: nat,
    size: nat, fileOffset: int, bufOffset: int,
    registered: Option<seq<nat>>,  // page addresses of the registered buffer, if it is one
    mapped: Option<seq<nat>>,      // page addresses if mapping the buffer on the fly succeeds
    nullArg: bool)                 // no handle or no buffer

  /** What do_io refuses before it touches a queue. */
  predicate Bad(r: Request) {
    || r.nullArg || r.size == 0 || r.fileOffset < 0 || r.bufOffset < 0 || r.g.bs == 0 || r.g.ps == 0
    || r.fileOffset % r.g.bs != 0 || r.size % r.g.bs != 0
    || (r.registered.Some? && (r.bufOffset % r.g.ps != 0
                               || r.bufOffset / r.g.ps + PagesFor(r.g.ps, r.size) > |r.registered.value|))
  }

  /** The page addresses used, and the first page and byte of the request in them. */
  function Addrs(r: Request): seq<nat> {
    if r.registered.Some? then r.registered.value else if r.mapped.Some? then r.mapped.value else []
  }

  function FirstByte(r: Request): int {
    if r.registered.Some? then r.bufOffset else 0
  }

  /** Facts about the handle and the mapping that earlier calls established. */
  predicate Sound(r: Request) {
    && (r.g.ps == 0 || 4096 <= r.g.ps)
    && (0 < r.g.ps && 0 < r.g.bs ==> Aligned(r.g))
    && (0 < r.g.ps && r.mapped.Some? ==> PagesFor(r.g.ps, r.size) <= |r.mapped.value|)
  }

  /** Values in the range of their fields on the wire; a full chunk within the 16-bit block count. */
  predicate OnWire(r: Request, prpAddr: nat) {
    && r.opcode < 0x80 && r.ns < WORD && prpAddr < WORD * WORD
    && 0 <= r.fileOffset && r.fileOffset + r.size < WORD * WORD
    && (forall i :: 0 <= i < |Addrs(r)| ==> Addrs(r)[i] < WORD * WORD)
    && 0 < r.g.bs && FullChunk(r.g) / r.g.bs <= 0x1_0000
  }

  /** A request that passes the checks and has its buffer mapped. */
  predicate Accept(r: Request) {
    !Bad(r) && Sound(r) && (r.registered.Some? || r.mapped.Some?)
  }

  ghost function SomeRequest(): (r: Request)
    ensures Accept(r)
  {
    Request(Geometry(4096, 4096, 0), 1, NVM_IO_READ, 0, 4096, 0, 0, Some([0]), None, false)
  }

  type Accepted = r: Request | Accept(r) ghost witness SomeRequest()

  /** The command performs the request's operation on the request's namespace. */
  predicate OfRequest(r: Request, cmd: Cmd) {
    |cmd| == 16 && Decode(cmd).opcode == r.opcode && Decode(cmd).ns == r.ns
  }

  /** The executed commands, all of them the request's, moved exactly its first `done` bytes, in order. */
  ghost predicate Transferred(r: Request, prpAddr: nat, log: seq<Ran>, done: nat)
    requires 4096 <= r.g.ps && 0 < r.g.bs
  {
    var moves := Effects(r.g.ps, r.g.bs, prpAddr, log);
    0 <= r.fileOffset && 0 <= FirstByte(r)
    && (forall j :: 0 <= j < |log| ==> OfRequest(r, log[j].cmd))
    && moves.Some? && Pairs(moves.value, r.fileOffset, Addrs(r), r.g.ps, FirstByte(r), done)
  }

  /** In a registered buffer the bytes start at bufOffset, in one mapped for this transfer at its first byte. */
  lemma TransferredBytes(r: Accepted, prpAddr: nat, log: seq<Ran>)
    requires Transferred(r, prpAddr, log, r.size)
    ensures var moves := Effects(r.g.ps, r.g.bs, prpAddr, log);
      && moves.Some? && |moves.value| == r.size
      && forall k :: 0 <= k < r.size ==>
           moves.value[k].0 == r.fileOffset + k
           && moves.value[k].1 == if r.registered.Some? then Bus(r.registered.value, r.g.ps, r.bufOffset + k)
                                  else Bus(r.mapped.value, r.g.ps, k)
  {
  }

  /** A transfer to plan: sizes, and the first block and page. */
  datatype Planned = Planned(ps: nat, bs: nat, full: nat, size: nat, lba: nat, page: nat) {
    predicate Ok() {
      0 < ps && 0 < bs && 0 < full && full % ps == 0 && full % bs == 0 && size % bs == 0
    }

    function From(at: Spot): seq<Chunk>
      requires Ok() && at.done <= size
    {
      Plan(ps, bs, full, size - at.done, at.lba, at.page)
    }
  }

  /** The variables of the loop: bytes done, next block, next page. */
  datatype Spot = Spot(done: nat, lba: nat, page: nat)

  function NextSpot(p: Planned, at: Spot, n: nat): Spot
    requires 0 < p.ps && 0 < p.bs
  {
    Spot(at.done + n, at.lba + n / p.bs, at.page + PagesFor(p.ps, n))
  }

  /** Where the loop stands after k chunks. */
  function SpotAfter(p: Planned, k: nat): Spot
    requires 0 < p.ps && 0 < p.bs
  {
    if k == 0 then Spot(0, p.lba, p.page)
    else
      var at := SpotAfter(p, k - 1);
      if at.done > p.size then at else NextSpot(p, at, Min(p.size - at.done, p.full))
  }

  /** The most commands a plan can take. */
  function Rounds(p: Planned): nat {
    if p.Ok() then |p.From(Spot(0, p.lba, p.page))| else 0
  }

  /** Whole blocks are done, whole pages unless all is, and the rest of the plan remains. */
  predicate Progress(p: Planned, at: Spot, k: nat)
    requires p.Ok()
  {
    && at.done <= p.size && at.done % p.bs == 0 && (at.done < p.size ==> at.done % p.ps == 0)
    && at.lba == p.lba + at.done / p.bs && at.page == p.page + PagesFor(p.ps, at.done)
    && k + |p.From(at)| == Rounds(p)
  }

  /** The chunk formed next fits the buffer, and finishing it makes progress. */
  lemma NextChunk(p: Planned, at: Spot, k: nat)
    requires p.Ok() && Progress(p, at, k) && at.done < p.size
    ensures var n := Min(p.size - at.done, p.full);
            && 0 < n && n % p.bs == 0 && 1 <= PagesFor(p.ps, n)
            && at.page + PagesFor(p.ps, n) <= p.page + PagesFor(p.ps, p.size)
            && Progress(p, NextSpot(p, at, n), k + 1)
            && k + 1 <= Rounds(p)
  {
    var n := Min(p.size - at.done, p.full);
    var next := NextSpot(p, at, n);
    MultipleMinus(p.size, at.done, p.bs);
    MultiplePlus(at.done, n, p.bs);
    PagesAdd(p.ps, at.done, n);
    WholePages(p.ps, n);
    if next.done < p.size {
      MultiplePlus(at.done, n, p.ps);
    }
    PagesAdd(p.ps, next.done, p.size - next.done);
    assert p.From(at) == [Chunk(at.lba, n / p.bs, at.page, PagesFor(p.ps, n))] + p.From(next);
  }

  lemma {:induction false} SpotProgress(p: Planned, k: nat)
    requires p.Ok() && k <= Rounds(p)
    ensures Progress(p, SpotAfter(p, k), k)
  {
    if k == 0 {
      DivModUnique(0, p.bs, 0, 0);
      DivModUnique(0, p.ps, 0, 0);
      DivModUnique(p.ps - 1, p.ps, 0, p.ps - 1);
    } else {
      SpotProgress(p, k - 1);
      NextChunk(p, SpotAfter(p, k - 1), k - 1);
    }
  }

  function PlanOf(r: Accepted): Planned {
    Planned(r.g.ps, r.g.bs, FullChunk(r.g), r.size, r.fileOffset / r.g.bs, FirstByte(r) / r.g.ps)
  }

  lemma PlanOk(r: Accepted)
    requires 0 < FullChunk(r.g)
    ensures PlanOf(r).Ok()
  {
    AlignedChunks(r.g);
    RoundDownIs(MaxXfer(r.g), r.g.bs);
  }

  /** A chunk never needs more PRP entries than the page holds. */
  lemma ChunkFitsList(g: Geometry, n: nat)
    requires 0 < g.ps && 0 < g.bs && 0 < n <= FullChunk(g)
    ensures PagesFor(g.ps, n) - 1 <= g.ps / 8
  {
    RoundDownIs(MaxXfer(g), g.bs);
    PagesCap(g.ps, n, g.ps / 8 + 1);
  }

  lemma PagesCap(ps: nat, n: nat, k: nat)
    requires 0 < ps && n <= k * ps
    ensures PagesFor(ps, n) <= k
  {
    WholePages(ps, n);
    MulStrict(PagesFor(ps, n), k, ps);
  }

  /** Disk and buffer positions of the next chunk are where the transfer stands. */
  lemma Positions(r: Accepted, at: Spot, k: nat)
    requires PlanOf(r).Ok() && Progress(PlanOf(r), at, k) && at.done < r.size
    ensures at.lba * r.g.bs == r.fileOffset + at.done && at.page * r.g.ps == FirstByte(r) + at.done
  {
    var p, done := PlanOf(r), at.done;
    MultipleIs(r.fileOffset, p.bs);
    MultipleIs(done, p.bs);
    Distribute(p.lba, done / p.bs, p.bs);
    MultipleIs(FirstByte(r), p.ps);
    WholePages(p.ps, done);
    Distribute(p.page, PagesFor(p.ps, done), p.ps);
  }

  lemma BlocksOnWire(r: Request, prpAddr: nat, n: nat, lba: nat, done: nat)
    requires OnWire(r, prpAddr) && 0 < n <= FullChunk(r.g) && n % r.g.bs == 0
    requires lba * r.g.bs == r.fileOffset + done && done < r.size
    ensures 1 <= n / r.g.bs <= 0x1_0000 && (n / r.g.bs) * r.g.bs == n && lba < WORD * WORD
  {
    MultipleIs(n, r.g.bs);
    DivMono(n, FullChunk(r.g), r.g.bs);
    MulAtLeast(lba, r.g.bs);
  }

  lemma DivMono(x: nat, y: nat, b: nat)
    requires 0 < b && x <= y
    ensures x / b <= y / b
  {
    DivBounds(x, b);
    DivBounds(y, b);
    MulStrict(x / b, y / b, b);
  }

  lemma EffectsGrow(ps: nat, bs: nat, prpAddr: nat, log: seq<Ran>, r: Ran)
    requires 16 <= ps && 0 < bs && Effects(ps, bs, prpAddr, log).Some? && |r.cmd| == 16
    requires Effect(ps, bs, prpAddr, r.page, r.cmd).Some?
    ensures Effects(ps, bs, prpAddr, log + [r])
         == Some(Effects(ps, bs, prpAddr, log).value + Effect(ps, bs, prpAddr, r.page, r.cmd).value)
  {
    assert (log + [r])[..|log|] == log;
  }

  lemma ChunkOfRequest(r: Request, prpAddr: nat, ran: Ran, b: Built, c: Chunk)
    requires OnWire(r, prpAddr) && RanChunk(ran, b, c, r.opcode, r.ns, Addrs(r), prpAddr)
    requires 1 <= c.pages && 1 <= c.blocks <= 0x1_0000 && c.lba < WORD * WORD
    ensures OfRequest(r, ran.cmd)
  {
    PointersOnWire(Addrs(r), prpAddr, b, c, ran.page);
    RwRoundTrip(b.cid, r.opcode, r.ns, b.prp1, b.prp2, c.lba, c.blocks);
  }

  lemma PointersOnWire(ioaddrs: seq<nat>, prpAddr: nat, b: Built, c: Chunk, page: seq<nat>)
    requires 1 <= c.pages && c.page + c.pages <= |ioaddrs| && prpAddr < WORD * WORD
    requires OneListBuilt(ioaddrs[c.page..c.page + c.pages], prpAddr, page, b.prp1, b.prp2)
    requires forall i :: 0 <= i < |ioaddrs| ==> ioaddrs[i] < WORD * WORD
    ensures b.prp1 < WORD * WORD && b.prp2 < WORD * WORD
  {
  }

  /** A finished chunk extends what has been transferred. */
  lemma TransferGrows(r: Request, prpAddr: nat, log: seq<Ran>, ran: Ran, b: Built, c: Chunk, done: nat, n: nat)
    requires 4096 <= r.g.ps && OnWire(r, prpAddr) && Transferred(r, prpAddr, log, done)
    requires RanChunk(ran, b, c, r.opcode, r.ns, Addrs(r), prpAddr) && |ran.page| == r.g.ps / 8
    requires 1 <= c.blocks <= 0x1_0000 && c.blocks * r.g.bs == n && c.lba < WORD * WORD
    requires 1 <= c.pages == PagesFor(r.g.ps, n)
    requires c.lba * r.g.bs == r.fileOffset + done && c.page * r.g.ps == FirstByte(r) + done
    ensures Transferred(r, prpAddr, log + [ran], done + n)
  {
    var ps, bs := r.g.ps, r.g.bs;
    ChunkEffect(ps, bs, ran, b, c, r.opcode, r.ns, Addrs(r), prpAddr);
    ChunkOfRequest(r, prpAddr, ran, b, c);
    CommandExtends(r, prpAddr, log, ran, done, n);
  }

  lemma CommandExtends(r: Request, prpAddr: nat, log: seq<Ran>, ran: Ran, done: nat, n: nat)
    requires 4096 <= r.g.ps && 0 < r.g.bs && Transferred(r, prpAddr, log, done) && OfRequest(r, ran.cmd)
    requires Effect(r.g.ps, r.g.bs, prpAddr, ran.page, ran.cmd).Some?
    requires Pairs(Effect(r.g.ps, r.g.bs, prpAddr, ran.page, ran.cmd).value, r.fileOffset + done, Addrs(r), r.g.ps,
                   FirstByte(r) + done, n)
    ensures Transferred(r, prpAddr, log + [ran], done + n)
  {
    var ps, bs := r.g.ps, r.g.bs;
    EffectsGrow(ps, bs, prpAddr, log, ran);
    PairsJoin(Effects(ps, bs, prpAddr, log).value, Effect(ps, bs, prpAddr, ran.page, ran.cmd).value,
              r.fileOffset, Addrs(r), ps, FirstByte(r), done, n);
  }

  /** What the loop has achieved when it stands at `done` bytes: only claimed from an idle pair. */
  ghost predicate Achieved(r: Accepted, prpAddr: nat, s: State, t: State, done: nat) {
    Idle(s) && OnWire(r, prpAddr) ==>
      && Idle(t) && s.his.ran <= t.his.ran
      && Transferred(r, prpAddr, t.his.ran[|s.his.ran|..], done)
  }

  lemma SuffixGrows<T>(a: seq<T>, b: seq<T>, c: seq<T>)
    requires a <= b <= c && |c| == |b| + 1
    ensures c[|a|..] == b[|a|..] + [c[|b|]]
  {
  }

  lemma AchievedStep(r: Accepted, prpAddr: nat, s: State, t: State, u: State, b: Built, c: Chunk,
                     done: nat, n: nat, k: nat)
    requires PlanOf(r).Ok() && Progress(PlanOf(r), Spot(done, c.lba, c.page), k) && done < r.size
    requires n == Min(r.size - done, FullChunk(r.g)) && c.blocks == n / r.g.bs && c.pages == PagesFor(r.g.ps, n)
    requires Achieved(r, prpAddr, s, t, done) && |t.prp| == r.g.ps / 8
    requires Idle(t) ==> Finished(t, u, b, c, r.opcode, r.ns, Addrs(r), prpAddr)
    ensures Achieved(r, prpAddr, s, u, done + n)
  {
    if Idle(s) && OnWire(r, prpAddr) {
      NextChunk(PlanOf(r), Spot(done, c.lba, c.page), k);
      Positions(r, Spot(done, c.lba, c.page), k);
      BlocksOnWire(r, prpAddr, n, c.lba, done);
      var m := |s.his.ran|;
      var log, ran := t.his.ran[m..], u.his.ran[|t.his.ran|];
      TransferGrows(r, prpAddr, log, ran, b, c, done, n);
      SuffixGrows(s.his.ran, t.his.ran, u.his.ran);
    }
  }

  // ---------------------------------------------------------------------- the loop

  /** Cut the next chunk: at most the limit, whole blocks. */
  method CutChunk(ps: nat, bs: nat, maxXfer: nat, remaining: nat, lba: nat, page: nat) returns (bytes: nat, c: Chunk)
    requires 0 < ps && 0 < bs && remaining % bs == 0
    ensures bytes == Min(remaining, RoundDown(maxXfer, bs))
    ensures bytes > 0 ==> c == Chunk(lba, bytes / bs, page, PagesFor(ps, bytes))
  {
    bytes := Min(remaining, maxXfer);
    RoundDownIs(bytes, bs);
    RoundDownMin(remaining, maxXfer, bs);
    bytes := (bytes / bs) * bs;
    var nPages := (bytes + ps - 1) / ps;
    if nPages == 0 {
      nPages := 1;
    }
    WholePages(ps, bytes);
    c := Chunk(lba, bytes / bs, page, nPages);
  }

  /** The limits at the top of do_io: the controller's limit, kept between a page and what one PRP list describes. */
  method TransferLimit(g: Geometry) returns (maxXfer: nat)
    ensures g.ps <= maxXfer <= PrpMax(g.ps)
    ensures var limit := if g.mts == 0 then 128 * 1024 else g.mts;
      && (g.ps <= limit <= PrpMax(g.ps) ==> maxXfer == limit)
      && (limit < g.ps ==> maxXfer == g.ps)
      && (limit > PrpMax(g.ps) ==> maxXfer == PrpMax(g.ps))
    ensures 0 < g.ps ==> PagesFor(g.ps, maxXfer) <= g.ps / 8 + 1
  {
    maxXfer := g.mts;
    if maxXfer == 0 {
      maxXfer := 128 * 1024;
    }
    if maxXfer < g.ps {
      maxXfer := g.ps;
    }
    var prpMax := (g.ps / 8 + 1) * g.ps;
    PageInPrpMax(g.ps);
    if maxXfer > prpMax {
      maxXfer := prpMax;
    }
    if 0 < g.ps {
      PagesCap(g.ps, maxXfer, g.ps / 8 + 1);
    }
  }

  lemma PageInPrpMax(ps: nat)
    ensures ps <= PrpMax(ps)
  {
    Distribute(ps / 8, 1, ps);
  }

  /** The limits name one value. */
  lemma LimitIs(g: Geometry, maxXfer: nat)
    requires var limit := if g.mts == 0 then 128 * 1024 else g.mts;
      && (g.ps <= limit <= PrpMax(g.ps) ==> maxXfer == limit)
      && (limit < g.ps ==> maxXfer == g.ps)
      && (limit > PrpMax(g.ps) ==> maxXfer == PrpMax(g.ps))
    ensures maxXfer == MaxXfer(g)
  {
    PageInPrpMax(g.ps);
  }

  lemma AchievedAtStart(r: Accepted, prpAddr: nat, s: State)
    ensures Achieved(r, prpAddr, s, s, 0)
  {
    assert s.his.ran[|s.his.ran|..] == [];
  }

  /** The pages of the whole request lie in the buffer. */
  lemma RequestInBuffer(r: Accepted)
    ensures FirstByte(r) / r.g.ps + PagesFor(r.g.ps, r.size) <= |Addrs(r)|
  {
    DivModUnique(0, r.g.ps, 0, 0);
  }

  /** What one round of the loop needs to know of the place it starts from. */
  lemma RoundFacts(r: Accepted, p: Planned, at: Spot, k: nat)
    requires p == PlanOf(r) && at == SpotAfter(p, k) && k <= Rounds(p) && at.done < r.size
    ensures (r.size - at.done) % r.g.bs == 0
    ensures p.full > 0 ==>
              var n := Min(r.size - at.done, p.full);
              && p.Ok() && Progress(p, at, k) && 0 < n
              && 1 <= PagesFor(r.g.ps, n) && at.page + PagesFor(r.g.ps, n) <= |Addrs(r)|
              && PagesFor(r.g.ps, n) - 1 <= r.g.ps / 8
              && NextSpot(p, at, n) == SpotAfter(p, k + 1) && k + 1 <= Rounds(p)
  {
    if p.full > 0 {
      PlanOk(r);
      SpotProgress(p, k);
      NextChunk(p, at, k);
      RequestInBuffer(r);
      ChunkFitsList(r.g, Min(r.size - at.done, p.full));
      MultipleMinus(r.size, at.done, r.g.bs);
    } else {
      assert Rounds(p) == 0 && at.done == 0;
      assert r.size - at.done == r.size;
    }
  }

  /** One round of the loop. */
  method Round(qp: QueuePair, r: Accepted, maxXfer: nat, ioaddrs: seq<nat>, at: Spot,
               ghost p: Planned, ghost k: nat, ghost s: Sane, ghost u: Sane)
    returns (bytes: nat, next: Spot, ok: bool, polls: nat, ghost t: Sane)
    requires p == PlanOf(r) && maxXfer == MaxXfer(r.g) && ioaddrs == Addrs(r)
    requires at == SpotAfter(p, k) && k <= Rounds(p) && at.done < r.size
    requires qp.Valid() && qp.View() == u && Settled(u.his) && qp.prp.Length == r.g.ps / 8
    requires Achieved(r, qp.prpAddr, s, u, at.done)
    modifies qp.Footprint(), qp.meter
    ensures qp.meter.polls == old(qp.meter.polls) + polls
    ensures qp.Valid() && qp.Parts() == old(qp.Parts()) && qp.View() == t && Settled(t.his)
    ensures bytes == 0 <==> p.full == 0
    ensures bytes == 0 ==> polls == 0
    ensures bytes > 0 ==>
              && next == SpotAfter(p, k + 1) && at.done < next.done <= r.size && k + 1 <= Rounds(p)
              && polls <= 2 * (r.timeout * 1_000_000 + 1)
              && (ok ==> Achieved(r, qp.prpAddr, s, t, next.done))
              && Heard(u.his.got, t.his, ok) && Patient(u.his.got, t.his, ok, polls, r.timeout * 1_000_000)
    ensures Labelled(u) ==> Labelled(t)
  {
    RoundFacts(r, p, at, k);
    var c;
    bytes, c := CutChunk(r.g.ps, r.g.bs, maxXfer, r.size - at.done, at.lba, at.page);
    ok, polls, next, t := false, 0, at, u;
    if bytes > 0 {
      ok, polls, t := Carry(qp, r, ioaddrs, c, at.done, bytes, k, s, u);
      next := Spot(at.done + bytes, at.lba + c.blocks, at.page + c.pages);
    }
  }

  /** Carry out the chunk of n bytes that starts at byte `done`. */
  method Carry(qp: QueuePair, r: Accepted, ioaddrs: seq<nat>, c: Chunk, done: nat, n: nat,
               ghost k: nat, ghost s: Sane, ghost u: Sane)
    returns (ok: bool, polls: nat, ghost t: Sane)
    requires PlanOf(r).Ok() && Progress(PlanOf(r), Spot(done, c.lba, c.page), k) && done < r.size && ioaddrs == Addrs(r)
    requires n == Min(r.size - done, FullChunk(r.g)) && c.blocks == n / r.g.bs && c.pages == PagesFor(r.g.ps, n)
    requires 1 <= c.pages && c.page + c.pages <= |ioaddrs| && c.pages - 1 <= r.g.ps / 8
    requires qp.Valid() && qp.View() == u && Settled(u.his) && qp.prp.Length == r.g.ps / 8
    requires Achieved(r, qp.prpAddr, s, u, done)
    modifies qp.Footprint(), qp.meter
    ensures qp.meter.polls == old(qp.meter.polls) + polls
    ensures qp.Valid() && qp.Parts() == old(qp.Parts()) && qp.View() == t && Settled(t.his)
    ensures polls <= 2 * (r.timeout * 1_000_000 + 1) && Heard(u.his.got, t.his, ok)
    ensures Patient(u.his.got, t.his, ok, polls, r.timeout * 1_000_000)
    ensures ok ==> Achieved(r, qp.prpAddr, s, t, done + n)
    ensures Labelled(u) ==> Labelled(t)
  {
    ghost var b;
    ok, polls, t, b := RunChunk(qp, r.timeout * 1_000_000, r.opcode, r.ns, c, ioaddrs, u);
    if ok {
      AchievedStep(r, qp.prpAddr, s, u, t, b, c, done, n, k);
    }
  }

  method LimitOf(g: Geometry) returns (maxXfer: nat)
    ensures maxXfer == MaxXfer(g)
  {
    maxXfer := TransferLimit(g);
    LimitIs(g, maxXfer);
  }

  /** Where the loop starts: the first block and the first page. */
  method StartOf(bs: nat, ps: nat, fileOffset: nat, firstByte: nat) returns (lba: nat, page: nat)
    requires 0 < bs && 0 < ps
    ensures lba == fileOffset / bs && page == firstByte / ps
  {
    lba, page := fileOffset / bs, firstByte / ps;
  }

  /** The longest wait of one round: a drain and an answer. */
  function PollsPerRound(r: Request): nat {
    2 * (r.timeout * 1_000_000 + 1)
  }

  /** After k rounds, none of which failed. */
  ghost predicate Underway(r: Accepted, p: Planned, prpAddr: nat, s: State, t: State, at: Spot, k: nat, polls: nat)
    requires 0 < p.ps && 0 < p.bs
  {
    && at == SpotAfter(p, k) && at.done <= r.size && k <= Rounds(p) && polls <= Times(k, PollsPerRound(r))
    && Achieved(r, prpAddr, s, t, at.done) && Heard(s.his.got, t.his, true) && (Labelled(s) ==> Labelled(t))
  }

  /** One round, with what it means for the whole transfer; error 0 is success. */
  method Turn(qp: QueuePair, r: Accepted, maxXfer: nat, ioaddrs: seq<nat>, at: Spot, soFar: nat,
              ghost p: Planned, ghost k: nat, ghost s: Sane, ghost u: Sane)
    returns (error: int, next: Spot, polls: nat, ghost t: Sane)
    requires p == PlanOf(r) && maxXfer == MaxXfer(r.g) && ioaddrs == Addrs(r)
    requires qp.Valid() && qp.View() == u && Settled(u.his) && qp.prp.Length == r.g.ps / 8
    requires Underway(r, p, qp.prpAddr, s, u, at, k, soFar) && at.done < r.size
    modifies qp.Footprint(), qp.meter
    ensures qp.meter.polls - old(qp.meter.polls) == polls - soFar
    ensures qp.Valid() && qp.Parts() == old(qp.Parts()) && qp.View() == t && Settled(t.his)
    ensures (error == 0 || error == -EIO || error == -EINVAL) && (error == -EINVAL <==> p.full == 0)
    ensures error == 0 ==> Underway(r, p, qp.prpAddr, s, t, next, k + 1, polls) && at.done < next.done
    ensures error != 0 ==> polls <= Times(Rounds(p), PollsPerRound(r)) && (Labelled(s) ==> Labelled(t))
    ensures error == -EIO ==> Heard(s.his.got, t.his, false) && Patient(s.his.got, t.his, false, polls, r.timeout * 1_000_000)
  {
    var bytes: nat, ok, more: nat;
    bytes, next, ok, more, t := Round(qp, r, maxXfer, ioaddrs, at, p, k, s, u);
    polls := soFar + more;
    if bytes == 0 {
      TimesMono(k, Rounds(p), PollsPerRound(r));
      error := -EINVAL;
    } else {
      HeardOn(s.his.got, u.his, t.his, ok);
      PatientOn(s.his.got, u.his, t.his, ok, more, polls, r.timeout * 1_000_000);
      TimesMono(k + 1, Rounds(p), PollsPerRound(r));
      error := if ok then 0 else -EIO;
    }
  }

  method TransferAll(qp: QueuePair, r: Accepted, ghost p: Planned, ghost s: Sane)
    returns (result: int, polls: nat, ghost t: Sane)
    requires p == PlanOf(r)
    requires qp.Valid() && qp.View() == s && Settled(s.his) && qp.prp.Length == r.g.ps / 8
    modifies qp.Footprint(), qp.meter
    ensures qp.meter.polls == old(qp.meter.polls) + polls
    ensures qp.Valid() && qp.Parts() == old(qp.Parts()) && qp.View() == t && Settled(t.his)
    ensures result == r.size || result == -EIO || result == -EINVAL
    ensures result == -EINVAL <==> p.full == 0
    ensures result == r.size ==> Achieved(r, qp.prpAddr, s, t, r.size) && Heard(s.his.got, t.his, true)
    ensures result == -EIO ==> Heard(s.his.got, t.his, false) && Patient(s.his.got, t.his, false, polls, r.timeout * 1_000_000)
    ensures Labelled(s) ==> Labelled(t)
    ensures polls <= Times(Rounds(p), PollsPerRound(r))
  {
    ghost var rounds: nat := 0;
    AchievedAtStart(r, qp.prpAddr, s);
    var maxXfer := LimitOf(r.g);
    var lba, page := StartOf(r.g.bs, r.g.ps, r.fileOffset, FirstByte(r));
    var at, ioaddrs := Spot(0, lba, page), Addrs(r);
    polls, t := 0, s;
    while at.done < r.size
      invariant Underway(r, p, qp.prpAddr, s, t, at, rounds, polls) && (0 < at.done ==> p.full > 0)
      invariant qp.meter.polls == old(qp.meter.polls) + polls
      invariant qp.Valid() && qp.Parts() == old(qp.Parts()) && qp.View() == t && Settled(t.his)
      decreases r.size - at.done
    {
      result, at, polls, t := Turn(qp, r, maxXfer, ioaddrs, at, polls, p, rounds, s, t);
      if result != 0 {
        return;
      }
      rounds := rounds + 1;
    }
    TimesMono(rounds, Rounds(p), PollsPerRound(r));
    return at.done, polls, t;
  }

  /** The checks at the top of do_io, in their order; 0 if they pass. */
  method CheckRequest(r: Request) returns (error: int)
    ensures error == 0 || error == -EINVAL || error == -EIO
    ensures error == -EINVAL <==> Bad(r)
    ensures error == -EIO <==> !Bad(r) && r.registered.None? && r.mapped.None?
  {
    if r.nullArg || r.size == 0 || r.fileOffset < 0 || r.bufOffset < 0 || r.g.bs == 0 {
      return -EINVAL;
    }
    if r.fileOffset % r.g.bs != 0 || r.size % r.g.bs != 0 || r.g.ps == 0 {
      return -EINVAL;
    }
    if r.registered.Some? {
      if r.bufOffset % r.g.ps != 0 {
        return -EINVAL;
      }
      var needed := r.bufOffset / r.g.ps + (r.size + r.g.ps - 1) / r.g.ps;
      if needed > |r.registered.value| {
        return -EINVAL;
      }
    } else if r.mapped.None? {
      return -EIO;
    }
    return 0;
  }

  /**
   do_io.  On success, starting from an idle pair, the commands executed meanwhile move disk byte
   fileOffset + k against the bus address of buffer byte FirstByte + k, for every k below size, once
   and in order, and the pair is idle again.  Success is reported only if every completion read
   reports success, and an I/O error only if one does not or a command is left unanswered; whenever
   none is left unanswered the pair is idle again.  The wait is bounded whatever the controller does,
   and every announced command carries its default identifier.
   */
  method Transact(qp: QueuePair, r: Request, ghost s: Sane)
    returns (result: int, polls: nat, ghost t: Sane)
    requires Sound(r) && qp.Valid() && qp.View() == s && Settled(s.his) && qp.prp.Length == r.g.ps / 8
    modifies qp.Footprint(), qp.meter
    ensures qp.meter.polls == old(qp.meter.polls) + polls
    ensures qp.Valid() && qp.View() == t && Settled(t.his)
    ensures (Labelled(s) ==> Labelled(t)) && (|t.his.got| == |t.his.cmds| ==> Idle(t))
    ensures Bad(r) ==> result == -EINVAL && t == s && polls == 0
    ensures !Bad(r) && r.registered.None? && r.mapped.None? ==> result == -EIO && t == s && polls == 0
    ensures !Bad(r) && (r.registered.Some? || r.mapped.Some?) ==>
              && (result == r.size || result == -EIO || result == -EINVAL)
              && (result == -EINVAL <==> FullChunk(r.g) == 0)
              && polls <= Rounds(PlanOf(r)) * (2 * (r.timeout * 1_000_000 + 1))
              && (result == r.size ==> AllOk(s.his.got, t.his.got))
              && (result == -EIO && AllOk(s.his.got, t.his.got) ==> |t.his.got| < |t.his.cmds| && polls > r.timeout * 1_000_000)
    ensures result > 0 && Idle(s) && OnWire(r, qp.prpAddr) ==>
              && !Bad(r) && result == r.size
              && Idle(t) && s.his.ran <= t.his.ran
              && Transferred(r, qp.prpAddr, t.his.ran[|s.his.ran|..], r.size)
  {
    result := CheckRequest(r);
    polls, t := 0, s;
    if result != 0 {
      AnsweredIsIdle(s);
      return;
    }
    result, polls, t := TransferAll(qp, r, PlanOf(r), s);
    TimesIsProduct(Rounds(PlanOf(r)), 2 * (r.timeout * 1_000_000 + 1));
    AnsweredIsIdle(t);
  }
}
