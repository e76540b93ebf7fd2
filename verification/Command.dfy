/** Building a command's sixteen words, and reading the fields back as the controller does. */
module Command {
  import opened Arithmetic
  import opened Rings

  const WORD: nat := 0x1_0000_0000
  const NVM_IO_READ: nat := 2

  predicate Words(c: Cmd) {
    |c| == 16 && forall k :: 0 <= k < 16 ==> c[k] < WORD
  }

  function ZeroCmd(): (c: Cmd)
    ensures Words(c)
  {
    [0, 0, 0, 0, 0, 0, 0, 0, 0, 0, 0, 0, 0, 0, 0, 0]
  }

  /** nvm_cmd_header: words 0 and 1. */
  function Header(c: Cmd, cid: nat, opcode: nat, ns: nat): Cmd
    requires |c| == 16
  {
    c[0 := cid * 0x1_0000 + opcode % 0x80][1 := ns]
  }

  /** Word 0 with the bits of masks 0x0300 and 0xc000 cleared. */
  function ClearFusePsdt(w: nat): nat {
    w - ((w / 0x100) % 4) * 0x100 - ((w / 0x4000) % 4) * 0x4000
  }

  /** nvm_cmd_data_ptr: words 6 to 9, and the fuse and PRP-selection bits of word 0. */
  function DataPtr(c: Cmd, prp1: nat, prp2: nat): Cmd
    requires |c| == 16
  {
    c[0 := ClearFusePsdt(c[0])]
     [6 := prp1 % WORD][7 := (prp1 / WORD) % WORD]
     [8 := prp2 % WORD][9 := (prp2 / WORD) % WORD]
  }

  /** nvm_cmd_rw_blks: words 10 to 12; the count arrives cut to 16 bits and is stored zero-based. */
  function RwBlks(c: Cmd, lba: nat, blocks16: nat): Cmd
    requires |c| == 16
  {
    c[10 := lba % WORD][11 := (lba / WORD) % WORD]
     [12 := (c[12] / 0x1_0000) * 0x1_0000 + (blocks16 - 1) % 0x1_0000]
  }

  /** The command do_io leaves in a slot. */
  function RwCmd(cid: nat, opcode: nat, ns: nat, prp1: nat, prp2: nat, lba: nat, blocks: nat): (c: Cmd)
    ensures |c| == 16
  {
    RwBlks(DataPtr(Header(ZeroCmd(), cid, opcode, ns), prp1, prp2), lba, blocks % 0x1_0000)
  }

  /** The fields of a read or write command as the controller decodes them. */
  datatype Rw = Rw(cid: nat, opcode: nat, fusePsdt: nat, ns: nat, prp1: nat, prp2: nat, lba: nat, blocks: nat)

  function Decode(c: Cmd): Rw
    requires |c| == 16
  {
    Rw(c[0] / 0x1_0000, c[0] % 0x100, (c[0] / 0x100) % 0x100, c[1],
       c[6] + WORD * c[7], c[8] + WORD * c[9], c[10] + WORD * c[11], c[12] % 0x1_0000 + 1)
  }

  /** Of word 0, bits 8 and 9 and bits 14 and 15 are cleared and the rest is kept. */
  lemma FuseCleared(w: nat)
    ensures var v := ClearFusePsdt(w);
      && v % 0x100 == w % 0x100 && (v / 0x100) % 4 == 0 && (v / 0x400) % 0x10 == (w / 0x400) % 0x10
      && (v / 0x4000) % 4 == 0 && v / 0x1_0000 == w / 0x1_0000
  {
    var x := w / 0x100;
    var y := x / 4;
    var z := y / 0x10;
    var a, b, c, d, e := w % 0x100, x % 4, y % 0x10, z % 4, z / 4;
    Fields(w, a, b, c, d, e);
    Fields(ClearFusePsdt(w), a, 0, c, 0, e);
  }

  /** A word made of 8, 2, 4, 2 and 16 bits, from the lowest. */
  lemma Fields(w: nat, a: nat, b: nat, c: nat, d: nat, e: nat)
    requires a < 0x100 && b < 4 && c < 0x10 && d < 4 && w == a + 0x100 * b + 0x400 * c + 0x4000 * d + 0x1_0000 * e
    ensures w % 0x100 == a && (w / 0x100) % 4 == b && (w / 0x400) % 0x10 == c && (w / 0x4000) % 4 == d && w / 0x1_0000 == e
  {
    DivModUnique(w, 0x100, b + 4 * c + 0x40 * d + 0x100 * e, a);
    DivModUnique(w / 0x100, 4, c + 0x10 * d + 0x40 * e, b);
    DivModUnique(w, 0x400, c + 0x10 * d + 0x40 * e, a + 0x100 * b);
    DivModUnique(w / 0x400, 0x10, d + 4 * e, c);
    DivModUnique(w, 0x4000, d + 4 * e, a + 0x100 * b + 0x400 * c);
    DivModUnique(w / 0x4000, 4, e, d);
    DivModUnique(w, 0x1_0000, e, a + 0x100 * b + 0x400 * c + 0x4000 * d);
  }

  /** In any slot the data pointers read back, and of the other words only word 0's bits change. */
  lemma DataPtrKeeps(c: Cmd, prp1: nat, prp2: nat)
    requires |c| == 16 && prp1 < WORD * WORD && prp2 < WORD * WORD
    ensures var d := DataPtr(c, prp1, prp2);
      && |d| == 16 && d[6] + WORD * d[7] == prp1 && d[8] + WORD * d[9] == prp2 && d[0] == ClearFusePsdt(c[0])
      && (forall k :: 0 < k < 6 || 9 < k < 16 ==> d[k] == c[k])
  {
    SplitWord(prp1);
    SplitWord(prp2);
  }

  /** In any slot block address and count read back, and the upper half of word 12 and the other words stay. */
  lemma RwBlksKeeps(c: Cmd, lba: nat, blocks16: nat)
    requires |c| == 16 && lba < WORD * WORD && blocks16 < 0x1_0000
    ensures var d := RwBlks(c, lba, blocks16);
      && |d| == 16 && d[10] + WORD * d[11] == lba && d[12] / 0x1_0000 == c[12] / 0x1_0000
      && (d[12] % 0x1_0000 + 1) % 0x1_0000 == blocks16
      && (forall k :: 0 <= k < 10 || 12 < k < 16 ==> d[k] == c[k])
  {
    SplitWord(lba);
    DivModUnique(RwBlks(c, lba, blocks16)[12], 0x1_0000, c[12] / 0x1_0000, (blocks16 - 1) % 0x1_0000);
  }

  lemma SplitWord(x: nat)
    requires x < WORD * WORD
    ensures x % WORD + WORD * ((x / WORD) % WORD) == x
  {
    assert x / WORD < WORD;
  }

  lemma Word0(cid: nat, opcode: nat)
    requires cid < 0x1_0000
    ensures var w := cid * 0x1_0000 + opcode % 0x80;
            && ClearFusePsdt(w) == w < WORD
            && w / 0x1_0000 == cid && w % 0x100 == opcode % 0x80 && (w / 0x100) % 0x100 == 0
  {
    var low := opcode % 0x80;
    var w := cid * 0x1_0000 + low;
    DivModUnique(w, 0x1_0000, cid, low);
    DivModUnique(w, 0x100, cid * 0x100, low);
    DivModUnique(w, 0x4000, cid * 4, low);
    DivModUnique(cid * 0x100, 4, cid * 0x40, 0);
    DivModUnique(cid * 4, 4, cid, 0);
    DivModUnique(cid * 0x100, 0x100, cid, 0);
  }

  lemma Word12(blocks: nat)
    ensures ((blocks % 0x1_0000) - 1) % 0x1_0000 + 1 == blocks <==> 1 <= blocks <= 0x1_0000
  {
    var b := blocks % 0x1_0000;
    if b == 0 {
      DivModUnique(-1, 0x1_0000, -1, 0xffff);
    }
  }

  /** All words of the built command. */
  lemma RwCmdWords(cid: nat, opcode: nat, ns: nat, prp1: nat, prp2: nat, lba: nat, blocks: nat)
    requires cid < 0x1_0000
    ensures RwCmd(cid, opcode, ns, prp1, prp2, lba, blocks) ==
            [cid * 0x1_0000 + opcode % 0x80, ns, 0, 0, 0, 0,
             prp1 % WORD, (prp1 / WORD) % WORD, prp2 % WORD, (prp2 / WORD) % WORD,
             lba % WORD, (lba / WORD) % WORD, ((blocks % 0x1_0000) - 1) % 0x1_0000, 0, 0, 0]
  {
    Word0(cid, opcode);
  }

  /**
   Decoding gives back every field exactly when the opcode fits seven bits and the count is between
   one block and 65536 blocks.
   */
  lemma RwRoundTrip(cid: nat, opcode: nat, ns: nat, prp1: nat, prp2: nat, lba: nat, blocks: nat)
    requires cid < 0x1_0000 && opcode < 0x100 && ns < WORD
    requires prp1 < WORD * WORD && prp2 < WORD * WORD && lba < WORD * WORD
    ensures Decode(RwCmd(cid, opcode, ns, prp1, prp2, lba, blocks))
              == Rw(cid, opcode, 0, ns, prp1, prp2, lba, blocks)
       <==> opcode < 0x80 && 1 <= blocks <= 0x1_0000
  {
    RwCmdWords(cid, opcode, ns, prp1, prp2, lba, blocks);
    Word0(cid, opcode);
    SplitWord(prp1);
    SplitWord(prp2);
    SplitWord(lba);
    Word12(blocks);
    CutNothing(((blocks % 0x1_0000) - 1) % 0x1_0000);
  }

  /** Two counts that differ by a multiple of 65536 blocks become the same command. */
  lemma LostBlocks(cid: nat, opcode: nat, ns: nat, prp1: nat, prp2: nat, lba: nat, blocks: nat, k: nat)
    ensures RwCmd(cid, opcode, ns, prp1, prp2, lba, blocks)
         == RwCmd(cid, opcode, ns, prp1, prp2, lba, blocks + k * 0x1_0000)
  {
    var q, r := blocks / 0x1_0000, blocks % 0x1_0000;
    DivModUnique(blocks + k * 0x1_0000, 0x1_0000, q + k, r);
  }

  // ------------------------------------------------------- the writes in queue memory

  method CmdHeader(mem: array<Cmd>, slot: nat, cid: nat, opcode: nat, ns: nat)
    requires slot < mem.Length && |mem[slot]| == 16
    modifies mem
    ensures mem[..] == old(mem[..])[slot := Header(old(mem[slot]), cid, opcode, ns)]
  {
    mem[slot] := mem[slot][0 := cid * 0x1_0000 + opcode % 0x80];
    mem[slot] := mem[slot][1 := ns];
  }

  method CmdDataPtr(mem: array<Cmd>, slot: nat, prp1: nat, prp2: nat)
    requires slot < mem.Length && |mem[slot]| == 16
    modifies mem
    ensures mem[..] == old(mem[..])[slot := DataPtr(old(mem[slot]), prp1, prp2)]
  {
    mem[slot] := mem[slot][0 := ClearFusePsdt(mem[slot][0])];
    mem[slot] := mem[slot][6 := prp1 % WORD][7 := (prp1 / WORD) % WORD];
    mem[slot] := mem[slot][8 := prp2 % WORD][9 := (prp2 / WORD) % WORD];
  }

  method CmdRwBlks(mem: array<Cmd>, slot: nat, lba: nat, blocks16: nat)
    requires slot < mem.Length && |mem[slot]| == 16
    modifies mem
    ensures mem[..] == old(mem[..])[slot := RwBlks(old(mem[slot]), lba, blocks16)]
  {
    mem[slot] := mem[slot][10 := lba % WORD][11 := (lba / WORD) % WORD];
    mem[slot] := mem[slot][12 := (mem[slot][12] / 0x1_0000) * 0x1_0000 + (blocks16 - 1) % 0x1_0000];
  }
}
