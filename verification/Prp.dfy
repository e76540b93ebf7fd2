/**
 Physical region pages: the builder that fills and chains PRP lists, the controller that walks
 them (section 4.3 of NVM Express 1.3), and that walking what was built gives the pages back.
 */
module Prp {
  import opened Arithmetic
  import opened Rings
  import opened Command

  /** A single-page PRP list; its page holds page_size / 8 entries. */
  class PrpList {
    const vaddr: array<nat>
    const ioaddr: nat

    constructor (memory: array<nat>, address: nat)
      ensures vaddr == memory && ioaddr == address
    {
      vaddr := memory;
      ioaddr := address;
    }
  }

  // ------------------------------------------------------------------ the controller

  /** The first n pages of the list at addr; the last entry points on when more than c remain. */
  function WalkList(mem: map<nat, seq<nat>>, c: nat, addr: nat, n: nat): Option<seq<nat>>
    requires 2 <= c
    decreases n
  {
    if addr !in mem || |mem[addr]| < c then None
    else if n <= c then Some(mem[addr][..n])
    else
      var rest := WalkList(mem, c, mem[addr][c - 1], n - (c - 1));
      if rest.None? then None else Some(mem[addr][..c - 1] + rest.value)
  }

  /** The pages of a transfer of `count` pages described by the two pointers of a command. */
  function Walk(mem: map<nat, seq<nat>>, c: nat, prp1: nat, prp2: nat, count: nat): Option<seq<nat>>
    requires 2 <= c
  {
    if count == 0 then Some([])
    else if count == 1 then Some([prp1])
    else if count == 2 then Some([prp1, prp2])
    else
      var rest := WalkList(mem, c, prp2, count - 1);
      if rest.None? then None else Some([prp1] + rest.value)
  }

  // ------------------------------------------------------------- how much is described

  /** Entries nvm_prp_list uses: all pages, or all but the last entry when pages remain. */
  function ListEntries(c: nat, n: nat): nat
    requires 1 <= c
  {
    if n > c then c - 1 else n
  }

  /** Pages described by k full lists that each point on. */
  function Off(k: nat, c: nat): nat
    requires 1 <= c
  {
    if k == 0 then 0 else Off(k - 1, c) + (c - 1)
  }

  lemma {:induction false} OffIsProduct(k: nat, c: nat)
    requires 1 <= c
    ensures Off(k, c) == k * (c - 1)
  {
    if k > 0 {
      OffIsProduct(k - 1, c);
      assert k * (c - 1) == (k - 1) * (c - 1) + (c - 1);
    }
  }

  lemma {:induction false} OffMonotone(j: nat, k: nat, c: nat)
    requires j <= k && 1 <= c
    ensures Off(j, c) <= Off(k, c)
  {
    if j < k {
      OffMonotone(j, k - 1, c);
    }
  }

  function ChainEntries(lists: nat, c: nat, n: nat): nat
    requires 1 <= c
  {
    if lists == 0 then 0 else if n <= Off(lists, c) + 1 then n else Off(lists, c)
  }

  /** The count nvm_prp_list_chain returns, in closed form. */
  lemma ChainEntriesClosed(lists: nat, c: nat, n: nat)
    requires 1 <= lists && 1 <= c
    ensures ChainEntries(lists, c, n) == if n <= lists * (c - 1) + 1 then n else lists * (c - 1)
  {
    OffIsProduct(lists, c);
  }

  function DataEntries(lists: nat, c: nat, n: nat): nat
    requires 1 <= c
  {
    if n <= 2 then n else if lists == 0 then 2 else 1 + ChainEntries(lists, c, n - 1)
  }

  // ---------------------------------------------------------------- contents of lists

  /** The lists' pages are distinct, for the host and on the bus, and hold c entries each. */
  ghost predicate Separate(lists: seq<PrpList>, c: nat) {
    && (forall i :: 0 <= i < |lists| ==> lists[i].vaddr.Length == c)
    && (forall i, j :: 0 <= i < j < |lists| ==>
          lists[i].vaddr != lists[j].vaddr && lists[i].ioaddr != lists[j].ioaddr)
  }

  ghost function Pages(lists: seq<PrpList>): set<object> {
    set i | 0 <= i < |lists| :: lists[i].vaddr
  }

  /** What the controller sees at the lists' bus addresses. */
  ghost function Memory(lists: seq<PrpList>): map<nat, seq<nat>>
    reads Pages(lists)
  {
    if lists == [] then map[]
    else
      var last := lists[|lists| - 1];
      assert forall i :: 0 <= i < |lists| - 1 ==> lists[..|lists| - 1][i] == lists[i];
      Memory(lists[..|lists| - 1])[last.ioaddr := last.vaddr[..]]
  }

  lemma {:induction false} MemoryAt(lists: seq<PrpList>, c: nat, i: nat)
    requires Separate(lists, c) && i < |lists|
    ensures lists[i].ioaddr in Memory(lists) && Memory(lists)[lists[i].ioaddr] == lists[i].vaddr[..]
  {
    if i < |lists| - 1 {
      MemoryAt(lists[..|lists| - 1], c, i);
    }
  }

  /** Lists 0..m-1 hold the first n pages: all but the last are full and point on. */
  ghost predicate Chained(lists: seq<PrpList>, c: nat, m: nat, ioaddrs: seq<nat>, n: nat)
    requires 1 <= c
    reads Pages(lists)
  {
    && 1 <= m <= |lists| && n <= |ioaddrs|
    && (forall j :: 0 <= j < m ==> lists[j].vaddr.Length == c)
    && (forall j :: 0 <= j < m - 1 ==> FullList(lists, c, j, ioaddrs))
    && Off(m - 1, c) <= n <= Off(m - 1, c) + c
    && lists[m - 1].vaddr[..n - Off(m - 1, c)] == ioaddrs[Off(m - 1, c)..n]
  }

  ghost predicate FullList(lists: seq<PrpList>, c: nat, j: nat, ioaddrs: seq<nat>)
    requires 1 <= c && j + 1 < |lists|
    reads lists[j].vaddr
  {
    && lists[j].vaddr.Length == c
    && Off(j, c) + (c - 1) <= |ioaddrs|
    && lists[j].vaddr[..c - 1] == ioaddrs[Off(j, c)..Off(j, c) + (c - 1)]
    && lists[j].vaddr[c - 1] == lists[j + 1].ioaddr
  }

  /** Walking a chain from its k-th list yields the pages from there on. */
  lemma {:induction false} WalkChain(lists: seq<PrpList>, c: nat, m: nat, ioaddrs: seq<nat>, n: nat, k: nat)
    requires 2 <= c && Separate(lists, c) && Chained(lists, c, m, ioaddrs, n)
    requires m >= 2 ==> n >= Off(m - 1, c) + 2
    requires k < m
    ensures Off(k, c) <= n
    ensures WalkList(Memory(lists), c, lists[k].ioaddr, n - Off(k, c)) == Some(ioaddrs[Off(k, c)..n])
    decreases m - k
  {
    MemoryAt(lists, c, k);
    if k < m - 1 {
      assert FullList(lists, c, k, ioaddrs);
      WalkChain(lists, c, m, ioaddrs, n, k + 1);
      OffMonotone(k + 1, m - 1, c);
      var o := Off(k, c);
      assert Off(k + 1, c) == o + (c - 1);
      assert ioaddrs[o..n] == ioaddrs[o..o + (c - 1)] + ioaddrs[o + (c - 1)..n];
    }
  }

  /** The pointers and the single list that describe `ios`, when one list has room for them. */
  predicate OneListBuilt(ios: seq<nat>, listAddr: nat, list: seq<nat>, prp1: nat, prp2: nat) {
    && |ios| >= 1 && prp1 == ios[0]
    && prp2 == (if |ios| == 1 then 0 else if |ios| == 2 then ios[1] else listAddr)
    && (|ios| > 2 ==> |ios| - 1 <= |list| && list[..|ios| - 1] == ios[1..])
  }

  /** Walking pointers and list built for some pages gives exactly those pages. */
  lemma OneListWalk(ios: seq<nat>, c: nat, listAddr: nat, list: seq<nat>, prp1: nat, prp2: nat)
    requires 2 <= c == |list| && OneListBuilt(ios, listAddr, list, prp1, prp2)
    ensures Walk(map[listAddr := list], c, prp1, prp2, |ios|) == Some(ios)
  {
    if |ios| == 1 {
      assert ios == [ios[0]];
    } else if |ios| == 2 {
      assert ios == [ios[0], ios[1]];
    } else {
      assert ios == [ios[0]] + ios[1..];
    }
  }

  // ------------------------------------------------------------------- the builders

  /** nvm_prp_list */
  method FillList(list: PrpList, nPages: nat, ioaddrs: seq<nat>) returns (n: nat)
    requires 1 <= list.vaddr.Length && nPages <= |ioaddrs|
    modifies list.vaddr
    ensures n == ListEntries(list.vaddr.Length, nPages)
    ensures list.vaddr[..] == ioaddrs[..n] + old(list.vaddr[..])[n..]
  {
    if nPages == 0 {
      return 0;
    }
    var count := list.vaddr.Length;
    if nPages > count {
      count := count - 1;
    } else {
      count := nPages;
    }
    n := 0;
    while n < count
      invariant 0 <= n <= count
      invariant forall k :: 0 <= k < n ==> list.vaddr[k] == ioaddrs[k]
      invariant forall k :: n <= k < list.vaddr.Length ==> list.vaddr[k] == old(list.vaddr[k])
    {
      list.vaddr[n] := ioaddrs[n];
      n := n + 1;
    }
  }

  /** nvm_prp_list_chain: returns the pages described, and chains the lists it used. */
  method FillChain(lists: seq<PrpList>, c: nat, nPages: nat, ioaddrs: seq<nat>) returns (n: nat, ghost m: nat)
    requires 2 <= c && Separate(lists, c) && nPages <= |ioaddrs|
    modifies Pages(lists)
    ensures n == ChainEntries(|lists|, c, nPages)
    ensures |lists| > 0 ==> Chained(lists, c, m, ioaddrs, n)
    ensures m >= 2 && (c >= 3 || n == nPages) ==> n >= Off(m - 1, c) + 2
    ensures |lists| > 0 && n < nPages ==> m == |lists|
  {
    if |lists| == 0 {
      return 0, 0;
    }
    n := StartChain(lists, c, nPages, ioaddrs);
    var listPrps := n;
    m := 1;
    var i := 1;
    while i < |lists| && n < nPages
      invariant 1 <= i <= |lists| && m == i
      invariant n <= nPages
      invariant n == Off(i - 1, c) + listPrps && listPrps == ListEntries(c, nPages - Off(i - 1, c))
      invariant Chained(lists, c, m, ioaddrs, n)
      invariant m >= 2 ==> nPages - Off(m - 1, c) >= 2
    {
      n, listPrps := ExtendChain(lists, c, i, nPages, ioaddrs, n, listPrps);
      i := i + 1;
      m := i;
    }
    ChainTotal(|lists|, c, nPages, i, n);
  }

  method StartChain(lists: seq<PrpList>, c: nat, nPages: nat, ioaddrs: seq<nat>) returns (n: nat)
    requires 2 <= c && Separate(lists, c) && nPages <= |ioaddrs| && |lists| > 0
    modifies Pages(lists)
    ensures n == ListEntries(c, nPages) && Chained(lists, c, 1, ioaddrs, n)
  {
    assert lists[0].vaddr in Pages(lists);
    n := FillList(lists[0], nPages, ioaddrs);
    assert lists[0].vaddr[..n] == lists[0].vaddr[..][..n];
  }

  /** One round of the chaining loop: link list i behind list i - 1 and fill it. */
  method ExtendChain(lists: seq<PrpList>, c: nat, i: nat, nPages: nat, ioaddrs: seq<nat>, n: nat, listPrps: nat)
    returns (n': nat, listPrps': nat)
    requires 2 <= c && Separate(lists, c) && 1 <= i < |lists|
    requires n < nPages <= |ioaddrs|
    requires n == Off(i - 1, c) + listPrps && listPrps == ListEntries(c, nPages - Off(i - 1, c))
    requires Chained(lists, c, i, ioaddrs, n)
    modifies Pages(lists)
    ensures n' == Off(i, c) + listPrps' <= nPages && listPrps' == ListEntries(c, nPages - Off(i, c))
    ensures nPages - Off(i, c) >= 2
    ensures Chained(lists, c, i + 1, ioaddrs, n')
  {
    assert listPrps == c - 1 && n == Off(i, c);
    assert lists[i - 1].vaddr in Pages(lists) && lists[i].vaddr in Pages(lists);
    lists[i - 1].vaddr[listPrps] := lists[i].ioaddr;
    assert FullList(lists, c, i - 1, ioaddrs);
    listPrps' := FillList(lists[i], nPages - n, ioaddrs[n..]);
    n' := n + listPrps';
    assert lists[i].vaddr[..listPrps'] == ioaddrs[n..][..listPrps'] == ioaddrs[n..n'];
    forall j | 0 <= j < i
      ensures FullList(lists, c, j, ioaddrs)
    {
      assert lists[j].vaddr != lists[i].vaddr;
      if j < i - 1 {
        assert old(FullList(lists, c, j, ioaddrs));
        assert lists[j].vaddr != lists[i - 1].vaddr;
      }
    }
  }

  lemma ChainTotal(count: nat, c: nat, nPages: nat, i: nat, n: nat)
    requires 2 <= c && 1 <= i <= count && (i < count ==> n >= nPages)
    requires n <= nPages && Off(i - 1, c) <= nPages && n == Off(i - 1, c) + ListEntries(c, nPages - Off(i - 1, c))
    ensures n == ChainEntries(count, c, nPages)
    ensures nPages - Off(i - 1, c) >= 2 && (c >= 3 || n == nPages) ==> n >= Off(i - 1, c) + 2
  {
    OffMonotone(i, count, c);
    assert Off(i, c) == Off(i - 1, c) + (c - 1);
  }

  lemma ChainAtLeastTwo(lists: nat, c: nat, n: nat)
    requires 1 <= lists && 2 <= c && 2 <= n
    ensures 1 <= ChainEntries(lists, c, n) <= n
    ensures c >= 3 || ChainEntries(lists, c, n) == n ==> 2 <= ChainEntries(lists, c, n)
    ensures c == 2 && ChainEntries(lists, c, n) < n ==> ChainEntries(lists, c, n) == lists
  {
    OffAtLeast(lists, c);
    OffIsProduct(lists, c);
  }

  lemma OffAtLeast(k: nat, c: nat)
    requires 1 <= c
    ensures k >= 1 ==> Off(k, c) >= c - 1
  {
  }

  /** Lists of two entries have room for one page and a pointer; a chain of them must not be cut short. */
  predicate RoomEnough(lists: nat, c: nat, nPages: nat, count: nat) {
    c >= 3 || count == nPages || lists == 0
  }

  /** No list lies at the address of a data page. */
  ghost predicate ListsElsewhere(lists: seq<PrpList>, ioaddrs: seq<nat>) {
    forall i :: 0 <= i < |lists| ==> lists[i].ioaddr !in ioaddrs
  }

  /**
   The part of nvm_cmd_data that chooses the two pointers and writes the lists.  The walk gives the
   leading pages exactly when there is room enough.
   */
  method DataPointers(lists: seq<PrpList>, c: nat, nPages: nat, ioaddrs: seq<nat>)
    returns (count: nat, dptr0: nat, dptr1: nat)
    requires 2 <= c && Separate(lists, c) && 1 <= nPages <= |ioaddrs|
    modifies Pages(lists)
    ensures count == DataEntries(|lists|, c, nPages) <= nPages
    ensures RoomEnough(|lists|, c, nPages, count) ==> Walk(Memory(lists), c, dptr0, dptr1, count) == Some(ioaddrs[..count])
    ensures !RoomEnough(|lists|, c, nPages, count) && ListsElsewhere(lists, ioaddrs) ==>
              Walk(Memory(lists), c, dptr0, dptr1, count) != Some(ioaddrs[..count])
    ensures |lists| != 0 && nPages - 1 <= c ==>
              OneListBuilt(ioaddrs[..nPages], lists[0].ioaddr, lists[0].vaddr[..], dptr0, dptr1)
  {
    count, dptr0, dptr1 := 1, ioaddrs[0], 0;
    assert ioaddrs[..1] == [ioaddrs[0]];
    if nPages > 2 && |lists| != 0 {
      var prps := ListsFor(lists, c, nPages, ioaddrs);
      count := count + prps;
      dptr1 := lists[0].ioaddr;
      PointToLists(lists, c, nPages, ioaddrs, prps);
      assert ioaddrs[..nPages][1..] == ioaddrs[1..nPages];
      assert nPages - 1 <= c ==> lists[0].vaddr[..][..nPages - 1] == lists[0].vaddr[..nPages - 1];
    } else if nPages >= 2 {
      dptr1 := ioaddrs[1];
      count := 2;
      assert ioaddrs[..2] == [ioaddrs[0], ioaddrs[1]];
    }
  }

  /** What walking the lists gives: the pages, or for a chain of two-entry lists cut short a list's address at the end. */
  ghost predicate Listed(lists: seq<PrpList>, c: nat, nPages: nat, ioaddrs: seq<nat>, prps: nat)
    requires 2 <= c
    reads Pages(lists)
  {
    && 1 <= prps <= nPages - 1 < |ioaddrs| && |lists| > 0
    && (c >= 3 || prps == nPages - 1 ==>
          2 <= prps && WalkList(Memory(lists), c, lists[0].ioaddr, prps) == Some(ioaddrs[1..prps + 1]))
    && (c == 2 && prps < nPages - 1 ==>
          && prps == |lists|
          && (2 <= prps ==> WalkList(Memory(lists), 2, lists[0].ioaddr, prps) == Some(ioaddrs[1..prps] + [lists[prps - 1].ioaddr])))
  }

  lemma PointToLists(lists: seq<PrpList>, c: nat, nPages: nat, ioaddrs: seq<nat>, prps: nat)
    requires 2 <= c && Listed(lists, c, nPages, ioaddrs, prps)
    ensures RoomEnough(|lists|, c, nPages, prps + 1) ==>
              Walk(Memory(lists), c, ioaddrs[0], lists[0].ioaddr, prps + 1) == Some(ioaddrs[..prps + 1])
    ensures !RoomEnough(|lists|, c, nPages, prps + 1) && ListsElsewhere(lists, ioaddrs) ==>
              Walk(Memory(lists), c, ioaddrs[0], lists[0].ioaddr, prps + 1) != Some(ioaddrs[..prps + 1])
  {
    assert ioaddrs[..prps + 1] == [ioaddrs[0]] + ioaddrs[1..prps + 1];
    if !RoomEnough(|lists|, c, nPages, prps + 1) && ListsElsewhere(lists, ioaddrs) {
      assert lists[prps - 1].ioaddr != ioaddrs[prps];
      var w := [ioaddrs[0]] + if prps == 1 then [lists[0].ioaddr] else ioaddrs[1..prps] + [lists[prps - 1].ioaddr];
      assert w[prps] == lists[prps - 1].ioaddr != ioaddrs[..prps + 1][prps];
    }
  }

  method ListsFor(lists: seq<PrpList>, c: nat, nPages: nat, ioaddrs: seq<nat>) returns (prps: nat)
    requires 2 <= c && Separate(lists, c) && 2 < nPages <= |ioaddrs| && |lists| != 0
    modifies Pages(lists)
    ensures prps == ChainEntries(|lists|, c, nPages - 1) && Listed(lists, c, nPages, ioaddrs, prps)
    ensures nPages - 1 <= c ==> lists[0].vaddr[..nPages - 1] == ioaddrs[1..nPages]
  {
    ghost var m;
    prps, m := FillChain(lists, c, nPages - 1, ioaddrs[1..]);
    ChainAtLeastTwo(|lists|, c, nPages - 1);
    assert ioaddrs[1..][..prps] == ioaddrs[1..prps + 1];
    if c >= 3 || prps == nPages - 1 {
      WalkChain(lists, c, m, ioaddrs[1..], prps, 0);
    } else if prps >= 2 {
      WalkCutShort(lists, prps, ioaddrs[1..], 0);
      assert ioaddrs[1..][..prps - 1] == ioaddrs[1..prps];
    }
    if nPages - 1 <= c {
      FirstListHolds(lists, c, m, ioaddrs, nPages, prps);
    }
  }

  /** In a chain of two-entry lists that all hold one page, the last pointer passes for a page. */
  lemma {:induction false} WalkCutShort(lists: seq<PrpList>, m: nat, ioaddrs: seq<nat>, k: nat)
    requires Separate(lists, 2) && Chained(lists, 2, m, ioaddrs, m) && m == |lists| && k + 2 <= m
    ensures WalkList(Memory(lists), 2, lists[k].ioaddr, m - k) == Some(ioaddrs[k..m - 1] + [lists[m - 1].ioaddr])
    decreases m - k
  {
    OffIsProduct(k, 2);
    MemoryAt(lists, 2, k);
    assert FullList(lists, 2, k, ioaddrs);
    assert lists[k].vaddr[..][0] == lists[k].vaddr[..1][0] == ioaddrs[k];
    if k + 2 < m {
      WalkCutShort(lists, m, ioaddrs, k + 1);
      assert ioaddrs[k..m - 1] == [ioaddrs[k]] + ioaddrs[k + 1..m - 1];
      assert lists[k].vaddr[..][..1] == [ioaddrs[k]] && lists[k].vaddr[..][1] == lists[k + 1].ioaddr;
      var end := [lists[m - 1].ioaddr];
      assert [ioaddrs[k]] + (ioaddrs[k + 1..m - 1] + end) == ioaddrs[k..m - 1] + end;
    } else {
      assert ioaddrs[k..m - 1] == [ioaddrs[k]];
      assert lists[k].vaddr[..][..2] == ioaddrs[k..m - 1] + [lists[m - 1].ioaddr];
    }
  }

  lemma FirstListHolds(lists: seq<PrpList>, c: nat, m: nat, ioaddrs: seq<nat>, nPages: nat, prps: nat)
    requires 2 <= c && 2 < nPages <= |ioaddrs| && nPages - 1 <= c && |lists| != 0
    requires prps == ChainEntries(|lists|, c, nPages - 1) && Chained(lists, c, m, ioaddrs[1..], prps)
    requires m >= 2 ==> prps >= Off(m - 1, c) + 2
    ensures lists[0].vaddr.Length == c && lists[0].vaddr[..nPages - 1] == ioaddrs[1..nPages]
  {
    OffAtLeast(|lists|, c);
    OffAtLeast(m - 1, c);
    assert ioaddrs[1..][..prps] == ioaddrs[1..nPages];
  }

  /** nvm_cmd_data: writes the command's two pointers and the lists they need. */
  method CmdData(mem: array<Cmd>, slot: nat, lists: seq<PrpList>, c: nat, nPages: nat, ioaddrs: seq<nat>)
    returns (count: nat)
    requires slot < mem.Length && |mem[slot]| == 16
    requires 2 <= c && Separate(lists, c) && nPages <= |ioaddrs| && mem !in Pages(lists)
    modifies mem, Pages(lists)
    ensures count == DataEntries(|lists|, c, nPages)
    ensures nPages == 0 ==> mem[..] == old(mem[..])
    ensures nPages > 0 ==>
              exists prp1: nat, prp2: nat ::
                && mem[..] == old(mem[..])[slot := DataPtr(old(mem[slot]), prp1, prp2)]
                && (RoomEnough(|lists|, c, nPages, count) ==> Walk(Memory(lists), c, prp1, prp2, count) == Some(ioaddrs[..count]))
                && (!RoomEnough(|lists|, c, nPages, count) && ListsElsewhere(lists, ioaddrs) ==>
                      Walk(Memory(lists), c, prp1, prp2, count) != Some(ioaddrs[..count]))
  {
    if nPages == 0 {
      return 0;
    }
    var dptr0, dptr1;
    count, dptr0, dptr1 := DataPointers(lists, c, nPages, ioaddrs);
    CmdDataPtr(mem, slot, dptr0, dptr1);
  }
}
