/**
 Who keeps what alive in libnvm: controller handles, mapping descriptors, DMA containers and admin
 references, with their nested reference counts.  A state is balanced when every count equals the
 number of its holders, counting references that a running call still keeps in a local variable.
 */
module Ownership {
  import opened Arithmetic

  type Id = nat  // an address returned by malloc; never handed out twice here

  datatype Ctrl = Ctrl(count: nat, device: bool)                // device: the handle owns a device
  datatype MapDesc = MapDesc(count: nat, ctrl: Id, mapped: bool)  // mapped: the unmap callback is set
  datatype Box = Box(desc: Id)                                  // a DMA container and its map
  datatype Ref = Ref(ctrl: Id, qmem: Option<Id>)                // an admin reference, its queue memory

  datatype Event =
    | RangeUnmapped(ctrl: Id, desc: Id)   // the device's unmap callback ran
    | RangeReleased(ctrl: Id, desc: Id)   // the address range descriptor was released
    | DeviceReleased(ctrl: Id)            // the device was closed

  datatype Heap = Heap(
    ctrls: map<Id, Ctrl>, maps: map<Id, MapDesc>, boxes: map<Id, Box>, refs: map<Id, Ref>,
    users: set<Id>,   // controllers whose user handle is live
    next: Id, log: seq<Event>)

  // ---------------------------------------------------------------------- counting

  function MapsOf(maps: map<Id, MapDesc>, c: Id): set<Id> {
    set m | m in maps && maps[m].ctrl == c
  }

  function RefsOf(refs: map<Id, Ref>, c: Id): set<Id> {
    set r | r in refs && refs[r].ctrl == c
  }

  function BoxesOf(boxes: map<Id, Box>, m: Id): set<Id> {
    set k | k in boxes && boxes[k].desc == m
  }

  function Holders(maps: map<Id, MapDesc>, refs: map<Id, Ref>, users: set<Id>, held: multiset<Id>, c: Id): nat {
    |MapsOf(maps, c)| + |RefsOf(refs, c)| + (if c in users then 1 else 0) + held[c]
  }

  predicate CtrlPointersLive(ctrls: map<Id, Ctrl>, maps: map<Id, MapDesc>, refs: map<Id, Ref>,
                             users: set<Id>, held: multiset<Id>)
  {
    && (forall m :: m in maps ==> maps[m].ctrl in ctrls)
    && (forall r :: r in refs ==> refs[r].ctrl in ctrls)
    && users <= ctrls.Keys && (forall c :: c in held ==> c in ctrls)
  }

  /** Every controller count equals its holders, and no holder points to a freed controller. */
  predicate CtrlSide(ctrls: map<Id, Ctrl>, maps: map<Id, MapDesc>, refs: map<Id, Ref>,
                     users: set<Id>, held: multiset<Id>)
  {
    && CtrlPointersLive(ctrls, maps, refs, users, held)
    && (forall c :: c in ctrls ==> 0 < ctrls[c].count == Holders(maps, refs, users, held, c))
  }

  predicate MapPointersLive(maps: map<Id, MapDesc>, boxes: map<Id, Box>, held: multiset<Id>) {
    && (forall k :: k in boxes ==> boxes[k].desc in maps)
    && (forall m :: m in held ==> m in maps)
  }

  /** Every map count equals its containers, and no container points to a freed map. */
  predicate MapSide(maps: map<Id, MapDesc>, boxes: map<Id, Box>, held: multiset<Id>) {
    && MapPointersLive(maps, boxes, held)
    && (forall m :: m in maps ==> 0 < maps[m].count == |BoxesOf(boxes, m)| + held[m])
  }

  predicate Below<T>(m: map<Id, T>, next: Id) {
    forall x :: x in m ==> x < next
  }

  predicate Fresh(h: Heap) {
    Below(h.ctrls, h.next) && Below(h.maps, h.next) && Below(h.boxes, h.next) && Below(h.refs, h.next)
  }

  /** Counts equal holders; hc and hm are the controller and map references a running call keeps. */
  predicate Balanced(h: Heap, hc: multiset<Id>, hm: multiset<Id>) {
    && CtrlSide(h.ctrls, h.maps, h.refs, h.users, hc)
    && MapSide(h.maps, h.boxes, hm)
    && Fresh(h)
  }

  // ----------------------------------------------------------------------- history

  /** A device is released once and last; a range is unmapped once and released once, in that order. */
  predicate LogOk(h: Heap) {
    && (forall i :: 0 <= i < |h.log| ==> Past(h, h.log[i]))
    && (forall i, j :: 0 <= i < j < |h.log| ==> Follows(h.log[i], h.log[j]))
  }

  /** What an event says is gone is gone for good. */
  predicate Past(h: Heap, e: Event) {
    match e
    case DeviceReleased(c) => c !in h.ctrls && c < h.next
    case RangeUnmapped(_, m) => m !in h.maps && m < h.next
    case RangeReleased(_, m) => m !in h.maps && m < h.next
  }

  predicate Follows(a: Event, b: Event) {
    match a
    case DeviceReleased(c) => b.ctrl != c
    case RangeUnmapped(_, m) => b.RangeUnmapped? ==> b.desc != m
    case RangeReleased(_, m) => !b.DeviceReleased? ==> b.desc != m
  }

  /** What an event says is gone was there, mapped if it was unmapped, and with a device if that was closed. */
  predicate Due(h: Heap, e: Event) {
    match e
    case DeviceReleased(c) => c < h.next ==> c in h.ctrls && h.ctrls[c].device
    case RangeUnmapped(c, m) => m < h.next ==> m in h.maps && h.maps[m].ctrl == c && h.maps[m].mapped
    case RangeReleased(c, m) => m < h.next ==> m in h.maps && h.maps[m].ctrl == c
  }

  predicate AllDue(h: Heap, log: seq<Event>) {
    forall i :: |h.log| <= i < |log| ==> Due(h, log[i])
  }

  /** From h to h': what both have is the same, and what is gone, nothing else, left its events in the log. */
  predicate Evolves(h: Heap, h': Heap) {
    && h.next <= h'.next && h.log <= h'.log
    && MapsAgree(h.maps, h'.maps) && CtrlsAgree(h.ctrls, h'.ctrls)
    && (forall m :: m in h.maps && m !in h'.maps ==> MapEnded(h.maps[m], m, h'.log))
    && (forall c :: c in h.ctrls && c !in h'.ctrls && h.ctrls[c].device ==> DeviceReleased(c) in h'.log)
    && AllDue(h, h'.log)
    && (forall m :: m in h'.maps && m < h.next ==> m in h.maps)
    && (forall c :: c in h'.ctrls && c < h.next ==> c in h.ctrls)
  }

  predicate MapsAgree(maps: map<Id, MapDesc>, maps': map<Id, MapDesc>) {
    forall m :: m in maps && m in maps' ==> maps'[m].(count := 0) == maps[m].(count := 0)
  }

  predicate CtrlsAgree(ctrls: map<Id, Ctrl>, ctrls': map<Id, Ctrl>) {
    forall c :: c in ctrls && c in ctrls' ==> ctrls'[c].device == ctrls[c].device
  }

  predicate MapEnded(d: MapDesc, m: Id, log: seq<Event>) {
    (d.mapped ==> RangeUnmapped(d.ctrl, m) in log) && RangeReleased(d.ctrl, m) in log
  }

  lemma DueBefore(a: Heap, b: Heap, log: seq<Event>, i: nat)
    requires Evolves(a, b) && AllDue(b, log) && b.log <= log && |a.log| <= i < |log|
    ensures Due(a, log[i])
  {
    if i < |b.log| {
      assert log[i] == b.log[i];
    } else {
      assert Due(b, log[i]);
    }
  }

  lemma EvolvesTransitive(a: Heap, b: Heap, c: Heap)
    requires Evolves(a, b) && Evolves(b, c) && Fresh(a)
    ensures Evolves(a, c)
  {
    forall m | m in a.maps && m !in c.maps
      ensures MapEnded(a.maps[m], m, c.log)
    {
      assert m !in b.maps ==> MapEnded(a.maps[m], m, b.log);
      assert m in b.maps ==> MapEnded(b.maps[m], m, c.log) && b.maps[m].(count := 0) == a.maps[m].(count := 0);
    }
    forall i | |a.log| <= i < |c.log|
      ensures Due(a, c.log[i])
    {
      DueBefore(a, b, c.log, i);
    }
    assert forall m :: m in a.maps && m in c.maps ==> m in b.maps;
    assert forall x :: x in a.ctrls && x in c.ctrls ==> x in b.ctrls;
  }

  // --------------------------------------------------- counts are a function of holders

  /** Two states equal up to fresh names and history. */
  predicate SameBut(h: Heap, h': Heap) {
    h'.(next := h.next, log := h.log) == h
  }

  /**
   With no reference kept by a running call, the containers, admin references and user handles
   determine every other object and every count.
   */
  lemma Determined(h: Heap, h': Heap)
    requires Balanced(h, multiset{}, multiset{}) && Balanced(h', multiset{}, multiset{})
    requires h'.boxes == h.boxes && h'.refs == h.refs && h'.users == h.users
    requires MapsAgree(h.maps, h'.maps) && CtrlsAgree(h.ctrls, h'.ctrls)
    ensures SameBut(h, h')
  {
    SameMaps(h.maps, h'.maps, h.boxes);
    SameCtrls(h.ctrls, h'.ctrls, h.maps, h.refs, h.users);
  }

  lemma SameMaps(maps: map<Id, MapDesc>, maps': map<Id, MapDesc>, boxes: map<Id, Box>)
    requires MapSide(maps, boxes, multiset{}) && MapSide(maps', boxes, multiset{}) && MapsAgree(maps, maps')
    ensures maps' == maps
  {
    forall m | m in maps
      ensures m in maps'
    {
      var k :| k in BoxesOf(boxes, m);
    }
    forall m | m in maps'
      ensures m in maps
    {
      var k :| k in BoxesOf(boxes, m);
    }
  }

  lemma SameCtrls(ctrls: map<Id, Ctrl>, ctrls': map<Id, Ctrl>, maps: map<Id, MapDesc>, refs: map<Id, Ref>, users: set<Id>)
    requires CtrlSide(ctrls, maps, refs, users, multiset{}) && CtrlSide(ctrls', maps, refs, users, multiset{})
    requires CtrlsAgree(ctrls, ctrls')
    ensures ctrls' == ctrls
  {
    forall c | c in ctrls
      ensures c in ctrls'
    {
      SomeHolder(ctrls, maps, refs, users, c);
    }
    forall c | c in ctrls'
      ensures c in ctrls
    {
      SomeHolder(ctrls', maps, refs, users, c);
    }
  }

  lemma SomeHolder(ctrls: map<Id, Ctrl>, maps: map<Id, MapDesc>, refs: map<Id, Ref>, users: set<Id>, c: Id)
    requires CtrlSide(ctrls, maps, refs, users, multiset{}) && c in ctrls
    ensures c in users || (exists m :: m in maps && maps[m].ctrl == c) || (exists r :: r in refs && refs[r].ctrl == c)
  {
    if |MapsOf(maps, c)| > 0 {
      var m :| m in MapsOf(maps, c);
    } else if |RefsOf(refs, c)| > 0 {
      var r :| r in RefsOf(refs, c);
    }
  }

  // ------------------------------------------------- moving one controller reference

  lemma GetCtrlSide(ctrls: map<Id, Ctrl>, maps: map<Id, MapDesc>, refs: map<Id, Ref>, users: set<Id>, hc: multiset<Id>, c: Id)
    requires CtrlSide(ctrls, maps, refs, users, hc) && c in ctrls
    ensures CtrlSide(ctrls[c := ctrls[c].(count := ctrls[c].count + 1)], maps, refs, users, hc + multiset{c})
  {
  }

  lemma PutCtrlSide(ctrls: map<Id, Ctrl>, maps: map<Id, MapDesc>, refs: map<Id, Ref>, users: set<Id>, hc: multiset<Id>, c: Id)
    requires CtrlSide(ctrls, maps, refs, users, hc + multiset{c}) && c in ctrls && 1 < ctrls[c].count
    ensures CtrlSide(ctrls[c := ctrls[c].(count := ctrls[c].count - 1)], maps, refs, users, hc)
  {
  }

  lemma LastCtrlSide(ctrls: map<Id, Ctrl>, maps: map<Id, MapDesc>, refs: map<Id, Ref>, users: set<Id>, hc: multiset<Id>, c: Id)
    requires CtrlSide(ctrls, maps, refs, users, hc + multiset{c}) && c in ctrls && ctrls[c].count == 1
    ensures CtrlSide(ctrls - {c}, maps, refs, users, hc)
  {
    assert Holders(maps, refs, users, hc, c) == 0;
    NoOtherHolder(maps, refs, users, hc, c);
  }

  /** A controller nobody holds is pointed to by nothing. */
  lemma NoOtherHolder(maps: map<Id, MapDesc>, refs: map<Id, Ref>, users: set<Id>, held: multiset<Id>, c: Id)
    requires Holders(maps, refs, users, held, c) == 0
    ensures c !in users && c !in held
    ensures forall m :: m in maps ==> maps[m].ctrl != c
    ensures forall r :: r in refs ==> refs[r].ctrl != c
  {
    forall m | m in maps
      ensures maps[m].ctrl != c
    {
      assert m !in MapsOf(maps, c);
    }
    forall r | r in refs
      ensures refs[r].ctrl != c
    {
      assert r !in RefsOf(refs, c);
    }
  }

  /** Handing references from one holder to another keeps every controller balanced. */
  lemma HandOver(ctrls: map<Id, Ctrl>, maps: map<Id, MapDesc>, refs: map<Id, Ref>, users: set<Id>, hc: multiset<Id>,
                 maps': map<Id, MapDesc>, refs': map<Id, Ref>, users': set<Id>, hc': multiset<Id>)
    requires CtrlSide(ctrls, maps, refs, users, hc) && CtrlPointersLive(ctrls, maps', refs', users', hc')
    requires forall c :: c in ctrls ==> Holders(maps', refs', users', hc', c) == Holders(maps, refs, users, hc, c)
    ensures CtrlSide(ctrls, maps', refs', users', hc')
  {
  }

  lemma MapHolds(maps: map<Id, MapDesc>, refs: map<Id, Ref>, users: set<Id>, hc: multiset<Id>, m: Id, d: MapDesc, c: Id)
    requires m !in maps
    ensures Holders(maps[m := d], refs, users, hc, c) == Holders(maps, refs, users, hc + multiset{d.ctrl}, c)
  {
    assert MapsOf(maps[m := d], c) == MapsOf(maps, c) + if d.ctrl == c then {m} else {};
  }

  lemma RefHolds(maps: map<Id, MapDesc>, refs: map<Id, Ref>, users: set<Id>, hc: multiset<Id>, r: Id, f: Ref, c: Id)
    requires r !in refs
    ensures Holders(maps, refs[r := f], users, hc, c) == Holders(maps, refs, users, hc + multiset{f.ctrl}, c)
  {
    assert RefsOf(refs[r := f], c) == RefsOf(refs, c) + if f.ctrl == c then {r} else {};
  }

  /** A new map takes over a controller reference. */
  lemma NewMapCtrlSide(ctrls: map<Id, Ctrl>, maps: map<Id, MapDesc>, refs: map<Id, Ref>, users: set<Id>, hc: multiset<Id>, m: Id, d: MapDesc)
    requires CtrlSide(ctrls, maps, refs, users, hc + multiset{d.ctrl}) && m !in maps
    ensures CtrlSide(ctrls, maps[m := d], refs, users, hc)
  {
    forall c | c in ctrls
      ensures Holders(maps[m := d], refs, users, hc, c) == Holders(maps, refs, users, hc + multiset{d.ctrl}, c)
    {
      MapHolds(maps, refs, users, hc, m, d, c);
    }
    assert d.ctrl in hc + multiset{d.ctrl};
    assert forall x :: x in hc ==> x in hc + multiset{d.ctrl};
    HandOver(ctrls, maps, refs, users, hc + multiset{d.ctrl}, maps[m := d], refs, users, hc);
  }

  /** A map that goes gives its controller reference back. */
  lemma DropMapCtrlSide(ctrls: map<Id, Ctrl>, maps: map<Id, MapDesc>, refs: map<Id, Ref>, users: set<Id>, hc: multiset<Id>, m: Id)
    requires CtrlSide(ctrls, maps, refs, users, hc) && m in maps
    ensures CtrlSide(ctrls, maps - {m}, refs, users, hc + multiset{maps[m].ctrl})
  {
    var rest, d := maps - {m}, maps[m];
    assert rest[m := d] == maps;
    forall c | c in ctrls
      ensures Holders(rest, refs, users, hc + multiset{d.ctrl}, c) == Holders(maps, refs, users, hc, c)
    {
      MapHolds(rest, refs, users, hc, m, d, c);
    }
    HandOver(ctrls, maps, refs, users, hc, rest, refs, users, hc + multiset{d.ctrl});
  }

  lemma NewRefCtrlSide(ctrls: map<Id, Ctrl>, maps: map<Id, MapDesc>, refs: map<Id, Ref>, users: set<Id>, hc: multiset<Id>, r: Id, f: Ref)
    requires CtrlSide(ctrls, maps, refs, users, hc + multiset{f.ctrl}) && r !in refs
    ensures CtrlSide(ctrls, maps, refs[r := f], users, hc)
  {
    forall c | c in ctrls
      ensures Holders(maps, refs[r := f], users, hc, c) == Holders(maps, refs, users, hc + multiset{f.ctrl}, c)
    {
      RefHolds(maps, refs, users, hc, r, f, c);
    }
    assert f.ctrl in hc + multiset{f.ctrl};
    assert forall x :: x in hc ==> x in hc + multiset{f.ctrl};
    HandOver(ctrls, maps, refs, users, hc + multiset{f.ctrl}, maps, refs[r := f], users, hc);
  }

  lemma DropRefCtrlSide(ctrls: map<Id, Ctrl>, maps: map<Id, MapDesc>, refs: map<Id, Ref>, users: set<Id>, hc: multiset<Id>, r: Id)
    requires CtrlSide(ctrls, maps, refs, users, hc) && r in refs
    ensures CtrlSide(ctrls, maps, refs - {r}, users, hc + multiset{refs[r].ctrl})
  {
    var rest, f := refs - {r}, refs[r];
    assert rest[r := f] == refs;
    forall c | c in ctrls
      ensures Holders(maps, rest, users, hc + multiset{f.ctrl}, c) == Holders(maps, refs, users, hc, c)
    {
      RefHolds(maps, rest, users, hc, r, f, c);
    }
    HandOver(ctrls, maps, refs, users, hc, maps, rest, users, hc + multiset{f.ctrl});
  }

  /** Changing a map's count or a reference's queue memory moves no controller reference. */
  lemma SameCtrlSide(ctrls: map<Id, Ctrl>, maps: map<Id, MapDesc>, refs: map<Id, Ref>, users: set<Id>, hc: multiset<Id>,
                     maps': map<Id, MapDesc>, refs': map<Id, Ref>)
    requires CtrlSide(ctrls, maps, refs, users, hc) && maps'.Keys == maps.Keys && refs'.Keys == refs.Keys
    requires forall m :: m in maps ==> maps'[m].ctrl == maps[m].ctrl
    requires forall r :: r in refs ==> refs'[r].ctrl == refs[r].ctrl
    ensures CtrlSide(ctrls, maps', refs', users, hc)
  {
    forall c | c in ctrls
      ensures Holders(maps', refs', users, hc, c) == Holders(maps, refs, users, hc, c)
    {
      assert MapsOf(maps', c) == MapsOf(maps, c) && RefsOf(refs', c) == RefsOf(refs, c);
    }
    HandOver(ctrls, maps, refs, users, hc, maps', refs', users, hc);
  }

  lemma NewCtrlSide(ctrls: map<Id, Ctrl>, maps: map<Id, MapDesc>, refs: map<Id, Ref>, users: set<Id>, hc: multiset<Id>, c: Id, device: bool)
    requires CtrlSide(ctrls, maps, refs, users, hc) && c !in ctrls
    ensures CtrlSide(ctrls[c := Ctrl(1, device)], maps, refs, users + {c}, hc)
  {
    assert MapsOf(maps, c) == {} && RefsOf(refs, c) == {} && c !in users && hc[c] == 0;
    forall x | x in ctrls
      ensures Holders(maps, refs, users + {c}, hc, x) == Holders(maps, refs, users, hc, x)
    {
    }
  }

  /** nvm_ctrl_free gives up the user's reference. */
  lemma DropUserCtrlSide(ctrls: map<Id, Ctrl>, maps: map<Id, MapDesc>, refs: map<Id, Ref>, users: set<Id>, hc: multiset<Id>, c: Id)
    requires CtrlSide(ctrls, maps, refs, users, hc) && c in users
    ensures CtrlSide(ctrls, maps, refs, users - {c}, hc + multiset{c})
  {
    forall x | x in ctrls
      ensures Holders(maps, refs, users - {c}, hc + multiset{c}, x) == Holders(maps, refs, users, hc, x)
    {
    }
    HandOver(ctrls, maps, refs, users, hc, maps, refs, users - {c}, hc + multiset{c});
  }

  // -------------------------------------------------------- moving one map reference

  lemma BoxHolds(boxes: map<Id, Box>, hm: multiset<Id>, k: Id, b: Box, m: Id)
    requires k !in boxes
    ensures |BoxesOf(boxes[k := b], m)| + hm[m] == |BoxesOf(boxes, m)| + (hm + multiset{b.desc})[m]
  {
    assert BoxesOf(boxes[k := b], m) == BoxesOf(boxes, m) + if b.desc == m then {k} else {};
  }

  /** A new container takes over a map reference. */
  lemma NewBoxMapSide(maps: map<Id, MapDesc>, boxes: map<Id, Box>, hm: multiset<Id>, k: Id, b: Box)
    requires MapSide(maps, boxes, hm + multiset{b.desc}) && k !in boxes
    ensures MapSide(maps, boxes[k := b], hm)
  {
    forall m | m in maps
      ensures |BoxesOf(boxes[k := b], m)| + hm[m] == |BoxesOf(boxes, m)| + (hm + multiset{b.desc})[m]
    {
      BoxHolds(boxes, hm, k, b, m);
    }
    assert b.desc in hm + multiset{b.desc};
    assert forall x :: x in hm ==> x in hm + multiset{b.desc};
  }

  /** A container that goes gives its map reference back. */
  lemma DropBoxMapSide(maps: map<Id, MapDesc>, boxes: map<Id, Box>, hm: multiset<Id>, k: Id)
    requires MapSide(maps, boxes, hm) && k in boxes
    ensures MapSide(maps, boxes - {k}, hm + multiset{boxes[k].desc})
  {
    var rest, b := boxes - {k}, boxes[k];
    assert rest[k := b] == boxes;
    forall m | m in maps
      ensures |BoxesOf(boxes, m)| + hm[m] == |BoxesOf(rest, m)| + (hm + multiset{b.desc})[m]
    {
      BoxHolds(rest, hm, k, b, m);
    }
  }

  lemma NewMapMapSide(maps: map<Id, MapDesc>, boxes: map<Id, Box>, hm: multiset<Id>, m: Id, d: MapDesc)
    requires MapSide(maps, boxes, hm) && m !in maps && d.count == 1
    ensures MapSide(maps[m := d], boxes, hm + multiset{m})
  {
    assert BoxesOf(boxes, m) == {} && hm[m] == 0;
  }

  lemma DropMapMapSide(maps: map<Id, MapDesc>, boxes: map<Id, Box>, hm: multiset<Id>, m: Id)
    requires MapSide(maps, boxes, hm + multiset{m}) && m in maps && maps[m].count == 1
    ensures MapSide(maps - {m}, boxes, hm)
  {
    assert |BoxesOf(boxes, m)| == 0 && hm[m] == 0;
    forall k | k in boxes
      ensures boxes[k].desc != m
    {
      assert k !in BoxesOf(boxes, m);
    }
  }

  lemma GetMapMapSide(maps: map<Id, MapDesc>, boxes: map<Id, Box>, hm: multiset<Id>, m: Id)
    requires MapSide(maps, boxes, hm) && m in maps
    ensures MapSide(maps[m := maps[m].(count := maps[m].count + 1)], boxes, hm + multiset{m})
  {
  }

  lemma PutMapMapSide(maps: map<Id, MapDesc>, boxes: map<Id, Box>, hm: multiset<Id>, m: Id)
    requires MapSide(maps, boxes, hm + multiset{m}) && m in maps && 1 < maps[m].count
    ensures MapSide(maps[m := maps[m].(count := maps[m].count - 1)], boxes, hm)
  {
  }
}
