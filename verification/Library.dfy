/**
 libnvm's reference-counted objects as the library changes them: controllers, maps, containers and
 admin references.  Every operation, with each of its failure exits, is a run of elementary steps,
 so every count stays equal to its holders.  Outcomes of malloc, of locks and of the device are
 arbitrary, and a call succeeds exactly when none of those it met went wrong.
 */
module LibNvm {
  import opened Arithmetic
  import opened Ownership
  import opened OwnershipSteps

  /** What lies outside the library: malloc, locks, the kernel and the device. */
  class Environment {
    const fate: nat -> bool  // the outcome of the n-th call
    var calls: nat
    ghost var failed: nat    // calls that went wrong so far

    constructor (fate: nat -> bool)
      ensures this.fate == fate && calls == failed == 0
    {
      this.fate, calls, failed := fate, 0, 0;
    }

    method Call() returns (ok: bool)
      modifies this
      ensures ok == fate(old(calls)) && calls == old(calls) + 1 && failed == old(failed) + if ok then 0 else 1
    {
      ok := fate(calls);
      calls, failed := calls + 1, failed + if ok then 0 else 1;
    }
  }

  class Library {
    var ctrls: map<Id, Ctrl>
    var maps: map<Id, MapDesc>
    var boxes: map<Id, Box>
    var refs: map<Id, Ref>
    var users: set<Id>
    var next: Id
    const env: Environment
    ghost var log: seq<Event>
    ghost var hc: multiset<Id>  // controller references in local variables of the running call
    ghost var hm: multiset<Id>  // map references in local variables of the running call

    ghost function State(): Books
      reads this
    {
      Books(Heap(ctrls, maps, boxes, refs, users, next, log), hc, hm)
    }

    ghost predicate Valid()
      reads this
    {
      Reachable(State())
    }

    /** No call is running: no reference is kept in a local variable. */
    ghost predicate Idle()
      reads this
    {
      Valid() && hc == multiset{} && hm == multiset{}
    }

    constructor (fate: nat -> bool)
      ensures env.fate == fate && fresh(env) && Idle() && State() == EMPTY
    {
      env := new Environment(fate);
      ctrls, maps, boxes, refs, users, next := map[], map[], map[], map[], {}, 0;
      log, hc, hm := [], multiset{}, multiset{};
      new;
      assert Runs(EMPTY, [], EMPTY);
    }

    // ---------------------------------------------------------- controller references

    method CtrlGet(c: Id) returns (taken: bool)
      requires Valid() && c in ctrls
      modifies env, `ctrls, `hc
      ensures Valid() && Leads(old(State()), State()) && Succeeded(taken, old(env.failed), env.failed) && (taken ==> env.calls == old(env.calls) + 1)
      ensures taken ==> ctrls == old(ctrls)[c := old(ctrls[c]).(count := old(ctrls[c]).count + 1)]
      ensures hc == if taken then old(hc) + multiset{c} else old(hc)
      ensures !taken ==> ctrls == old(ctrls)
    {
      ghost var before: Ledger := State();
      taken := env.Call();  // the lock
      if taken {
        ctrls, hc := ctrls[c := ctrls[c].(count := ctrls[c].count + 1)], hc + multiset{c};
        assert State() == After(before, GetCtrl(c));
      } else {
        LeadsNowhere(before);
      }
    }

    method CtrlPut(c: Id)
      requires Valid() && c in hc
      modifies `ctrls, `hc, `log
      ensures Valid() && Leads(old(State()), State()) && hc == old(hc) - multiset{c}
      ensures c in old(ctrls) && 0 < old(ctrls[c]).count && State().h == AfterPutCtrl(old(State()).h, c)
    {
      ghost var before: Ledger := State();
      HeldCtrlLive(before, c);
      if ctrls[c].count == 1 {
        log := if ctrls[c].device then log + [DeviceReleased(c)] else log;
        ctrls := ctrls - {c};
      } else {
        ctrls := ctrls[c := ctrls[c].(count := ctrls[c].count - 1)];
      }
      hc := hc - multiset{c};
      assert State() == After(before, PutCtrl(c));
    }

    /** A new controller handle for a user; the checks of its registers may refuse it. */
    method CtrlInit(device: bool) returns (c: Option<Id>)
      requires Idle()
      modifies env, `ctrls, `users, `next
      ensures Idle() && Leads(old(State()), State())
      ensures Succeeded(c.Some?, old(env.failed), env.failed) && (c.Some? ==> env.calls == old(env.calls) + 1)
      ensures c.None? ==> State() == old(State())
      ensures c.Some? ==> c.value == old(next) && next == c.value + 1 && c.value !in old(users) && users == old(users) + {c.value} && c.value in ctrls && ctrls[c.value].device == device
    {
      ghost var before: Ledger := State();
      NextUnused(before);
      var created := env.Call();  // allocation, lock, register size, page sizes
      if !created {
        LeadsNowhere(before);
        return None;
      }
      c := Some(next);
      ctrls, users, next := ctrls[next := Ctrl(1, device)], users + {next}, next + 1;
      assert State() == After(before, NewCtrl(device));
    }

    method CtrlFree(c: Id)
      requires Idle() && c in users
      modifies `ctrls, `users, `hc, `log
      ensures Idle() && Leads(old(State()), State()) && users == old(users) - {c}
    {
      ghost var before: Ledger := State();
      users, hc := users - {c}, hc + multiset{c};
      assert State() == After(before, DropUser(c));
      CtrlPut(c);
      LeadsOn(before, After(before, DropUser(c)), State());
    }

    // ------------------------------------------------------------------ maps, containers

    /** create_map: a descriptor nobody else sees yet, holding one controller reference. */
    method CreateMap(c: Id) returns (md: Option<MapDesc>)
      requires Valid() && c in ctrls
      modifies env, `ctrls, `hc, `log
      ensures Valid() && Leads(old(State()), State())
      ensures Succeeded(md.Some?, old(env.failed), env.failed) && (md.Some? ==> env.calls == old(env.calls) + 2)
      ensures md.None? ==> hc == old(hc)
      ensures md.Some? ==> hc == old(hc) + multiset{c} && md.value == MapDesc(1, c, false)
    {
      ghost var before: Ledger := State();
      var taken := CtrlGet(c);
      if !taken {
        return None;
      }
      ghost var got: Ledger := State();
      var built := env.Call();  // the descriptor and its lock
      if !built {
        CtrlPut(c);
        LeadsOn(before, got, State());
        assert hc == old(hc);
        return None;
      }
      md := Some(MapDesc(1, c, false));
    }

    /** _nvm_dma_init: map an address range for the device. */
    method DmaInit(c: Id) returns (k: Option<Id>)
      requires Idle() && c in ctrls
      modifies env, `ctrls, `maps, `boxes, `next, `hc, `log
      ensures Idle() && Leads(old(State()), State())
      ensures Succeeded(k.Some?, old(env.failed), env.failed) && (k.Some? ==> env.calls == old(env.calls) + 4)
      ensures k.None? ==> SameBut(old(State()).h, State().h)
      ensures k.Some? ==> Mapped(old(State()).h, State().h, c, k.value, true)
    {
      k := NewRange(c, true);
    }

    /** nvm_dma_map: a container for addresses the caller supplies; nothing to unmap at the end. */
    method DmaMap(c: Id) returns (k: Option<Id>)
      requires Idle() && c in ctrls
      modifies env, `ctrls, `maps, `boxes, `next, `hc, `log
      ensures Idle() && Leads(old(State()), State())
      ensures Succeeded(k.Some?, old(env.failed), env.failed) && (k.Some? ==> env.calls == old(env.calls) + 3)
      ensures k.None? ==> SameBut(old(State()).h, State().h)
      ensures k.Some? ==> Mapped(old(State()).h, State().h, c, k.value, false)
    {
      k := NewRange(c, false);
    }

    /** Create a map, and keep it if the steps that follow succeed. */
    method NewRange(c: Id, mapped: bool) returns (k: Option<Id>)
      requires Idle() && c in ctrls
      modifies env, `ctrls, `maps, `boxes, `next, `hc, `log
      ensures Idle() && Leads(old(State()), State())
      ensures Succeeded(k.Some?, old(env.failed), env.failed) && (k.Some? ==> env.calls == old(env.calls) + if mapped then 4 else 3)
      ensures k.None? ==> SameBut(old(State()).h, State().h)
      ensures k.Some? ==> Mapped(old(State()).h, State().h, c, k.value, mapped)
    {
      ghost var before: Ledger := State();
      var md := CreateMap(c);
      if md.None? {
        Restored(before, State());
        return None;
      }
      ghost var created: Ledger := State();
      k := Settle(md.value.(mapped := mapped));
      LeadsOn(before, created, State());
      if k.None? {
        Restored(before, State());
      } else {
        MappedSince(before.h, created.h, State().h, c, k.value, mapped);
      }
    }

    method Prepare(mapped: bool) returns (ok: bool)
      modifies env
      ensures Succeeded(ok, old(env.failed), env.failed) && (ok ==> env.calls == old(env.calls) + if mapped then 2 else 1)
    {
      ok := env.Call();  // alignment of the range, allocation of the container
      if ok && mapped {
        ok := env.Call();  // support, allocation of the list, the device's map callback
      }
    }

    /** A finished map becomes visible with its container; one that fails goes again: remove_map. */
    method Settle(md: MapDesc) returns (k: Option<Id>)
      requires Valid() && md.count == 1 && md.ctrl in hc
      modifies env, `ctrls, `maps, `boxes, `next, `hc, `log
      ensures Valid() && Leads(old(State()), State()) && hc == old(hc) - multiset{md.ctrl}
      ensures Succeeded(k.Some?, old(env.failed), env.failed) && (k.Some? ==> env.calls == old(env.calls) + if md.mapped then 2 else 1)
      ensures if k.Some? then Mapped(old(State()).h, State().h, md.ctrl, k.value, md.mapped) else boxes == old(boxes)
    {
      var ok := Prepare(md.mapped);
      if ok {
        PublishMaps(State(), md);
        var box := Publish(md);
        k := Some(box);
      } else {
        CtrlPut(md.ctrl);
        k := None;
      }
    }

    /** The finished map and its container become visible; the map keeps the controller reference. */
    method Publish(md: MapDesc) returns (k: Id)
      requires Valid() && md.count == 1 && md.ctrl in hc
      modifies `maps, `boxes, `next, `hc
      ensures Valid() && Leads(old(State()), State()) && k == old(next) + 1
      ensures State() == AfterPublish(old(State()), md)
    {
      ghost var before: Ledger := State();
      PublishLeads(before, md);
      k := next + 1;
      maps, boxes, next, hc := maps[next := md], boxes[next + 1 := Box(next)], next + 2, hc - multiset{md.ctrl};
      assert State() == AfterPublish(before, md);
    }

    /** put_map: the last reference unmaps and releases the range, then gives the controller back. */
    method MapPut(m: Id)
      requires Valid() && m in hm
      modifies `ctrls, `maps, `hc, `hm, `log
      ensures Valid() && Leads(old(State()), State()) && hc == old(hc) && hm == old(hm) - multiset{m}
    {
      ghost var before: Ledger := State();
      HeldMapLive(before, m);
      var d := maps[m];
      MapDrop(m);
      if d.count == 1 {
        ghost var dropped: Ledger := State();
        CtrlPut(d.ctrl);  // remove_map
        LeadsOn(before, dropped, State());
        assert hc == old(hc);
      }
    }

    /** The part of put_map under the map's lock. */
    method MapDrop(m: Id)
      requires Valid() && m in hm
      modifies `maps, `hc, `hm, `log
      ensures Valid() && Leads(old(State()), State()) && m in old(maps) && hm == old(hm) - multiset{m}
      ensures 0 < old(maps[m]).count && State() == AfterPutMap(old(State()), m)
    {
      ghost var before: Ledger := State();
      HeldMapLive(before, m);
      var d := maps[m];
      PutMapLeads(before, m);
      hm := hm - multiset{m};
      if d.count == 1 {
        log := log + RangeEvents(d, m);  // the unmap callback if it is set, and the release callback
        maps, hc := maps - {m}, hc + multiset{d.ctrl};
      } else {
        maps := maps[m := d.(count := d.count - 1)];
      }
      assert State() == AfterPutMap(before, m);
    }

    /** get_map */
    method MapGet(m: Id) returns (taken: bool)
      requires Valid() && m in maps
      modifies env, `maps, `hm
      ensures Valid() && Leads(old(State()), State()) && Succeeded(taken, old(env.failed), env.failed) && (taken ==> env.calls == old(env.calls) + 1)
      ensures taken ==> maps == old(maps)[m := old(maps[m]).(count := old(maps[m]).count + 1)]
      ensures hm == if taken then old(hm) + multiset{m} else old(hm)
      ensures !taken ==> maps == old(maps)
    {
      ghost var before: Ledger := State();
      taken := env.Call();  // the lock
      if taken {
        maps, hm := maps[m := maps[m].(count := maps[m].count + 1)], hm + multiset{m};
        assert State() == After(before, GetMap(m));
      } else {
        LeadsNowhere(before);
      }
    }

    /** nvm_dma_unmap, through remove_container. */
    method Unmap(k: Id)
      requires Idle() && k in boxes
      modifies `ctrls, `maps, `boxes, `hc, `hm, `log
      ensures Idle() && Leads(old(State()), State()) && boxes == old(boxes) - {k}
    {
      ghost var before: Ledger := State();
      var m := boxes[k].desc;
      boxes, hm := boxes - {k}, hm + multiset{m};
      assert State() == After(before, DropBox(k));
      MapPut(m);
      LeadsOn(before, After(before, DropBox(k)), State());
    }

    /** nvm_dma_remap: another container for the map that container k refers to. */
    method Remap(k: Id) returns (copy: Option<Id>)
      requires Idle() && k in boxes
      modifies env, `ctrls, `maps, `boxes, `next, `hc, `hm, `log
      ensures Idle() && Leads(old(State()), State())
      ensures Succeeded(copy.Some?, old(env.failed), env.failed) && (copy.Some? ==> env.calls == old(env.calls) + 2)
      ensures copy.None? ==> SameBut(old(State()).h, State().h)
      ensures copy.Some? ==> old(next) <= copy.value && copy.value !in old(boxes) && boxes == old(boxes)[copy.value := old(boxes[k])]
    {
      ghost var before: Ledger := State();
      BoxLive(before, k);
      NextUnused(before);
      var m := boxes[k].desc;
      var taken := MapGet(m);
      if !taken {
        return None;
      }
      ghost var got: Ledger := State();
      copy := Attach(m);
      LeadsOn(before, got, State());
      if copy.None? {
        Restored(before, State());
      }
    }

    /** The second half of remapping: a container takes over the reference, or it is put again. */
    method Attach(m: Id) returns (copy: Option<Id>)
      requires Valid() && m in hm
      modifies env, `ctrls, `maps, `boxes, `next, `hc, `hm, `log
      ensures Valid() && Leads(old(State()), State()) && hc == old(hc) && hm == old(hm) - multiset{m}
      ensures Succeeded(copy.Some?, old(env.failed), env.failed) && (copy.Some? ==> env.calls == old(env.calls) + 1)
      ensures copy.None? ==> boxes == old(boxes)
      ensures copy.Some? ==> copy.value == old(next) && boxes == old(boxes)[copy.value := Box(m)]
    {
      var boxed := env.Call();
      if !boxed {
        MapPut(m);
        return None;
      }
      var box := BoxAdd(m);
      return Some(box);
    }

    /** create_container on a map that is already shared. */
    method BoxAdd(m: Id) returns (k: Id)
      requires Valid() && m in hm
      modifies `boxes, `next, `hm
      ensures Valid() && Leads(old(State()), State()) && hm == old(hm) - multiset{m} && next == old(next) + 1
      ensures k == old(next) && boxes == old(boxes)[k := Box(m)]
    {
      ghost var before: Ledger := State();
      k := next;
      boxes, next, hm := boxes[next := Box(m)], next + 1, hm - multiset{m};
      assert State() == AfterAddBox(before, m) == After(before, AddBox(m));
    }

    // ------------------------------------------------------------------ admin references

    /** _nvm_ref_get */
    method RefGet(c: Id) returns (r: Option<Id>)
      requires Idle() && c in ctrls
      modifies env, `ctrls, `refs, `next, `hc, `log
      ensures Idle() && Leads(old(State()), State())
      ensures Succeeded(r.Some?, old(env.failed), env.failed) && (r.Some? ==> env.calls == old(env.calls) + 2)
      ensures r.None? ==> SameBut(old(State()).h, State().h)
      ensures r.Some? ==> next == old(next) + 1
      ensures r.Some? ==> r.value == old(next) && r.value !in old(refs) && refs == old(refs)[r.value := Ref(c, None)]
    {
      ghost var before: Ledger := State();
      var taken := CtrlGet(c);
      if !taken {
        return None;
      }
      ghost var got: Ledger := State();
      r := RefBuild(c);
      LeadsOn(before, got, State());
      if r.None? {
        Restored(before, State());
      }
    }

    /** A reference takes over the held controller, or the controller is put again. */
    method RefBuild(c: Id) returns (r: Option<Id>)
      requires Valid() && c in hc
      modifies env, `ctrls, `refs, `next, `hc, `log
      ensures Valid() && Leads(old(State()), State()) && hc == old(hc) - multiset{c}
      ensures Succeeded(r.Some?, old(env.failed), env.failed) && (r.Some? ==> env.calls == old(env.calls) + 1)
      ensures r.None? ==> refs == old(refs)
      ensures r.Some? ==> next == old(next) + 1
      ensures r.Some? ==> r.value == old(next) && r.value !in old(refs) && refs == old(refs)[r.value := Ref(c, None)]
    {
      var built := env.Call();  // the reference and its lock
      if !built {
        CtrlPut(c);
        return None;
      }
      var ref := RefAdd(c);
      return Some(ref);
    }

    method RefAdd(c: Id) returns (r: Id)
      requires Valid() && c in hc
      modifies `refs, `next, `hc
      ensures Valid() && Leads(old(State()), State()) && hc == old(hc) - multiset{c} && next == old(next) + 1
      ensures r == old(next) && r !in old(refs) && refs == old(refs)[r := Ref(c, None)]
    {
      ghost var before: Ledger := State();
      NextUnused(before);
      r := next;
      refs, next, hc := refs[next := Ref(c, None)], next + 1, hc - multiset{c};
      assert State() == After(before, AddRef(c));
    }

    /** _nvm_ref_put: the admin queue memory goes first, then the controller reference. */
    method RefPut(r: Id)
      requires Idle() && r in refs && (refs[r].qmem.Some? ==> refs[r].qmem.value in boxes)
      modifies `ctrls, `maps, `boxes, `refs, `hc, `hm, `log
      ensures Idle() && Leads(old(State()), State()) && refs == old(refs) - {r}
      ensures boxes == old(boxes) - old(QueueMemory(refs[r]))
    {
      ghost var before: Ledger := State();
      LeadsNowhere(before);
      var ref := refs[r];
      if ref.qmem.Some? {
        Unmap(ref.qmem.value);  // remove_admin
      }
      ghost var released: Ledger := State();
      RefDrop(r);
      LeadsOn(before, released, State());
    }

    method RefDrop(r: Id)
      requires Idle() && r in refs
      modifies `ctrls, `refs, `hc, `log
      ensures Idle() && Leads(old(State()), State()) && refs == old(refs) - {r}
    {
      ghost var before: Ledger := State();
      var c := refs[r].ctrl;
      refs, hc := refs - {r}, hc + multiset{c};
      ghost var dropped := After(before, DropRef(r));
      assert State() == dropped;
      CtrlPut(c);
      LeadsOn(before, dropped, State());
    }

    /** create_admin: a second container for the window's memory; a failure leaves everything as it was. */
    method AdminCreate(window: Id, ps: nat, w: Window) returns (copy: Option<Id>)
      requires Idle() && window in boxes
      modifies env, `ctrls, `maps, `boxes, `next, `hc, `hm, `log
      ensures Idle() && Leads(old(State()), State())
      ensures env.failed >= old(env.failed) && (copy.Some? <==> w.ps == ps && 2 <= w.pages && w.local && env.failed == old(env.failed))
      ensures copy.Some? ==> env.calls == old(env.calls) + 3
      ensures copy.None? ==> SameBut(old(State()).h, State().h)
      ensures copy.Some? ==> old(next) <= copy.value && copy.value !in old(boxes) && boxes == old(boxes)[copy.value := old(boxes[window])]
    {
      ghost var before: Ledger := State();
      LeadsNowhere(before);
      if ps != w.ps {
        return None;
      } else if w.pages < 2 {
        return None;
      } else if !w.local {
        return None;
      }
      copy := Remap(window);
      if copy.None? {
        return;
      }
      ghost var remapped: Ledger := State();
      var built := env.Call();  // the local admin descriptor
      if !built {
        Unmap(copy.value);
        LeadsOn(before, remapped, State());
        Restored(before, State());
        return None;
      }
    }

    /**
     nvm_aq_create: an admin reference with its own container for the window's memory.  Whether the
     controller comes back from the reset that follows does not change the outcome.
     */
    method AqCreate(c: Id, window: Id, ps: nat, w: Window) returns (r: Option<Id>)
      requires Idle() && c in ctrls && window in boxes
      modifies env, `ctrls, `maps, `boxes, `refs, `next, `hc, `hm, `log
      ensures Idle() && Leads(old(State()), State())
      ensures env.failed >= old(env.failed) && (r.Some? <==> w.ps == ps && 2 <= w.pages && w.local && env.failed == old(env.failed))
      ensures r.Some? ==> env.calls == old(env.calls) + 5
      ensures r.None? ==> SameBut(old(State()).h, State().h)
      ensures r.Some? ==> Admin(old(State()).h, State().h, c, window, r.value)
    {
      ghost var before: Ledger := State();
      r := RefGet(c);
      if r.None? {
        return;
      }
      ghost var got: Ledger := State();
      var copy := AdminCreate(window, ps, w);
      ghost var tried: Ledger := State();
      LeadsOn(before, got, tried);
      if copy.None? {
        RefPut(r.value);
        LeadsOn(before, tried, State());
        DropAdded(before.h.refs, r.value, Ref(c, None));
        Restored(before, State());
        return None;
      }
      RefBind(r.value, copy.value);
      LeadsOn(before, tried, State());
      AdminMade(before.h, State().h, c, window, r.value, copy.value);
    }

    method RefBind(r: Id, k: Id)
      requires Idle() && r in refs
      modifies `refs
      ensures Idle() && Leads(old(State()), State()) && refs == old(refs)[r := old(refs[r]).(qmem := Some(k))]
    {
      ghost var before: Ledger := State();
      refs := refs[r := refs[r].(qmem := Some(k))];
      assert State() == After(before, BindRef(r, k));
    }
  }

  /** What create_admin looks at in the window: page size, number of pages, and whether it is in virtual memory. */
  datatype Window = Window(ps: nat, pages: nat, local: bool)

  /** A call succeeds exactly when nothing it depends on failed. */
  predicate Succeeded(ok: bool, failed: nat, failed': nat) {
    failed <= failed' && (ok <==> failed' == failed)
  }

  function QueueMemory(ref: Ref): set<Id> {
    if ref.qmem.Some? then {ref.qmem.value} else {}
  }

  /** From h to h': a new admin reference r on controller c, with its own container for the window's map. */
  predicate Admin(h: Heap, h': Heap, c: Id, window: Id, r: Id) {
    && h.next <= r && r in h'.refs && h'.refs == h.refs[r := h'.refs[r]]
    && h'.refs[r].ctrl == c && h'.refs[r].qmem.Some?
    && var q := h'.refs[r].qmem.value;
    && h.next <= q && window in h.boxes && h'.boxes == h.boxes[q := h.boxes[window]]
  }

  lemma DropAdded<T>(m: map<Id, T>, x: Id, v: T)
    requires x !in m
    ensures m[x := v] - {x} == m
  {
  }

  lemma AdminMade(h: Heap, h': Heap, c: Id, window: Id, r: Id, q: Id)
    requires h.next <= r && h.next <= q && window in h.boxes && h'.boxes == h.boxes[q := h.boxes[window]]
    requires h'.refs == h.refs[r := Ref(c, None)][r := Ref(c, Some(q))]
    ensures Admin(h, h', c, window, r)
  {
    assert h'.refs == h.refs[r := Ref(c, Some(q))];
  }

  lemma NextUnused(b: Ledger)
    ensures b.h.next !in b.h.ctrls && b.h.next !in b.h.maps && b.h.next !in b.h.boxes && b.h.next !in b.h.refs
    ensures b.h.next !in b.h.users && b.h.next + 1 !in b.h.boxes
  {
    LedgerGood(b);
  }

  lemma PublishLeads(b: Ledger, d: MapDesc)
    requires d.ctrl in b.hc && d.count == 1
    ensures Reachable(AfterPublish(b, d)) && Leads(b, AfterPublish(b, d))
  {
    var t := After(b, NewMapping(d.ctrl, d.mapped));
  }

  lemma PublishMaps(b: Ledger, d: MapDesc)
    requires d.count == 1
    ensures Mapped(b.h, AfterPublish(b, d).h, d.ctrl, b.h.next + 1, d.mapped)
  {
    NextUnused(b);
  }

  lemma MappedSince(b: Heap, h: Heap, h': Heap, c: Id, k: Id, mapped: bool)
    requires Mapped(h, h', c, k, mapped) && h.boxes == b.boxes && b.next <= h.next
    ensures Mapped(b, h', c, k, mapped)
  {
  }

  lemma PutMapLeads(b: Ledger, m: Id)
    requires m in b.hm && m in b.h.maps && 0 < b.h.maps[m].count
    ensures Reachable(AfterPutMap(b, m)) && Leads(b, AfterPutMap(b, m))
  {
    var t := After(b, PutMap(m));
  }

  /** From h to h': a new map of controller c, with one container k. */
  predicate Mapped(h: Heap, h': Heap, c: Id, k: Id, mapped: bool) {
    && h.next <= k && k in h'.boxes && h'.boxes == h.boxes[k := h'.boxes[k]]
    && var m := h'.boxes[k].desc;
    && h.next <= m && m in h'.maps && h'.maps[m] == MapDesc(1, c, mapped)
  }

  /** Mapping a range and unmapping it again, as an unregistered transfer does, leads back to the same objects and counts. */
  lemma MapUndone(b: Ledger, t: Ledger, u: Ledger, c: Id, k: Id, mapped: bool)
    requires Leads(b, t) && Leads(t, u) && b.hc == b.hm == multiset{} == u.hc == u.hm
    requires Mapped(b.h, t.h, c, k, mapped) && t.h.refs == b.h.refs && t.h.users == b.h.users
    requires u.h.boxes == t.h.boxes - {k} && u.h.refs == t.h.refs && u.h.users == t.h.users
    ensures SameBut(b.h, u.h)
  {
    NotYetUsed(b, k);
    LeadsOn(b, t, u);
    assert u.h.boxes == b.h.boxes;
    Restored(b, u);
  }

  lemma NotYetUsed(b: Ledger, k: Id)
    requires b.h.next <= k
    ensures k !in b.h.boxes
  {
    LedgerGood(b);
  }

  /** Between calls, a map lives exactly as long as one of its containers. */
  lemma MapLives(b: Ledger, m: Id)
    requires b.hm == multiset{}
    ensures m in b.h.maps <==> exists k :: k in b.h.boxes && b.h.boxes[k].desc == m
  {
    LedgerGood(b);
    if m in b.h.maps {
      var k :| k in BoxesOf(b.h.boxes, m);
    }
  }

  /** Between calls, a controller lives exactly as long as its user, a map or an admin reference. */
  lemma CtrlLives(b: Ledger, c: Id)
    requires b.hc == multiset{}
    ensures c in b.h.ctrls <==>
            || c in b.h.users
            || (exists m :: m in b.h.maps && b.h.maps[m].ctrl == c)
            || (exists r :: r in b.h.refs && b.h.refs[r].ctrl == c)
  {
    LedgerGood(b);
    if c in b.h.ctrls {
      SomeHolder(b.h.ctrls, b.h.maps, b.h.refs, b.h.users, c);
    }
  }
}
