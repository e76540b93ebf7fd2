/**
 The driver's calls: open and close, registering buffers, registering handles.  Each call moves the
 driver from one reached state to the next, and a call that fails gives back all it took.
 */
module GlobalDriver {
  import opened Arithmetic
  import opened Ownership
  import opened OwnershipSteps
  import opened LibNvm
  import opened Registration
  import opened DriverState

  class Driver {
    const host: Host
    const lib: Library
    var initialized: bool
    var defaultCtrl: Option<Id>
    var registry: map<nat, Id>      // registered buffers and their containers
    var handles: map<Id, Handle>    // registered handles, by controller
    ghost var owner: map<Id, Owner>

    ghost function Value(): Globals
      reads this, host, lib
    {
      Globals(lib.State(), host.cqs, host.sqs, registry, handles, defaultCtrl, owner)
    }

    ghost predicate Valid()
      reads this, host, lib
    {
      lib == host.lib && host.BufsFresh() && lib.Idle() && Reached(Value())
    }

    constructor (obedient: bool, fate: nat -> bool)
      ensures host.obedient == obedient && lib.env.fate == fate && Valid() && Value() == START && !initialized && host.bufs == {}
      ensures fresh(host) && fresh(lib) && fresh(lib.env)
    {
      var h := new Host(obedient, fate);
      host, lib := h, h.lib;
      initialized, defaultCtrl, registry, handles, owner := false, None, map[], map[], map[];
      new;
      assert ReachedIn(START, 0);
    }

    method Open()
      requires Valid()
      modifies `initialized
      ensures Valid() && initialized
    {
      initialized := true;
    }

    // -------------------------------------------------------------------------- buffers

    method BufRegister(p: nat, length: nat) returns (r: Option<Error>)
      requires Valid()
      modifies lib.env, `registry, `owner, lib`ctrls, lib`maps, lib`boxes, lib`next, lib`hc, lib`log
      ensures Valid()
      ensures !initialized ==> r == Some(DriverNotInitialized)
      ensures initialized && (p == 0 || length == 0) ==> r == Some(InvalidValue)
      ensures initialized && 0 < p && 0 < length && p in old(registry) ==> r == Some(MemoryAlreadyRegistered)
      ensures initialized && 0 < p && 0 < length && p !in old(registry) && defaultCtrl.None? ==> r == Some(DriverNotInitialized)
      ensures r.None? <==>
                && initialized && 0 < p && 0 < length && p !in old(registry) && defaultCtrl.Some?
                && lib.env.failed == old(lib.env.failed)
      ensures r.None? ==> lib.env.calls == old(lib.env.calls) + 4
      ensures r.Some? ==> Fails(old(Value()), Value())
      ensures r.None? ==> defaultCtrl.Some? && p in registry && AddsBuffer(old(Value()), Value(), p, defaultCtrl.value, registry[p])
    {
      ghost var before := Value();
      FailsAtOnce(before);
      if !initialized {
        return Some(DriverNotInitialized);
      }
      if p == 0 || length == 0 {
        return Some(InvalidValue);
      }
      if p in registry {
        return Some(MemoryAlreadyRegistered);
      }
      if defaultCtrl.None? {
        return Some(DriverNotInitialized);
      }
      var mapped := MapBuffer(p, defaultCtrl.value);
      return if mapped then None else Some(MemoryPinningFailed);
    }

    method MapBuffer(p: nat, c: Id) returns (mapped: bool)
      requires Valid() && p !in registry && defaultCtrl == Some(c)
      modifies lib.env, `registry, `owner, lib`ctrls, lib`maps, lib`boxes, lib`next, lib`hc, lib`log
      ensures Valid()
      ensures Succeeded(mapped, old(lib.env.failed), lib.env.failed)
      ensures mapped ==> lib.env.calls == old(lib.env.calls) + 4
      ensures !mapped ==> Fails(old(Value()), Value())
      ensures mapped ==> p in registry && AddsBuffer(old(Value()), Value(), p, c, registry[p])
    {
      ghost var before := Value();
      DefaultLive(before);
      var dma := lib.DmaInit(c);
      mapped := dma.Some?;
      if mapped {
        registry := registry[p := dma.value];
        owner := Assign(owner, {dma.value}, OfBuffer(p));
        assert AddsBuffer(before, Value(), p, c, dma.value);
      } else {
        assert Fails(before, Value());
      }
      ReachedNext(before, Value());
    }

    method BufDeregister(p: nat) returns (r: Option<Error>)
      requires Valid()
      modifies `registry, `owner, lib`ctrls, lib`maps, lib`boxes, lib`hc, lib`hm, lib`log
      ensures Valid()
      ensures !initialized ==> r == Some(DriverNotInitialized)
      ensures initialized && p !in old(registry) ==> r == Some(MemoryNotRegistered)
      ensures r.Some? ==> Value() == old(Value())
      ensures initialized && p in old(registry) ==> r.None? && DropsBuffer(old(Value()), Value(), p)
    {
      if !initialized {
        return Some(DriverNotInitialized);
      }
      if p !in registry {
        return Some(MemoryNotRegistered);
      }
      UnmapBuffer(p);
      return None;
    }

    method UnmapBuffer(p: nat)
      requires Valid() && p in registry
      modifies `registry, `owner, lib`ctrls, lib`maps, lib`boxes, lib`hc, lib`hm, lib`log
      ensures Valid() && DropsBuffer(old(Value()), Value(), p)
    {
      ghost var before := Value();
      BufferLive(before, p);
      lib.Unmap(registry[p]);
      owner := owner - {registry[p]};
      registry := registry - {p};
      assert DropsBuffer(before, Value(), p);
      ReachedNext(before, Value());
    }

    // -------------------------------------------------------------------------- handles

    /** low and high are the controller's zero-based answer to the request for queues. */
    method HandleRegister(valid: bool, opaqueFd: bool, low: nat, high: nat) returns (r: Option<Error>, c: Id)
      requires Valid() && low < 0x1_0000 && high < 0x1_0000
      modifies lib.env, `handles, `defaultCtrl, `owner, host, lib
      ensures Valid()
      ensures !valid ==> r == Some(InvalidValue)
      ensures valid && !initialized ==> r == Some(DriverNotInitialized)
      ensures valid && initialized && !opaqueFd ==> r == Some(InvalidFileType)
      ensures r.None? <==> valid && initialized && opaqueFd && lib.env.failed == old(lib.env.failed)
      ensures r.Some? ==> Fails(old(Value()), Value()) && host.bufs == old(host.bufs)
      ensures r.Some? ==> (host.refused == old(host.refused) && host.late == old(host.late)
                           <==> host.cqs == old(host.cqs) && host.sqs == old(host.sqs))
      ensures r.None? ==> c in handles && AddsHandle(old(Value()), Value(), c, handles[c])
      ensures r.None? ==> lib.env.calls == old(lib.env.calls) + 14 + 17 * |handles[c].qps|
      ensures r.None? ==> IsLeast(|handles[c].qps|, (low + 1) % 0x1_0000, (high + 1) % 0x1_0000, DEFAULT_NUM_QPS) && host.late == old(host.late)
      ensures r.None? || (host.obedient && host.late == old(host.late)) ==> host.refused == old(host.refused)
      ensures r.None? ==> HandleBufs(handles[c]) !! old(host.bufs) && host.bufs == old(host.bufs) + HandleBufs(handles[c])
    {
      ghost var before := Value();
      FailsAtOnce(before);
      if !valid {
        return Some(InvalidValue), 0;
      }
      if !initialized {
        return Some(DriverNotInitialized), 0;
      }
      if !opaqueFd {
        return Some(InvalidFileType), 0;
      }
      var ok;
      ok, c := RegisterCtrl(NumQps(low, high));
      return if ok then None else Some(InternalError), c;
    }

    method RegisterCtrl(n: nat) returns (ok: bool, c: Id)
      requires Valid()
      modifies lib.env, `handles, `defaultCtrl, `owner, host, lib
      ensures Valid()
      ensures Succeeded(ok, old(lib.env.failed), lib.env.failed)
      ensures ok ==> lib.env.calls == old(lib.env.calls) + 14 + 17 * n
      ensures !ok ==> Fails(old(Value()), Value()) && host.bufs == old(host.bufs)
      ensures !ok ==> (host.refused == old(host.refused) && host.late == old(host.late)
                       <==> host.cqs == old(host.cqs) && host.sqs == old(host.sqs))
      ensures ok ==> c in handles && AddsHandle(old(Value()), Value(), c, handles[c])
      ensures ok ==> |handles[c].qps| == n && host.late == old(host.late)
      ensures ok || (host.obedient && host.late == old(host.late)) ==> host.refused == old(host.refused)
      ensures ok ==> HandleBufs(handles[c]) !! old(host.bufs) && host.bufs == old(host.bufs) + HandleBufs(handles[c])
    {
      ghost var before := Value();
      FreshCtrl(before);
      var h;
      ok, c, h := host.Take(n);
      if ok {
        Enter(c, h, before, old(host.bufs));
      } else {
        HandleFailed(before, Value(), c, old(host.bufs), old(host.refused), host.refused, old(host.late), host.late);
        ReachedNext(before, Value());
      }
    }

    /** The finished handle becomes known to the driver, and its controller the default if there is none. */
    method Enter(c: Id, h: Handle, ghost before: Globals, ghost bufs: set<nat>)
      requires lib == host.lib && host.BufsFresh() && lib.Idle() && Reached(before) && Leads(before.b, lib.State())
      requires Value() == before.(b := lib.State(), cqs := host.cqs, sqs := host.sqs) && c == before.b.h.next
      requires Entered(before.b.h, lib.State().h, c, h) && Equipped(c, h, WorldOf(before, bufs), host.World())
      modifies `handles, `defaultCtrl, `owner
      ensures Valid() && c in handles && handles[c] == h && AddsHandle(before, Value(), c, h)
    {
      if defaultCtrl.None? {
        defaultCtrl := Some(c);
      }
      handles := handles[c := h];
      owner := Assign(owner, HandleBoxes(h), OfHandle(c));
      HandleEntered(before, Value(), c, h, bufs, host.bufs);
      ReachedNext(before, Value());
    }

    method HandleDeregister(fh: Option<Id>)
      requires Valid() && (fh.Some? ==> fh.value in handles)
      modifies `handles, `defaultCtrl, `owner, host, lib
      ensures Valid()
      ensures fh.None? ==> Value() == old(Value()) && host.World() == old(host.World())
      ensures fh.Some? ==> DropsHandle(old(Value()), Value(), fh.value)
      ensures fh.Some? ==> host.bufs == old(host.bufs) - HandleBufs(old(handles)[fh.value])
      ensures fh.Some? ==> Retired(Queues(fh.value, old(handles)[fh.value].qps), old(host.cqs), host.cqs, old(host.sqs), host.sqs,
                                   old(host.refused), host.refused)
      ensures host.obedient ==> host.refused == old(host.refused)
    {
      if fh.Some? {
        Forget(fh.value);
      }
    }

    method Forget(c: Id)
      requires Valid() && c in handles
      modifies `handles, `defaultCtrl, `owner, host, lib
      ensures Valid() && DropsHandle(old(Value()), Value(), c)
      ensures host.bufs == old(host.bufs) - HandleBufs(old(handles)[c])
      ensures Retired(Queues(c, old(handles)[c].qps), old(host.cqs), host.cqs, old(host.sqs), host.sqs,
                      old(host.refused), host.refused)
      ensures host.obedient ==> host.refused == old(host.refused)
    {
      ghost var before := Value();
      var h := handles[c];
      HandleReady(before, c);
      host.Release(c, h);
      if defaultCtrl == Some(c) {
        defaultCtrl := None;
      }
      handles, owner := handles - {c}, owner - HandleBoxes(h);
      HandleForgotten(before, Value(), c, old(host.refused), host.refused);
      ReachedNext(before, Value());
    }

    /** Every registered buffer is unmapped once; the handles stay, but none is the default any more. */
    method Close() returns (r: Option<Error>)
      requires Valid()
      modifies `initialized, `registry, `defaultCtrl, `owner, lib`ctrls, lib`maps, lib`boxes, lib`hc, lib`hm, lib`log
      ensures Valid() && !initialized
      ensures r == if old(initialized) then None else Some(DriverNotInitialized)
      ensures r.Some? ==> Value() == old(Value())
      ensures r.None? ==> registry == map[] && defaultCtrl == None && Leads(old(lib.State()), lib.State())
      ensures r.None? ==> lib.boxes == old(lib.boxes) - Removed(old(registry), map[])
    {
      if !initialized {
        return Some(DriverNotInitialized);
      }
      UnmapAll();
      ghost var empty := Value();
      defaultCtrl := None;
      ReachedNext(empty, Value());
      initialized := false;
      return None;
    }

    method UnmapAll()
      requires Valid()
      modifies `registry, `owner, lib`ctrls, lib`maps, lib`boxes, lib`hc, lib`hm, lib`log
      ensures Valid() && registry == map[] && Leads(old(lib.State()), lib.State())
      ensures lib.boxes == old(lib.boxes) - Removed(old(registry), map[])
    {
      ghost var before: Ledger := lib.State();
      LeadsNowhere(before);
      while registry != map[]
        invariant Valid() && Leads(before, lib.State())
        invariant Emptying(old(registry), registry, before.h.boxes, lib.boxes)
        decreases |registry|
      {
        ghost var turn, rest := lib.State(), registry;
        var p :| p in registry;
        EmptyingOne(old(registry), rest, before.h.boxes, lib.boxes, p);
        UnmapBuffer(p);
        LeadsOn(before, turn, lib.State());
      }
    }
  }

  /** The containers of the buffers that are no longer registered. */
  function Removed(all: map<nat, Id>, left: map<nat, Id>): set<Id> {
    set p | p in all && p !in left :: all[p]
  }

  predicate Emptying(all: map<nat, Id>, left: map<nat, Id>, boxes: map<Id, Box>, boxes': map<Id, Box>) {
    && (forall p :: p in left ==> p in all && left[p] == all[p])
    && boxes' == boxes - Removed(all, left)
  }

  lemma EmptyingOne(all: map<nat, Id>, left: map<nat, Id>, boxes: map<Id, Box>, boxes': map<Id, Box>, p: nat)
    requires Emptying(all, left, boxes, boxes') && p in left
    ensures Emptying(all, left - {p}, boxes, boxes' - {left[p]}) && |left - {p}| < |left|
  {
    assert (left - {p}).Keys == left.Keys - {p};
    assert Removed(all, left - {p}) == Removed(all, left) + {left[p]};
  }

  lemma HandleReady(g: Globals, c: Id)
    requires Reached(g) && c in g.handles
    ensures c in g.b.h.users && HandleOk(g.handles[c]) && HandleBoxes(g.handles[c]) <= g.b.h.boxes.Keys
    ensures g.handles[c].aq in g.b.h.refs && g.b.h.refs[g.handles[c].aq] == Ref(c, Some(g.handles[c].aqMem))
    ensures Queues(c, g.handles[c].qps) <= g.cqs && Queues(c, g.handles[c].qps) <= g.sqs
  {
    ReachedInv(g);
    HandleDisowns(g.b.h.boxes.Keys, g.owner, g.handles, g.registry, c);
  }

  lemma HandleForgotten(g: Globals, g': Globals, c: Id, refused: nat, refused': nat)
    requires Leads(g.b, g'.b) && Quiet(g'.b) && c in g.handles && g'.b.h.users == g.b.h.users - {c}
    requires g'.b.h.refs == g.b.h.refs - {g.handles[c].aq} && g'.b.h.boxes == g.b.h.boxes - HandleBoxes(g.handles[c])
    requires Retired(Queues(c, g.handles[c].qps), g.cqs, g'.cqs, g.sqs, g'.sqs, refused, refused')
    requires g'.registry == g.registry && g'.handles == g.handles - {c}
    requires g'.defaultCtrl == if g.defaultCtrl == Some(c) then None else g.defaultCtrl
    requires g'.owner == g.owner - HandleBoxes(g.handles[c])
    ensures DropsHandle(g, g', c)
  {
  }

  lemma FreshCtrl(g: Globals)
    requires Reached(g)
    ensures NoQueues(g.b.h.next, g.cqs) && NoQueues(g.b.h.next, g.sqs)
  {
    ReachedInv(g);
  }

  ghost function WorldOf(g: Globals, bufs: set<nat>): Holdings {
    Holdings(g.b.h.boxes, bufs, g.cqs, g.sqs)
  }

  lemma HandleFailed(g: Globals, g': Globals, c: Id, bufs: set<nat>, refused: nat, refused': nat, late: nat, late': nat)
    requires Leads(g.b, g'.b) && Quiet(g'.b) && SameBut(g.b.h, g'.b.h)
    requires g' == g.(b := g'.b, cqs := g'.cqs, sqs := g'.sqs)
    requires Undone(c, WorldOf(g, bufs), WorldOf(g', bufs), refused, refused', late, late')
    requires g'.cqs != g.cqs || g'.sqs != g.sqs ==> c < g'.b.h.next
    ensures Fails(g, g') && (refused' == refused && late' == late <==> g'.cqs == g.cqs && g'.sqs == g.sqs)
  {
  }

  lemma HandleEntered(g: Globals, g': Globals, c: Id, h: Handle, bufs: set<nat>, bufs': set<nat>)
    requires Reached(g) && Leads(g.b, g'.b) && Quiet(g'.b) && c == g.b.h.next
    requires Entered(g.b.h, g'.b.h, c, h) && Equipped(c, h, WorldOf(g, bufs), WorldOf(g', bufs'))
    requires g'.registry == g.registry && g'.handles == g.handles[c := h]
    requires g'.defaultCtrl == if g.defaultCtrl.None? then Some(c) else g.defaultCtrl
    requires g'.owner == Assign(g.owner, HandleBoxes(h), OfHandle(c))
    ensures AddsHandle(g, g', c, h)
  {
    ReachedInv(g);
    LedgerGood(g.b);
  }

  lemma FailsAtOnce(g: Globals)
    requires Reached(g)
    ensures Fails(g, g)
  {
    ReachedInv(g);
    LeadsNowhere(g.b);
  }

  lemma DefaultLive(g: Globals)
    requires Reached(g) && g.defaultCtrl.Some?
    ensures g.defaultCtrl.value in g.b.h.ctrls
  {
    ReachedInv(g);
    UserLive(g.b, g.defaultCtrl.value);
  }

  lemma BufferLive(g: Globals, p: nat)
    requires Reached(g) && p in g.registry
    ensures g.registry[p] in g.b.h.boxes
  {
    ReachedInv(g);
    assert g.registry[p] in Part(g.owner, OfBuffer(p));
  }
}
