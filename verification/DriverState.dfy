/**
 The driver's global state: registered handles, registered buffers and the default controller.
 In every state the driver reaches, each container belongs to exactly one handle or buffer.
 */
module DriverState {
  import opened Arithmetic
  import opened Ownership
  import opened OwnershipSteps
  import opened LibNvm
  import opened Registration

  datatype Error = InvalidValue | DriverNotInitialized | InvalidFileType | InternalError
                 | MemoryAlreadyRegistered | MemoryNotRegistered | MemoryPinningFailed

  datatype Owner = OfHandle(c: Id) | OfBuffer(p: nat)

  /** Queue pairs to create, from the two zero-based halves of the controller's answer, cut to 16 bits. */
  function NumQps(low: nat, high: nat): (n: nat)
    requires low < 0x1_0000 && high < 0x1_0000
    ensures n <= low + 1 && n <= high + 1 && n <= DEFAULT_NUM_QPS
    ensures n == 0 <==> low == 0xffff || high == 0xffff
    ensures n == 0 || n == low + 1 || n == high + 1 || n == DEFAULT_NUM_QPS
    ensures IsLeast(n, (low + 1) % 0x1_0000, (high + 1) % 0x1_0000, DEFAULT_NUM_QPS)
  {
    Min(Min((low + 1) % 0x1_0000, (high + 1) % 0x1_0000), DEFAULT_NUM_QPS)
  }

  predicate IsLeast(n: nat, x: nat, y: nat, z: nat) {
    n <= x && n <= y && n <= z && (n == x || n == y || n == z)
  }

  // ------------------------------------------------------------------------ ownership

  function Part<K>(owner: map<K, Owner>, o: Owner): set<K> {
    set k | k in owner && owner[k] == o
  }

  function Assign<K>(owner: map<K, Owner>, xs: set<K>, o: Owner): map<K, Owner> {
    owner + map k | k in xs :: o
  }

  lemma Assigned<K>(owner: map<K, Owner>, xs: set<K>, o: Owner, o': Owner)
    requires xs !! owner.Keys && forall k :: k in owner ==> owner[k] != o
    ensures Part(Assign(owner, xs, o), o') == if o' == o then xs else Part(owner, o')
  {
    var next := Assign(owner, xs, o);
    forall k | k in next
      ensures next[k] == if k in xs then o else owner[k]
    {
    }
  }

  lemma Unassigned<K>(owner: map<K, Owner>, o: Owner, o': Owner)
    ensures Part(owner - Part(owner, o), o') == if o' == o then {} else Part(owner, o')
  {
  }

  /** Every container has one owner, and every handle and buffer owns exactly its containers. */
  predicate Owned(live: set<Id>, owner: map<Id, Owner>, handles: map<Id, Handle>, registry: map<nat, Id>) {
    && owner.Keys == live
    && (forall c :: c in handles ==> Part(owner, OfHandle(c)) == HandleBoxes(handles[c]))
    && (forall p :: p in registry ==> Part(owner, OfBuffer(p)) == {registry[p]})
    && (forall k :: k in owner ==> Registered(owner[k], handles, registry))
  }

  predicate Registered(o: Owner, handles: map<Id, Handle>, registry: map<nat, Id>) {
    match o
    case OfHandle(c) => c in handles
    case OfBuffer(p) => p in registry
  }

  /** Each handle has its own admin reference, bound to its own queue memory. */
  predicate RefsMatch(refs: map<Id, Ref>, handles: map<Id, Handle>) {
    && (forall c :: c in handles ==> handles[c].aq in refs && refs[handles[c].aq] == Ref(c, Some(handles[c].aqMem)))
    && (forall r :: r in refs ==> refs[r].ctrl in handles && handles[refs[r].ctrl].aq == r)
  }

  lemma HandleOwns(live: set<Id>, owner: map<Id, Owner>, handles: map<Id, Handle>, registry: map<nat, Id>, c: Id, h: Handle)
    requires Owned(live, owner, handles, registry) && c !in handles && HandleBoxes(h) !! live
    ensures Owned(live + HandleBoxes(h), Assign(owner, HandleBoxes(h), OfHandle(c)), handles[c := h], registry)
  {
    forall k | k in owner
      ensures owner[k] != OfHandle(c)
    {
      assert Registered(owner[k], handles, registry);
    }
    forall o
      ensures Part(Assign(owner, HandleBoxes(h), OfHandle(c)), o) == if o == OfHandle(c) then HandleBoxes(h) else Part(owner, o)
    {
      Assigned(owner, HandleBoxes(h), OfHandle(c), o);
    }
  }

  lemma HandleDisowns(live: set<Id>, owner: map<Id, Owner>, handles: map<Id, Handle>, registry: map<nat, Id>, c: Id)
    requires Owned(live, owner, handles, registry) && c in handles
    ensures HandleBoxes(handles[c]) <= live
    ensures Owned(live - HandleBoxes(handles[c]), owner - HandleBoxes(handles[c]), handles - {c}, registry)
  {
    forall o
      ensures Part(owner - HandleBoxes(handles[c]), o) == if o == OfHandle(c) then {} else Part(owner, o)
    {
      Unassigned(owner, OfHandle(c), o);
    }
    var rest := owner - HandleBoxes(handles[c]);
    forall k | k in rest
      ensures Registered(rest[k], handles - {c}, registry)
    {
      assert k !in Part(owner, OfHandle(c));
    }
  }

  lemma BufferOwns(live: set<Id>, owner: map<Id, Owner>, handles: map<Id, Handle>, registry: map<nat, Id>, p: nat, k: Id)
    requires Owned(live, owner, handles, registry) && p !in registry && k !in live
    ensures Owned(live + {k}, Assign(owner, {k}, OfBuffer(p)), handles, registry[p := k])
  {
    forall x | x in owner
      ensures owner[x] != OfBuffer(p)
    {
      assert Registered(owner[x], handles, registry);
    }
    forall o
      ensures Part(Assign(owner, {k}, OfBuffer(p)), o) == if o == OfBuffer(p) then {k} else Part(owner, o)
    {
      Assigned(owner, {k}, OfBuffer(p), o);
    }
  }

  lemma BufferDisowns(live: set<Id>, owner: map<Id, Owner>, handles: map<Id, Handle>, registry: map<nat, Id>, p: nat)
    requires Owned(live, owner, handles, registry) && p in registry
    ensures registry[p] in live && Owned(live - {registry[p]}, owner - {registry[p]}, handles, registry - {p})
  {
    assert registry[p] in Part(owner, OfBuffer(p));
    forall o
      ensures Part(owner - {registry[p]}, o) == if o == OfBuffer(p) then {} else Part(owner, o)
    {
      Unassigned(owner, OfBuffer(p), o);
    }
    var rest := owner - {registry[p]};
    forall k | k in rest
      ensures Registered(rest[k], handles, registry - {p})
    {
      assert k !in Part(owner, OfBuffer(p));
    }
  }

  // --------------------------------------------------------------------------- states

  /** libnvm's books, the queues on the controllers, and the driver's own tables. */
  datatype Globals = Globals(b: Books, cqs: set<Queue>, sqs: set<Queue>, registry: map<nat, Id>, handles: map<Id, Handle>,
                             defaultCtrl: Option<Id>, owner: map<Id, Owner>)

  predicate Known(qs: set<Queue>, next: Id) {
    forall q :: q in qs ==> q.0 < next
  }

  predicate HandlesOk(handles: map<Id, Handle>, cqs: set<Queue>, sqs: set<Queue>) {
    forall c :: c in handles ==> HandleOk(handles[c]) && Queues(c, handles[c].qps) <= cqs && Queues(c, handles[c].qps) <= sqs
  }

  /** Every registered handle's controller lives and owns a device. */
  predicate OwnDevices(ctrls: map<Id, Ctrl>, cs: set<Id>) {
    forall c :: c in cs ==> c in ctrls && ctrls[c].device
  }

  /** Every handle's containers are mapped for its own controller. */
  predicate HandlesServed(h: Heap, handles: map<Id, Handle>) {
    forall c :: c in handles ==> MappedFor(h, HandleBoxes(handles[c]), c)
  }

  predicate Quiet(b: Books) {
    b.hc == multiset{} && b.hm == multiset{}
  }

  ghost predicate Inv(g: Globals) {
    && Reachable(g.b) && Quiet(g.b)
    && Known(g.cqs, g.b.h.next) && Known(g.sqs, g.b.h.next)
    && g.b.h.users == g.handles.Keys && RefsMatch(g.b.h.refs, g.handles)
    && Owned(g.b.h.boxes.Keys, g.owner, g.handles, g.registry)
    && HandlesOk(g.handles, g.cqs, g.sqs) && OwnDevices(g.b.h.ctrls, g.handles.Keys)
    && HandlesServed(g.b.h, g.handles)
    && (g.defaultCtrl.Some? ==> g.defaultCtrl.value in g.handles)
  }

  // ---------------------------------------------------------------------- transitions

  ghost predicate Moves(g: Globals, g': Globals) {
    Leads(g.b, g'.b) && Quiet(g'.b)
  }

  /** A call that fails: nothing is held that was not held before, though queues may be left on a fresh controller. */
  ghost predicate Fails(g: Globals, g': Globals) {
    && Moves(g, g') && SameBut(g.b.h, g'.b.h) && g' == g.(b := g'.b, cqs := g'.cqs, sqs := g'.sqs)
    && g.cqs <= g'.cqs && g.sqs <= g'.sqs && Known(g'.cqs - g.cqs, g'.b.h.next) && Known(g'.sqs - g.sqs, g'.b.h.next)
  }

  ghost predicate AddsBuffer(g: Globals, g': Globals, p: nat, c: Id, k: Id) {
    && Moves(g, g') && p !in g.registry && g'.b.h.users == g.b.h.users && g'.b.h.refs == g.b.h.refs
    && Mapped(g.b.h, g'.b.h, c, k, true)
    && g' == g.(b := g'.b, registry := g.registry[p := k], owner := Assign(g.owner, {k}, OfBuffer(p)))
  }

  ghost predicate DropsBuffer(g: Globals, g': Globals, p: nat) {
    && Moves(g, g') && p in g.registry && g'.b.h.users == g.b.h.users && g'.b.h.refs == g.b.h.refs
    && g'.b.h.boxes == g.b.h.boxes - {g.registry[p]}
    && g' == g.(b := g'.b, registry := g.registry - {p}, owner := g.owner - {g.registry[p]})
  }

  ghost predicate AddsHandle(g: Globals, g': Globals, c: Id, h: Handle) {
    && Moves(g, g') && c !in g.handles && c < g'.b.h.next && g'.b.h.users == g.b.h.users + {c}
    && c in g'.b.h.ctrls && g'.b.h.ctrls[c].device
    && h.aq !in g.b.h.refs && g'.b.h.refs == g.b.h.refs[h.aq := Ref(c, Some(h.aqMem))]
    && HandleOk(h) && Extra(g.b.h.boxes, g'.b.h.boxes, HandleBoxes(h)) && MappedFor(g'.b.h, HandleBoxes(h), c)
    && g' == Globals(g'.b, g.cqs + Queues(c, h.qps), g.sqs + Queues(c, h.qps), g.registry, g.handles[c := h],
                     if g.defaultCtrl.None? then Some(c) else g.defaultCtrl, Assign(g.owner, HandleBoxes(h), OfHandle(c)))
  }

  ghost predicate DropsHandle(g: Globals, g': Globals, c: Id) {
    && Moves(g, g') && c in g.handles && g'.b.h.users == g.b.h.users - {c}
    && var h := g.handles[c];
    && g'.b.h.refs == g.b.h.refs - {h.aq} && g'.b.h.boxes == g.b.h.boxes - HandleBoxes(h)
    && g.cqs - Queues(c, h.qps) <= g'.cqs <= g.cqs && g.sqs - Queues(c, h.qps) <= g'.sqs <= g.sqs
    && g' == Globals(g'.b, g'.cqs, g'.sqs, g.registry, g.handles - {c},
                     if g.defaultCtrl == Some(c) then None else g.defaultCtrl, g.owner - HandleBoxes(h))
  }

  ghost predicate Next(g: Globals, g': Globals) {
    || Fails(g, g')
    || (exists p, c, k :: AddsBuffer(g, g', p, c, k))
    || (exists p :: DropsBuffer(g, g', p))
    || (exists c, h :: AddsHandle(g, g', c, h))
    || (exists c :: DropsHandle(g, g', c))
    || g' == g.(defaultCtrl := None)
  }

  lemma MovesKeeps(g: Globals, g': Globals)
    requires Inv(g) && Moves(g, g')
    ensures Reachable(g'.b) && g.b.h.next <= g'.b.h.next
    ensures OwnDevices(g'.b.h.ctrls, g.handles.Keys * g'.b.h.users)
  {
    LeadsOn(EMPTY, g.b, g'.b);
    LeadsEvolves(g.b, g'.b);
    forall c | c in g.handles && c in g'.b.h.users
      ensures c in g'.b.h.ctrls && g'.b.h.ctrls[c].device
    {
      UserLive(g'.b, c);
    }
  }

  /** A handle whose containers stay is served as before. */
  lemma StaysServed(b: Ledger, t: Ledger, c: Id, h: Handle)
    requires Leads(b, t) && MappedFor(b.h, HandleBoxes(h), c)
    requires forall k :: k in HandleBoxes(h) ==> k in t.h.boxes && t.h.boxes[k] == b.h.boxes[k]
    ensures MappedFor(t.h, HandleBoxes(h), c)
  {
    forall k | k in HandleBoxes(h)
      ensures Serves(t.h, k, c)
    {
      assert Serves(b.h, k, c);
      ServesStill(b, t, k, c);
    }
  }

  /** Containers of handles that are not among those that went are still there. */
  lemma AllServed(b: Ledger, t: Ledger, handles: map<Id, Handle>, gone: set<Id>)
    requires Leads(b, t) && HandlesServed(b.h, handles)
    requires forall k :: k in b.h.boxes && k !in gone ==> k in t.h.boxes && t.h.boxes[k] == b.h.boxes[k]
    requires forall c :: c in handles ==> HandleBoxes(handles[c]) !! gone
    ensures HandlesServed(t.h, handles)
  {
    forall c | c in handles
      ensures MappedFor(t.h, HandleBoxes(handles[c]), c)
    {
      assert forall k :: k in HandleBoxes(handles[c]) ==> Serves(b.h, k, c);
      StaysServed(b, t, c, handles[c]);
    }
  }

  /** Different owners have different containers. */
  lemma OwnersApart(owner: map<Id, Owner>, o: Owner, o': Owner)
    requires o != o'
    ensures Part(owner, o) !! Part(owner, o')
  {
  }

  lemma FailsKeeps(g: Globals, g': Globals)
    requires Inv(g) && Fails(g, g')
    ensures Inv(g')
  {
    MovesKeeps(g, g');
    AllServed(g.b, g'.b, g.handles, {});
  }

  lemma AddsBufferKeeps(g: Globals, g': Globals, p: nat, c: Id, k: Id)
    requires Inv(g) && AddsBuffer(g, g', p, c, k)
    ensures Inv(g')
  {
    MovesKeeps(g, g');
    NewBoxExtra(g.b, g'.b.h, c, k);
    AddsBufferOwned(g, g', p, c, k);
    AddsBufferServed(g, g', p, c, k);
  }

  lemma AddsBufferOwned(g: Globals, g': Globals, p: nat, c: Id, k: Id)
    requires Owned(g.b.h.boxes.Keys, g.owner, g.handles, g.registry) && AddsBuffer(g, g', p, c, k) && k !in g.b.h.boxes
    ensures Owned(g'.b.h.boxes.Keys, g'.owner, g'.handles, g'.registry)
  {
    BufferOwns(g.b.h.boxes.Keys, g.owner, g.handles, g.registry, p, k);
    assert g'.b.h.boxes.Keys == g.b.h.boxes.Keys + {k};
  }

  lemma AddsBufferServed(g: Globals, g': Globals, p: nat, c: Id, k: Id)
    requires Reachable(g.b) && Reachable(g'.b) && HandlesServed(g.b.h, g.handles) && AddsBuffer(g, g', p, c, k) && k !in g.b.h.boxes
    ensures HandlesServed(g'.b.h, g'.handles)
  {
    AllServed(g.b, g'.b, g.handles, {});
  }

  lemma DropsBufferServed(g: Globals, g': Globals, p: nat)
    requires Reachable(g.b) && Owned(g.b.h.boxes.Keys, g.owner, g.handles, g.registry) && HandlesServed(g.b.h, g.handles)
    requires Reachable(g'.b) && DropsBuffer(g, g', p)
    ensures HandlesServed(g'.b.h, g'.handles)
  {
    forall c | c in g.handles
      ensures HandleBoxes(g.handles[c]) !! {g.registry[p]}
    {
      OwnersApart(g.owner, OfHandle(c), OfBuffer(p));
    }
    AllServed(g.b, g'.b, g.handles, {g.registry[p]});
  }

  lemma DropsHandleServed(g: Globals, g': Globals, c: Id)
    requires Reachable(g.b) && Owned(g.b.h.boxes.Keys, g.owner, g.handles, g.registry) && HandlesServed(g.b.h, g.handles)
    requires Reachable(g'.b) && DropsHandle(g, g', c)
    ensures HandlesServed(g'.b.h, g'.handles)
  {
    forall x | x in g'.handles
      ensures HandleBoxes(g'.handles[x]) !! HandleBoxes(g.handles[c])
    {
      OwnersApart(g.owner, OfHandle(x), OfHandle(c));
    }
    AllServed(g.b, g'.b, g'.handles, HandleBoxes(g.handles[c]));
  }

  lemma AddsHandleServed(g: Globals, g': Globals, c: Id, h: Handle)
    requires Reachable(g.b) && Reachable(g'.b) && HandlesServed(g.b.h, g.handles) && AddsHandle(g, g', c, h)
    ensures HandlesServed(g'.b.h, g'.handles)
  {
    forall k | k in g.b.h.boxes
      ensures k in g'.b.h.boxes && g'.b.h.boxes[k] == g.b.h.boxes[k]
    {
      assert k in g'.b.h.boxes - HandleBoxes(h);
    }
    AllServed(g.b, g'.b, g.handles, {});
  }

  lemma DropsBufferKeeps(g: Globals, g': Globals, p: nat)
    requires Inv(g) && DropsBuffer(g, g', p)
    ensures Inv(g')
  {
    MovesKeeps(g, g');
    BufferDisowns(g.b.h.boxes.Keys, g.owner, g.handles, g.registry, p);
    DropsBufferServed(g, g', p);
    assert g'.b.h.boxes.Keys == g.b.h.boxes.Keys - {g.registry[p]};
  }

  lemma RefsAdd(refs: map<Id, Ref>, handles: map<Id, Handle>, c: Id, h: Handle)
    requires RefsMatch(refs, handles) && c !in handles && h.aq !in refs
    ensures RefsMatch(refs[h.aq := Ref(c, Some(h.aqMem))], handles[c := h])
  {
  }

  lemma RefsDrop(refs: map<Id, Ref>, handles: map<Id, Handle>, c: Id)
    requires RefsMatch(refs, handles) && c in handles
    ensures RefsMatch(refs - {handles[c].aq}, handles - {c})
  {
  }

  lemma HandlesAdd(handles: map<Id, Handle>, cqs: set<Queue>, sqs: set<Queue>, c: Id, h: Handle)
    requires HandlesOk(handles, cqs, sqs) && HandleOk(h)
    ensures HandlesOk(handles[c := h], cqs + Queues(c, h.qps), sqs + Queues(c, h.qps))
  {
  }

  lemma HandlesDrop(handles: map<Id, Handle>, cqs: set<Queue>, cqs': set<Queue>, sqs: set<Queue>, sqs': set<Queue>, c: Id)
    requires HandlesOk(handles, cqs, sqs) && c in handles
    requires cqs - Queues(c, handles[c].qps) <= cqs' && sqs - Queues(c, handles[c].qps) <= sqs'
    ensures HandlesOk(handles - {c}, cqs', sqs')
  {
    forall x | x in handles - {c}
      ensures Queues(x, handles[x].qps) <= cqs' && Queues(x, handles[x].qps) <= sqs'
    {
      QueueNumbers(x, handles[x].qps);
      QueueNumbers(c, handles[c].qps);
    }
  }

  lemma KnownAdd(qs: set<Queue>, next: Id, next': Id, c: Id, qps: seq<QueuePair>)
    requires Known(qs, next) && next <= next' && c < next' && Pairs(qps)
    ensures Known(qs + Queues(c, qps), next')
  {
    QueueNumbers(c, qps);
  }

  lemma AddsHandleOwned(g: Globals, g': Globals, c: Id, h: Handle)
    requires Owned(g.b.h.boxes.Keys, g.owner, g.handles, g.registry) && AddsHandle(g, g', c, h)
    ensures Owned(g'.b.h.boxes.Keys, g'.owner, g'.handles, g'.registry)
  {
    HandleOwns(g.b.h.boxes.Keys, g.owner, g.handles, g.registry, c, h);
    assert g'.b.h.boxes.Keys == g.b.h.boxes.Keys + HandleBoxes(h);
  }

  lemma AddsHandleTables(g: Globals, g': Globals, c: Id, h: Handle)
    requires AddsHandle(g, g', c, h) && RefsMatch(g.b.h.refs, g.handles) && HandlesOk(g.handles, g.cqs, g.sqs)
    ensures RefsMatch(g'.b.h.refs, g'.handles) && HandlesOk(g'.handles, g'.cqs, g'.sqs)
  {
    RefsAdd(g.b.h.refs, g.handles, c, h);
    HandlesAdd(g.handles, g.cqs, g.sqs, c, h);
  }

  lemma AddsHandleKnown(g: Globals, g': Globals, c: Id, h: Handle)
    requires AddsHandle(g, g', c, h) && g.b.h.next <= g'.b.h.next && Known(g.cqs, g.b.h.next) && Known(g.sqs, g.b.h.next)
    ensures Known(g'.cqs, g'.b.h.next) && Known(g'.sqs, g'.b.h.next)
  {
    KnownAdd(g.cqs, g.b.h.next, g'.b.h.next, c, h.qps);
    KnownAdd(g.sqs, g.b.h.next, g'.b.h.next, c, h.qps);
  }

  lemma AddsHandleUsers(g: Globals, g': Globals, c: Id, h: Handle)
    requires AddsHandle(g, g', c, h) && g.b.h.users == g.handles.Keys && (g.defaultCtrl.Some? ==> g.defaultCtrl.value in g.handles)
    ensures g'.b.h.users == g'.handles.Keys && (g'.defaultCtrl.Some? ==> g'.defaultCtrl.value in g'.handles) && Quiet(g'.b)
  {
  }

  lemma AddsHandleKeeps(g: Globals, g': Globals, c: Id, h: Handle)
    requires Inv(g) && AddsHandle(g, g', c, h)
    ensures Inv(g')
  {
    MovesKeeps(g, g');
    AddsHandleOwned(g, g', c, h);
    AddsHandleTables(g, g', c, h);
    AddsHandleKnown(g, g', c, h);
    AddsHandleUsers(g, g', c, h);
    AddsHandleServed(g, g', c, h);
  }

  lemma DropsHandleKeeps(g: Globals, g': Globals, c: Id)
    requires Inv(g) && DropsHandle(g, g', c)
    ensures Inv(g')
  {
    MovesKeeps(g, g');
    HandleDisowns(g.b.h.boxes.Keys, g.owner, g.handles, g.registry, c);
    assert g'.b.h.boxes.Keys == g.b.h.boxes.Keys - HandleBoxes(g.handles[c]);
    RefsDrop(g.b.h.refs, g.handles, c);
    HandlesDrop(g.handles, g.cqs, g'.cqs, g.sqs, g'.sqs, c);
    DropsHandleServed(g, g', c);
  }

  lemma NextKeeps(g: Globals, g': Globals)
    requires Inv(g) && Next(g, g')
    ensures Inv(g')
  {
    if Fails(g, g') {
      FailsKeeps(g, g');
    } else if p, c, k :| AddsBuffer(g, g', p, c, k) {
      AddsBufferKeeps(g, g', p, c, k);
    } else if p :| DropsBuffer(g, g', p) {
      DropsBufferKeeps(g, g', p);
    } else if c, h :| AddsHandle(g, g', c, h) {
      AddsHandleKeeps(g, g', c, h);
    } else if c :| DropsHandle(g, g', c) {
      DropsHandleKeeps(g, g', c);
    }
  }

  // ---------------------------------------------------------------------------- runs

  const START := Globals(EMPTY, {}, {}, map[], map[], None, map[])

  ghost predicate ReachedIn(g: Globals, n: nat)
    decreases n
  {
    if n == 0 then g == START else exists g0: Globals :: ReachedIn(g0, n - 1) && Next(g0, g)
  }

  ghost predicate Reached(g: Globals) {
    exists n: nat :: ReachedIn(g, n)
  }

  lemma {:induction false} ReachedInKeeps(g: Globals, n: nat)
    requires ReachedIn(g, n)
    ensures Inv(g)
    decreases n
  {
    if n == 0 {
      assert Runs(EMPTY, [], EMPTY);
    } else {
      var g0: Globals :| ReachedIn(g0, n - 1) && Next(g0, g);
      ReachedInKeeps(g0, n - 1);
      NextKeeps(g0, g);
    }
  }

  /** The theorem about every history of the driver: tables, books and queues agree. */
  lemma ReachedInv(g: Globals)
    requires Reached(g)
    ensures Inv(g)
  {
    var n: nat :| ReachedIn(g, n);
    ReachedInKeeps(g, n);
  }

  lemma ReachedNext(g: Globals, g': Globals)
    requires Reached(g) && Next(g, g')
    ensures Reached(g')
  {
    var n: nat :| ReachedIn(g, n);
    assert ReachedIn(g', n + 1);
  }

  lemma NobodyOwns(owner: map<Id, Owner>, handles: map<Id, Handle>, registry: map<nat, Id>)
    requires handles == map[] && registry == map[] && forall k :: k in owner ==> Registered(owner[k], handles, registry)
    ensures owner == map[]
  {
    assert forall k :: k !in owner;
  }

  /** When nothing is registered, nothing is held: no controller, map, container or reference is left. */
  lemma AllReleased(g: Globals)
    requires Reached(g) && g.handles == map[] && g.registry == map[]
    ensures g.b.h.ctrls == map[] && g.b.h.maps == map[] && g.b.h.boxes == map[] && g.b.h.refs == map[] && g.b.h.users == {}
  {
    ReachedInv(g);
    var h := g.b.h;
    NobodyOwns(g.owner, g.handles, g.registry);
    assert h.boxes == map[] && h.refs == map[];
    forall m
      ensures m !in h.maps
    {
      MapLives(g.b, m);
    }
    forall c
      ensures c !in h.ctrls
    {
      CtrlLives(g.b, c);
    }
  }

  /** What entering a handle adds to the books, leaving it takes away. */
  lemma EnterLeave(g: Globals, g1: Globals, g2: Globals, c: Id, h: Handle)
    requires AddsHandle(g, g1, c, h) && DropsHandle(g1, g2, c) && c !in g.b.h.users
    ensures g2.b.h.boxes == g.b.h.boxes && g2.b.h.refs == g.b.h.refs && g2.b.h.users == g.b.h.users
  {
    assert g1.b.h.refs - {h.aq} == g.b.h.refs;
  }

  lemma TakenBack(owner: map<Id, Owner>, xs: set<Id>, o: Owner)
    requires xs !! owner.Keys
    ensures Assign(owner, xs, o) - xs == owner
  {
  }

  lemma EnterLeaveTables(g: Globals, g1: Globals, g2: Globals, c: Id, h: Handle)
    requires AddsHandle(g, g1, c, h) && DropsHandle(g1, g2, c)
    requires g.defaultCtrl != Some(c) && g.owner.Keys == g.b.h.boxes.Keys
    ensures g2.handles == g.handles && g2.registry == g.registry && g2.defaultCtrl == g.defaultCtrl && g2.owner == g.owner
  {
    DropAdded(g.handles, c, h);
    TakenBack(g.owner, HandleBoxes(h), OfHandle(c));
  }

  lemma NewHandleIsNew(g: Globals, g1: Globals, c: Id, h: Handle)
    requires Reached(g) && AddsHandle(g, g1, c, h)
    ensures c !in g.b.h.users && g.defaultCtrl != Some(c) && g.owner.Keys == g.b.h.boxes.Keys && Reachable(g.b) && Quiet(g.b)
  {
    ReachedInv(g);
  }

  /** Registering a handle and deregistering it leads back to the same tables, objects and counts. */
  lemma RegisterUndone(g: Globals, g1: Globals, g2: Globals, c: Id, h: Handle)
    requires Reached(g) && AddsHandle(g, g1, c, h) && DropsHandle(g1, g2, c)
    ensures SameBut(g.b.h, g2.b.h)
    ensures g2.handles == g.handles && g2.registry == g.registry && g2.defaultCtrl == g.defaultCtrl && g2.owner == g.owner
  {
    NewHandleIsNew(g, g1, c, h);
    EnterLeave(g, g1, g2, c, h);
    EnterLeaveTables(g, g1, g2, c, h);
    LeadsOn(g.b, g1.b, g2.b);
    LeadsOn(EMPTY, g.b, g2.b);
    Restored(g.b, g2.b);
  }

  /** Nothing but maps can keep the controller of a deregistered handle. */
  lemma OnlyMapsHold(g: Globals, g': Globals, c: Id)
    requires Reached(g) && DropsHandle(g, g', c)
    ensures Reachable(g.b) && Reachable(g'.b) && c !in g'.b.h.users && c in g.b.h.ctrls && g.b.h.ctrls[c].device
    ensures forall r :: r in g'.b.h.refs ==> g'.b.h.refs[r].ctrl != c
  {
    ReachedNext(g, g');
    ReachedInv(g);
    ReachedInv(g');
  }

  lemma DeviceEnds(b: Ledger, t: Ledger, c: Id)
    requires Leads(b, t) && Quiet(t) && c in b.h.ctrls && b.h.ctrls[c].device && c !in t.h.users
    requires forall r :: r in t.h.refs ==> t.h.refs[r].ctrl != c
    ensures DeviceReleased(c) in t.h.log <==> c !in t.h.ctrls
    ensures c !in t.h.ctrls <==> forall m :: m in t.h.maps ==> t.h.maps[m].ctrl != c
  {
    LeadsEvolves(b, t);
    CtrlLives(t, c);
    LogIsPast(t, DeviceReleased(c));
  }

  lemma LogIsPast(b: Ledger, e: Event)
    ensures e in b.h.log ==> Past(b.h, e)
  {
    LedgerGood(b);
  }

  /** What is left mapped for a deregistered handle's controller is registered buffers, all that were. */
  lemma BuffersServe(g: Globals, g': Globals, c: Id)
    requires Reached(g) && DropsHandle(g, g', c) && Reachable(g'.b)
    ensures (exists k :: Serves(g'.b.h, k, c)) <==> exists p :: p in g.registry && Serves(g.b.h, g.registry[p], c)
  {
    ReachedInv(g);
    if k :| Serves(g'.b.h, k, c) {
      ServesStill(g.b, g'.b, k, c);
      ServesOwner(g, k, c);
    }
    if p :| p in g.registry && Serves(g.b.h, g.registry[p], c) {
      OwnersApart(g.owner, OfBuffer(p), OfHandle(c));
      ServesStill(g.b, g'.b, g.registry[p], c);
    }
  }

  /** A container mapped for c belongs to c's handle or to a registered buffer. */
  lemma ServesOwner(g: Globals, k: Id, c: Id)
    requires Owned(g.b.h.boxes.Keys, g.owner, g.handles, g.registry) && HandlesServed(g.b.h, g.handles) && Serves(g.b.h, k, c)
    ensures if g.owner[k].OfHandle? then g.owner[k].c == c && c in g.handles && k in HandleBoxes(g.handles[c])
            else g.owner[k].p in g.registry && g.registry[g.owner[k].p] == k
  {
    assert Registered(g.owner[k], g.handles, g.registry) && k in Part(g.owner, g.owner[k]);
    if g.owner[k].OfHandle? {
      assert Serves(g.b.h, k, g.owner[k].c);
    }
  }

  /** A live map has a container, so it is mapped for c exactly when some container serves c. */
  lemma MapsServe(b: Ledger, c: Id)
    requires Quiet(b)
    ensures (exists m :: m in b.h.maps && b.h.maps[m].ctrl == c) <==> exists k :: Serves(b.h, k, c)
  {
    if m :| m in b.h.maps && b.h.maps[m].ctrl == c {
      MapLives(b, m);
      var k :| k in b.h.boxes && b.h.boxes[k].desc == m;
      assert Serves(b.h, k, c);
    }
  }

  /**
   Deregistering a handle closes its device at once exactly when no registered buffer is mapped for
   it; otherwise the last such buffer will close it.
   */
  lemma DeviceOutlivesBuffers(g: Globals, g': Globals, c: Id)
    requires Reached(g) && DropsHandle(g, g', c)
    ensures DeviceReleased(c) in g'.b.h.log <==> c !in g'.b.h.ctrls
    ensures DeviceReleased(c) in g'.b.h.log <==> forall p :: p in g.registry ==> !Serves(g.b.h, g.registry[p], c)
  {
    OnlyMapsHold(g, g', c);
    DeviceEnds(g.b, g'.b, c);
    MapsServe(g'.b, c);
    BuffersServe(g, g', c);
  }
}
