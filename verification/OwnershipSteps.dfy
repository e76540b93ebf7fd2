/**
 The elementary changes that libnvm's reference-counted operations are made of, and what every run
 of them keeps: each count equals its holders, and what ends, ends once and in order.
 */
module OwnershipSteps {
  import opened Arithmetic
  import opened Ownership

  /** The heap, and the controller and map references that a running call keeps in local variables. */
  datatype Books = Books(h: Heap, hc: multiset<Id>, hm: multiset<Id>)

  datatype Step =
    | NewCtrl(device: bool)            // create_handle for a new user
    | DropUser(c: Id)                  // the user gives the handle up: nvm_ctrl_free
    | GetCtrl(c: Id)                   // _nvm_ctrl_get
    | PutCtrl(c: Id)                   // _nvm_ctrl_put
    | NewMapping(c: Id, mapped: bool)  // a finished map and its first container become visible
    | GetMap(m: Id)                    // get_map
    | PutMap(m: Id)                    // put_map, up to the controller reference it ends with
    | AddBox(m: Id)                    // create_container on an existing map
    | DropBox(k: Id)                   // remove_container takes the map reference out
    | AddRef(c: Id)                    // _nvm_ref_get
    | BindRef(r: Id, k: Id)            // the reference gets its local admin descriptor
    | DropRef(r: Id)                   // _nvm_ref_put takes the controller reference out

  predicate Enabled(b: Books, step: Step) {
    match step
    case NewCtrl(_) => true
    case DropUser(c) => c in b.h.users
    case GetCtrl(c) => c in b.h.ctrls
    case PutCtrl(c) => c in b.hc && c in b.h.ctrls && 0 < b.h.ctrls[c].count
    case NewMapping(c, _) => c in b.hc
    case GetMap(m) => m in b.h.maps
    case PutMap(m) => m in b.hm && m in b.h.maps && 0 < b.h.maps[m].count
    case AddBox(m) => m in b.hm
    case DropBox(k) => k in b.h.boxes
    case AddRef(c) => c in b.hc
    case BindRef(r, _) => r in b.h.refs
    case DropRef(r) => r in b.h.refs
  }

  function Apply(b: Books, step: Step): Books
    requires Enabled(b, step)
  {
    var h := b.h;
    match step
    case NewCtrl(device) =>
      b.(h := h.(ctrls := h.ctrls[h.next := Ctrl(1, device)], users := h.users + {h.next}, next := h.next + 1))
    case DropUser(c) => b.(h := h.(users := h.users - {c}), hc := b.hc + multiset{c})
    case GetCtrl(c) =>
      b.(h := h.(ctrls := h.ctrls[c := h.ctrls[c].(count := h.ctrls[c].count + 1)]), hc := b.hc + multiset{c})
    case PutCtrl(c) => b.(h := AfterPutCtrl(h, c), hc := b.hc - multiset{c})
    case NewMapping(c, mapped) => AfterPublish(b, MapDesc(1, c, mapped))
    case GetMap(m) =>
      b.(h := h.(maps := h.maps[m := h.maps[m].(count := h.maps[m].count + 1)]), hm := b.hm + multiset{m})
    case PutMap(m) => AfterPutMap(b, m)
    case AddBox(m) => AfterAddBox(b, m)
    case DropBox(k) => b.(h := h.(boxes := h.boxes - {k}), hm := b.hm + multiset{h.boxes[k].desc})
    case AddRef(c) => b.(h := h.(refs := h.refs[h.next := Ref(c, None)], next := h.next + 1), hc := b.hc - multiset{c})
    case BindRef(r, k) => b.(h := h.(refs := h.refs[r := h.refs[r].(qmem := Some(k))]))
    case DropRef(r) => b.(h := h.(refs := h.refs - {r}), hc := b.hc + multiset{h.refs[r].ctrl})
  }

  function AfterPublish(b: Books, d: MapDesc): Books {
    var h := b.h;
    var maps, boxes := h.maps[h.next := d], h.boxes[h.next + 1 := Box(h.next)];
    b.(h := h.(maps := maps, boxes := boxes, next := h.next + 2), hc := b.hc - multiset{d.ctrl})
  }

  function AfterAddBox(b: Books, m: Id): Books {
    b.(h := b.h.(boxes := b.h.boxes[b.h.next := Box(m)], next := b.h.next + 1), hm := b.hm - multiset{m})
  }

  /** The last reference releases the device, if there is one, and frees the handle. */
  function AfterPutCtrl(h: Heap, c: Id): Heap
    requires c in h.ctrls && 0 < h.ctrls[c].count
  {
    if h.ctrls[c].count == 1 then
      h.(ctrls := h.ctrls - {c}, log := if h.ctrls[c].device then h.log + [DeviceReleased(c)] else h.log)
    else h.(ctrls := h.ctrls[c := h.ctrls[c].(count := h.ctrls[c].count - 1)])
  }

  /** The last reference unmaps the range if it was mapped and releases it; the caller gets its controller reference. */
  function AfterPutMap(b: Books, m: Id): Books
    requires m in b.h.maps && 0 < b.h.maps[m].count
  {
    var h, d := b.h, b.h.maps[m];
    if d.count == 1 then
      Books(h.(maps := h.maps - {m}, log := h.log + RangeEvents(d, m)), b.hc + multiset{d.ctrl}, b.hm - multiset{m})
    else b.(h := h.(maps := h.maps[m := d.(count := d.count - 1)]), hm := b.hm - multiset{m})
  }

  function RangeEvents(d: MapDesc, m: Id): seq<Event> {
    (if d.mapped then [RangeUnmapped(d.ctrl, m)] else []) + [RangeReleased(d.ctrl, m)]
  }

  // ------------------------------------------------------------------------- balance

  predicate Even(b: Books) {
    Balanced(b.h, b.hc, b.hm)
  }

  predicate CtrlEven(b: Books) {
    CtrlSide(b.h.ctrls, b.h.maps, b.h.refs, b.h.users, b.hc)
  }

  predicate MapEven(b: Books) {
    MapSide(b.h.maps, b.h.boxes, b.hm)
  }

  lemma CtrlStepEven(b: Books, step: Step)
    requires CtrlEven(b) && Fresh(b.h) && Enabled(b, step)
    requires step.NewCtrl? || step.DropUser? || step.GetCtrl? || step.PutCtrl?
    ensures CtrlEven(Apply(b, step))
  {
    var h, hc := b.h, b.hc;
    match step
    case NewCtrl(device) => NewCtrlSide(h.ctrls, h.maps, h.refs, h.users, hc, h.next, device);
    case DropUser(c) => DropUserCtrlSide(h.ctrls, h.maps, h.refs, h.users, hc, c);
    case GetCtrl(c) => GetCtrlSide(h.ctrls, h.maps, h.refs, h.users, hc, c);
    case PutCtrl(c) =>
      assert hc == hc - multiset{c} + multiset{c};
      if h.ctrls[c].count == 1 {
        LastCtrlSide(h.ctrls, h.maps, h.refs, h.users, hc - multiset{c}, c);
      } else {
        PutCtrlSide(h.ctrls, h.maps, h.refs, h.users, hc - multiset{c}, c);
      }
  }

  lemma MapStepEven(b: Books, step: Step)
    requires CtrlEven(b) && Fresh(b.h) && Enabled(b, step) && (step.NewMapping? || step.GetMap? || step.PutMap?)
    ensures CtrlEven(Apply(b, step))
  {
    var h, hc := b.h, b.hc;
    match step
    case NewMapping(c, mapped) =>
      assert hc == hc - multiset{c} + multiset{c};
      NewMapCtrlSide(h.ctrls, h.maps, h.refs, h.users, hc - multiset{c}, h.next, MapDesc(1, c, mapped));
    case GetMap(m) => SameCtrlSide(h.ctrls, h.maps, h.refs, h.users, hc, Apply(b, step).h.maps, h.refs);
    case PutMap(m) =>
      if h.maps[m].count == 1 {
        DropMapCtrlSide(h.ctrls, h.maps, h.refs, h.users, hc, m);
      } else {
        SameCtrlSide(h.ctrls, h.maps, h.refs, h.users, hc, Apply(b, step).h.maps, h.refs);
      }
  }

  lemma RefStepEven(b: Books, step: Step)
    requires CtrlEven(b) && Fresh(b.h) && Enabled(b, step) && (step.AddRef? || step.BindRef? || step.DropRef?)
    ensures CtrlEven(Apply(b, step))
  {
    var h, hc := b.h, b.hc;
    match step
    case AddRef(c) =>
      assert hc == hc - multiset{c} + multiset{c};
      NewRefCtrlSide(h.ctrls, h.maps, h.refs, h.users, hc - multiset{c}, h.next, Ref(c, None));
    case BindRef(r, k) => SameCtrlSide(h.ctrls, h.maps, h.refs, h.users, hc, h.maps, Apply(b, step).h.refs);
    case DropRef(r) => DropRefCtrlSide(h.ctrls, h.maps, h.refs, h.users, hc, r);
  }

  lemma StepCtrlEven(b: Books, step: Step)
    requires CtrlEven(b) && Fresh(b.h) && Enabled(b, step)
    ensures CtrlEven(Apply(b, step))
  {
    match step
    case AddBox(_) =>
    case DropBox(_) =>
    case NewMapping(_, _) => MapStepEven(b, step);
    case GetMap(_) => MapStepEven(b, step);
    case PutMap(_) => MapStepEven(b, step);
    case AddRef(_) => RefStepEven(b, step);
    case BindRef(_, _) => RefStepEven(b, step);
    case DropRef(_) => RefStepEven(b, step);
    case _ => CtrlStepEven(b, step);
  }

  lemma MapCountEven(b: Books, step: Step)
    requires MapEven(b) && Enabled(b, step) && (step.GetMap? || step.PutMap?)
    ensures MapEven(Apply(b, step))
  {
    var h, hm := b.h, b.hm;
    match step
    case GetMap(m) => GetMapMapSide(h.maps, h.boxes, hm, m);
    case PutMap(m) =>
      assert hm == hm - multiset{m} + multiset{m};
      if h.maps[m].count == 1 {
        DropMapMapSide(h.maps, h.boxes, hm - multiset{m}, m);
      } else {
        PutMapMapSide(h.maps, h.boxes, hm - multiset{m}, m);
      }
  }

  lemma BoxStepEven(b: Books, step: Step)
    requires MapEven(b) && Fresh(b.h) && Enabled(b, step) && (step.NewMapping? || step.AddBox? || step.DropBox?)
    ensures MapEven(Apply(b, step))
  {
    var h, hm := b.h, b.hm;
    match step
    case NewMapping(c, mapped) =>
      NewMapMapSide(h.maps, h.boxes, hm, h.next, MapDesc(1, c, mapped));
      NewBoxMapSide(h.maps[h.next := MapDesc(1, c, mapped)], h.boxes, hm, h.next + 1, Box(h.next));
    case AddBox(m) =>
      assert hm == hm - multiset{m} + multiset{m};
      NewBoxMapSide(h.maps, h.boxes, hm - multiset{m}, h.next, Box(m));
    case DropBox(k) => DropBoxMapSide(h.maps, h.boxes, hm, k);
  }

  lemma StepMapEven(b: Books, step: Step)
    requires MapEven(b) && Fresh(b.h) && Enabled(b, step)
    ensures MapEven(Apply(b, step))
  {
    match step
    case GetMap(_) => MapCountEven(b, step);
    case PutMap(_) => MapCountEven(b, step);
    case NewMapping(_, _) => BoxStepEven(b, step);
    case AddBox(_) => BoxStepEven(b, step);
    case DropBox(_) => BoxStepEven(b, step);
    case _ => assert Apply(b, step).h.maps == b.h.maps && Apply(b, step).h.boxes == b.h.boxes && Apply(b, step).hm == b.hm;
  }

  lemma CountedFresh(b: Books, step: Step)
    requires Fresh(b.h) && Enabled(b, step)
    ensures Below(Apply(b, step).h.ctrls, Apply(b, step).h.next) && Below(Apply(b, step).h.maps, Apply(b, step).h.next)
  {
  }

  lemma BoxesFresh(b: Books, step: Step)
    requires Fresh(b.h) && Enabled(b, step)
    ensures Below(Apply(b, step).h.boxes, Apply(b, step).h.next)
  {
  }

  lemma RefsFresh(b: Books, step: Step)
    requires Fresh(b.h) && Enabled(b, step)
    ensures Below(Apply(b, step).h.refs, Apply(b, step).h.next)
  {
  }

  // ------------------------------------------------------------------------- history

  /** Only fresh names appear, so what was gone stays gone. */
  lemma LogStays(h: Heap, h': Heap)
    requires LogOk(h) && h'.log == h.log && h.next <= h'.next
    requires forall c :: c in h'.ctrls ==> c in h.ctrls || h.next <= c
    requires forall m :: m in h'.maps ==> m in h.maps || h.next <= m
    ensures LogOk(h')
  {
    forall i | 0 <= i < |h'.log|
      ensures Past(h', h'.log[i])
    {
      assert Past(h, h.log[i]);
    }
  }

  /** A change that ends nothing and only adds fresh objects leaves no trace in the history. */
  lemma EndsNothing(h: Heap, h': Heap)
    requires LogOk(h) && h'.log == h.log && h.next <= h'.next
    requires Widens(h.ctrls, h'.ctrls, h.next) && CtrlsAgree(h.ctrls, h'.ctrls)
    requires Widens(h.maps, h'.maps, h.next) && MapsAgree(h.maps, h'.maps)
    ensures LogOk(h') && Evolves(h, h')
  {
    LogStays(h, h');
  }

  predicate Widens<T>(a: map<Id, T>, b: map<Id, T>, next: Id) {
    && (forall x :: x in a ==> x in b)
    && (forall x :: x in b ==> x in a || next <= x)
  }

  /** An event that follows everything in the log keeps the log in order. */
  lemma Appended(h: Heap, h': Heap, e: Event)
    requires LogOk(h) && h'.log == h.log + [e] && h.next == h'.next
    requires h'.ctrls.Keys <= h.ctrls.Keys && h'.maps.Keys <= h.maps.Keys && Past(h', e)
    requires forall i :: 0 <= i < |h.log| ==> Follows(h.log[i], e)
    ensures LogOk(h')
  {
    forall i | 0 <= i < |h'.log|
      ensures Past(h', h'.log[i])
    {
      assert i < |h.log| ==> Past(h, h.log[i]);
    }
    assert forall i, j :: 0 <= i < j < |h'.log| ==> Follows(h'.log[i], h'.log[j]);
  }

  lemma LastPutLogged(h: Heap, c: Id)
    requires LogOk(h) && Fresh(h) && c in h.ctrls && h.ctrls[c].count == 1
    ensures LogOk(AfterPutCtrl(h, c)) && Evolves(h, AfterPutCtrl(h, c))
  {
    var h' := AfterPutCtrl(h, c);
    if h.ctrls[c].device {
      forall i | 0 <= i < |h.log|
        ensures Follows(h.log[i], DeviceReleased(c))
      {
        assert Past(h, h.log[i]);
      }
      Appended(h, h', DeviceReleased(c));
      assert h'.log[|h.log|] == DeviceReleased(c);
    } else {
      LogStays(h, h');
    }
  }

  /** A map ends while its controller lives, so no range outlives its device. */
  lemma RangeLogged(h: Heap, m: Id)
    requires LogOk(h) && Fresh(h) && m in h.maps && h.maps[m].ctrl in h.ctrls
    ensures LogOk(h.(maps := h.maps - {m}, log := h.log + RangeEvents(h.maps[m], m)))
  {
    var d := h.maps[m];
    var gone := h.(maps := h.maps - {m});
    LogStays(h, gone);
    forall i | 0 <= i < |h.log|
      ensures Follows(h.log[i], RangeUnmapped(d.ctrl, m)) && Follows(h.log[i], RangeReleased(d.ctrl, m))
    {
      assert Past(h, h.log[i]);
    }
    if d.mapped {
      var unmapped := gone.(log := h.log + [RangeUnmapped(d.ctrl, m)]);
      Appended(gone, unmapped, RangeUnmapped(d.ctrl, m));
      Appended(unmapped, unmapped.(log := unmapped.log + [RangeReleased(d.ctrl, m)]), RangeReleased(d.ctrl, m));
      assert unmapped.log + [RangeReleased(d.ctrl, m)] == h.log + RangeEvents(d, m);
    } else {
      Appended(gone, gone.(log := h.log + [RangeReleased(d.ctrl, m)]), RangeReleased(d.ctrl, m));
      assert RangeEvents(d, m) == [RangeReleased(d.ctrl, m)];
    }
  }

  lemma LastMapEvolves(h: Heap, m: Id)
    requires LogOk(h) && Fresh(h) && m in h.maps
    ensures Evolves(h, h.(maps := h.maps - {m}, log := h.log + RangeEvents(h.maps[m], m)))
  {
    var d, log := h.maps[m], h.log + RangeEvents(h.maps[m], m);
    if d.mapped {
      assert log[|h.log|] == RangeUnmapped(d.ctrl, m) && log[|h.log| + 1] == RangeReleased(d.ctrl, m);
    } else {
      assert log[|h.log|] == RangeReleased(d.ctrl, m);
    }
    assert MapEnded(d, m, log);
  }

  predicate EndsSomething(b: Books, step: Step)
    requires Enabled(b, step)
  {
    (step.PutCtrl? && b.h.ctrls[step.c].count == 1) || (step.PutMap? && b.h.maps[step.m].count == 1)
  }

  lemma CtrlsWiden(b: Books, step: Step)
    requires Enabled(b, step) && Fresh(b.h) && !EndsSomething(b, step)
    ensures Widens(b.h.ctrls, Apply(b, step).h.ctrls, b.h.next)
  {
  }

  lemma CtrlsStay(b: Books, step: Step)
    requires Enabled(b, step) && Fresh(b.h)
    ensures CtrlsAgree(b.h.ctrls, Apply(b, step).h.ctrls)
  {
    match step
    case NewCtrl(_) => assert b.h.next !in b.h.ctrls;
    case GetCtrl(_) =>
    case PutCtrl(_) =>
    case _ => assert Apply(b, step).h.ctrls == b.h.ctrls;
  }

  lemma MapsWiden(b: Books, step: Step)
    requires Enabled(b, step) && Fresh(b.h) && !EndsSomething(b, step)
    ensures Widens(b.h.maps, Apply(b, step).h.maps, b.h.next)
  {
  }

  lemma MapsStay(b: Books, step: Step)
    requires Enabled(b, step) && Fresh(b.h)
    ensures MapsAgree(b.h.maps, Apply(b, step).h.maps)
  {
    match step
    case NewMapping(_, _) => assert b.h.next !in b.h.maps;
    case GetMap(_) =>
    case PutMap(_) =>
    case _ => assert Apply(b, step).h.maps == b.h.maps;
  }

  lemma StepHistory(b: Books, step: Step)
    requires LogOk(b.h) && Fresh(b.h) && CtrlEven(b) && Enabled(b, step)
    ensures LogOk(Apply(b, step).h) && Evolves(b.h, Apply(b, step).h)
  {
    var h := b.h;
    if step.PutCtrl? && h.ctrls[step.c].count == 1 {
      LastPutLogged(h, step.c);
    } else if step.PutMap? && h.maps[step.m].count == 1 {
      RangeLogged(h, step.m);
      LastMapEvolves(h, step.m);
    } else {
      CtrlsWiden(b, step);
      CtrlsStay(b, step);
      MapsWiden(b, step);
      MapsStay(b, step);
      EndsNothing(h, Apply(b, step).h);
    }
  }

  // ---------------------------------------------------------------------------- runs

  predicate Good(b: Books) {
    Even(b) && LogOk(b.h)
  }

  lemma StepGood(b: Books, step: Step)
    requires Good(b) && Enabled(b, step)
    ensures Good(Apply(b, step)) && Evolves(b.h, Apply(b, step).h)
  {
    StepCtrlEven(b, step);
    StepMapEven(b, step);
    CountedFresh(b, step);
    BoxesFresh(b, step);
    RefsFresh(b, step);
    StepHistory(b, step);
  }

  ghost predicate Runs(b: Books, steps: seq<Step>, t: Books)
    decreases |steps|
  {
    if steps == [] then b == t
    else Enabled(b, steps[0]) && Runs(Apply(b, steps[0]), steps[1..], t)
  }

  lemma {:induction false} RunsAppend(b: Books, xs: seq<Step>, u: Books, ys: seq<Step>, t: Books)
    requires Runs(b, xs, u) && Runs(u, ys, t)
    ensures Runs(b, xs + ys, t)
    decreases |xs|
  {
    if xs == [] {
      assert xs + ys == ys;
    } else {
      RunsAppend(Apply(b, xs[0]), xs[1..], u, ys, t);
      assert (xs + ys)[1..] == xs[1..] + ys;
    }
  }

  /** Every run keeps the books balanced and in order, and ends what it ends properly. */
  lemma {:induction false} RunGood(b: Books, steps: seq<Step>, t: Books)
    requires Good(b) && Runs(b, steps, t)
    ensures Good(t) && Evolves(b.h, t.h)
    decreases |steps|
  {
    if steps == [] {
      EndsNothing(b.h, b.h);
    } else {
      StepGood(b, steps[0]);
      RunGood(Apply(b, steps[0]), steps[1..], t);
      EvolvesTransitive(b.h, Apply(b, steps[0]).h, t.h);
    }
  }

  const EMPTY := Books(Heap(map[], map[], map[], map[], {}, 0, []), multiset{}, multiset{})

  lemma EmptyGood()
    ensures Good(EMPTY)
  {
  }

  ghost predicate Reachable(b: Books) {
    exists steps: seq<Step> :: Runs(EMPTY, steps, b)
  }

  ghost function Origin(): (b: Books)
    ensures Reachable(b)
  {
    assert Runs(EMPTY, [], EMPTY);
    EMPTY
  }

  /** The books of a process that has used nothing but these operations. */
  type Ledger = b: Books | Reachable(b) ghost witness Origin()

  lemma LedgerGood(b: Ledger)
    ensures Good(b)
  {
    var steps: seq<Step> :| Runs(EMPTY, steps, b);
    EmptyGood();
    RunGood(EMPTY, steps, b);
  }

  /** Some run leads from one state of the books to another. */
  ghost predicate Leads(b: Books, t: Books) {
    exists steps: seq<Step> :: Runs(b, steps, t)
  }

  lemma LeadsNowhere(b: Books)
    ensures Leads(b, b)
  {
    assert Runs(b, [], b);
  }

  lemma LeadsOn(b: Books, u: Books, t: Books)
    requires Leads(b, u) && Leads(u, t)
    ensures Leads(b, t)
  {
    var xs: seq<Step> :| Runs(b, xs, u);
    var ys: seq<Step> :| Runs(u, ys, t);
    RunsAppend(b, xs, u, ys, t);
  }

  lemma LeadsEvolves(b: Ledger, t: Books)
    requires Leads(b, t)
    ensures Evolves(b.h, t.h)
  {
    LedgerGood(b);
    var steps: seq<Step> :| Runs(b, steps, t);
    RunGood(b, steps, t);
  }

  ghost function After(b: Ledger, step: Step): (t: Ledger)
    requires Enabled(b, step)
    ensures t == Apply(b, step) && Leads(b, t)
  {
    var t := Apply(b, step);
    assert [step][1..] == [];
    assert Runs(t, [], t);
    assert Runs(b, [step], t);
    LeadsOn(EMPTY, b, t);
    t
  }

  /** A state that a run returns to has the same objects and the same counts. */
  lemma Restored(b: Ledger, t: Ledger)
    requires Leads(b, t) && b.hc == b.hm == multiset{} == t.hc == t.hm
    requires t.h.boxes == b.h.boxes && t.h.refs == b.h.refs && t.h.users == b.h.users
    ensures SameBut(b.h, t.h)
  {
    LedgerGood(b);
    LedgerGood(t);
    LeadsEvolves(b, t);
    Determined(b.h, t.h);
  }

  /** A reference that a call keeps points to something live. */
  lemma HeldCtrlLive(b: Ledger, c: Id)
    requires c in b.hc
    ensures c in b.h.ctrls && 0 < b.h.ctrls[c].count
  {
    LedgerGood(b);
  }

  lemma HeldMapLive(b: Ledger, m: Id)
    requires m in b.hm
    ensures m in b.h.maps && 0 < b.h.maps[m].count && b.h.maps[m].ctrl in b.h.ctrls
  {
    LedgerGood(b);
  }

  lemma BoxLive(b: Ledger, k: Id)
    requires k in b.h.boxes
    ensures b.h.boxes[k].desc in b.h.maps && b.h.maps[b.h.boxes[k].desc].ctrl in b.h.ctrls && k < b.h.next
  {
    LedgerGood(b);
  }
}
