/**
 A queue pair in memory: the two descriptors, the ring memory they point to, the PRP page, and the
 controller on the other side.  Every method is one step of the protocol, or a wait in which the
 controller takes any steps it likes.
 */
module QueuePairs {
  import opened Arithmetic
  import opened Rings
  import opened Protocol
  import opened ProtocolSafety

  // -------------------------------------------------- what a controller can do by itself

  predicate DeviceOnly(steps: seq<Step>) {
    forall i :: 0 <= i < |steps| ==> !HostStep(steps[i])
  }

  /** The host's side is untouched; what was executed saw the present PRP page. */
  predicate DeviceRan(s: State, t: State) {
    && t.sq == s.sq && t.cq == s.cq && t.sqMem == s.sqMem && t.prp == s.prp
    && t.his == s.his.(fetched := t.his.fetched, cpls := t.his.cpls, ran := t.his.ran)
    && s.his.fetched <= t.his.fetched && s.his.ran <= t.his.ran
    && (forall i :: i in t.dev.pending ==> i in s.dev.pending || i >= s.his.fetched)
    && (forall j :: |s.his.ran| <= j < |t.his.ran| ==>
          t.his.ran[j].page == s.prp
          && (t.his.ran[j].index in s.dev.pending || t.his.ran[j].index >= s.his.fetched))
  }

  lemma DeviceStepRan(s: State, step: Step)
    requires Inv(s) && Enabled(s, step) && !HostStep(step)
    ensures DeviceRan(s, Apply(s, step))
  {
  }

  lemma DeviceRanTransitive(s: State, t: State, u: State)
    requires DeviceRan(s, t) && DeviceRan(t, u)
    ensures DeviceRan(s, u)
  {
  }

  lemma {:induction false} DeviceRunRan(s: State, steps: seq<Step>, t: State)
    requires Inv(s) && Runs(s, steps, t) && DeviceOnly(steps)
    ensures Inv(t) && DeviceRan(s, t)
    decreases |steps|
  {
    if steps != [] {
      var u := Apply(s, steps[0]);
      StepKeepsInv(s, steps[0]);
      DeviceStepRan(s, steps[0]);
      assert DeviceOnly(steps[1..]);
      DeviceRunRan(u, steps[1..], t);
      DeviceRanTransitive(s, u, t);
    }
  }

  /** With nothing announced and nothing held, the controller has no step to take. */
  predicate Quiet(s: State) {
    s.his.fetched == s.his.sub && s.dev.pending == map[]
  }

  lemma {:induction false} QuietStays(s: State, steps: seq<Step>, t: State)
    requires Inv(s) && Quiet(s) && Runs(s, steps, t) && DeviceOnly(steps)
    ensures t == s
  {
    if steps != [] {
      assert !HostStep(steps[0]);
      NoStepEnabled(s, steps[0]);
    }
  }

  lemma NoStepEnabled(s: State, step: Step)
    requires RingInv(s) && Quiet(s) && !HostStep(step)
    ensures !Enabled(s, step)
  {
  }

  // ------------------------------------------------------------------ the queue pair

  /** A descriptor just cleared, over zeroed memory and a doorbell register at zero. */
  method CreatedQueue<E>(size: nat, zero: E) returns (q: Queue<E>)
    requires 2 <= size <= 0x1_0000
    ensures fresh(q) && fresh(q.vaddr) && q.db != null && fresh(q.db)
    ensures q.View() == Cleared(size, 0) && q.vaddr[..] == seq(size, _ => zero)
  {
    var memory := new E[size](_ => zero);
    var bell := new Doorbell();
    q := new Queue<E>(memory);
    var _ := q.Clear(size, size, bell, memory);
    assert memory[..] == seq(size, _ => zero);
  }

  /** Counts the polls of a completion queue. */
  class Meter {
    ghost var polls: nat

    constructor ()
      ensures polls == 0
    {
      polls := 0;
    }
  }

  class QueuePair {
    const sq: Queue<Cmd>
    const cq: Queue<Cpl>
    const prp: array<nat>
    const prpAddr: nat
    const meter: Meter
    var dev: Device
    var his: History

    ghost function View(): State
      reads this, sq, cq, sq.db, cq.db, sq.vaddr, cq.vaddr, prp
    {
      State(sq.View(), cq.View(), sq.vaddr[..], cq.vaddr[..], prp[..], dev, his)
    }

    ghost predicate Apart()
      reads this, sq, cq
    {
      && (sq as object) != cq && sq.db != null && cq.db != null && sq.db != cq.db
      && (sq.vaddr as object) != cq.vaddr && (sq.vaddr as object) != prp && (cq.vaddr as object) != prp
    }

    /** Enough to take any single step; runs keep the protocol invariant besides. */
    ghost predicate Valid()
      reads this, sq, cq, sq.db, cq.db, sq.vaddr, cq.vaddr, prp
    {
      Apart() && Shape(View())
    }

    /** The objects the descriptors point to. */
    ghost function Parts(): (Doorbell?, Doorbell?, array<Cmd>, array<Cpl>)
      reads sq, cq
    {
      (sq.db, cq.db, sq.vaddr, cq.vaddr)
    }

    ghost function Footprint(): set<object?>
      reads this, sq, cq
    {
      {this, sq, cq, sq.db, cq.db, sq.vaddr, cq.vaddr, prp}
    }

    /** A created pair: cleared descriptors, zeroed memory, doorbells at zero. */
    constructor (sqs: nat, cqs: nat, page: array<nat>, address: nat)
      requires 2 <= sqs <= cqs <= 0x1_0000 && 0x1_0000 % sqs == 0
      ensures Valid() && fresh(Footprint() - {page}) && fresh(meter) && prp == page && prpAddr == address
      ensures View() == Initial(sqs, cqs, page[..])
    {
      var zero: Cmd := seq(16, _ => 0);
      var s := CreatedQueue(sqs, zero);
      var c := CreatedQueue(cqs, Cpl(0, 0));
      sq, cq, prp, prpAddr := s, c, page, address;
      meter := new Meter();
      dev := Device(0, 0, true, map[]);
      his := History([], 0, 0, [], [], [], 0, 0);
      new;
      assert View() == Initial(sqs, cqs, page[..]);
    }

    // ---- host steps

    method Enqueue() returns (slot: Option<nat>)
      requires Valid()
      modifies this, sq
      ensures Valid() && Parts() == old(Parts())
      ensures View() == Apply(old(View()), Step.Enqueue)
      ensures slot == if Full(old(View()).sq) then None else Some(old(View()).sq.tail)
    {
      ghost var s := View();
      slot := sq.Enqueue();
      if slot.Some? {
        his := his.(cmds := his.cmds + [sq.vaddr[slot.value]]);
      }
      assert View() == AfterEnqueue(s);
    }

    /** Overwrite the slot of the newest command, which has not been announced. */
    method WriteNewest(slot: nat, cmd: Cmd)
      requires Valid() && his.sub < |his.cmds| && slot == Slot(|his.cmds| - 1, sq.qs)
      modifies this, sq.vaddr
      ensures Valid() && Parts() == old(Parts())
      ensures View() == Apply(old(View()), Write(|old(his).cmds| - 1, cmd))
    {
      ghost var s := View();
      sq.vaddr[slot] := cmd;
      his := his.(cmds := his.cmds[|his.cmds| - 1 := cmd]);
      assert View() == AfterWrite(s, |s.his.cmds| - 1, cmd);
    }

    method Submit()
      requires Valid() && his.upd <= his.rung
      modifies this, sq, sq.db
      ensures Valid() && Parts() == old(Parts())
      ensures View() == Apply(old(View()), Step.Submit)
    {
      ghost var s := View();
      sq.Submit();
      his := his.(sub := |his.cmds|);
      assert View() == AfterSubmit(s);
    }

    method Dequeue() returns (cpl: Option<Cpl>)
      requires Valid()
      modifies this, cq, meter
      ensures Valid() && Parts() == old(Parts()) && meter.polls == old(meter.polls) + 1
      ensures View() == Apply(old(View()), Step.Dequeue)
      ensures cpl == Polled(old(View()).cq, old(View()).cqMem)
    {
      ghost var s := View();
      meter.polls := meter.polls + 1;
      cpl := CqDequeue(cq);
      if cpl.Some? {
        his := his.(got := his.got + [cpl.value]);
      }
      assert View() == AfterDequeue(s);
    }

    /** The two updates every caller makes after reading a completion: head first, then release. */
    method Acknowledge()
      requires Valid() && his.upd < |his.got|
      modifies this, sq, cq, cq.db
      ensures Valid() && Parts() == old(Parts())
      ensures View() == AfterCqUpdate(AfterSqUpdate(old(View())))
    {
      ghost var s := View();
      sq.SqUpdate();
      his := his.(upd := his.upd + 1);
      assert View() == AfterSqUpdate(s);
      cq.CqUpdate();
      his := his.(rung := |his.got|);
      assert View() == AfterCqUpdate(AfterSqUpdate(s));
    }

    // ---- controller steps

    method DeviceFetch()
      requires Valid() && dev.fetch != sq.db.value
      modifies this
      ensures Valid() && Parts() == old(Parts())
      ensures View() == Apply(old(View()), Fetch)
    {
      ghost var s := View();
      dev, his := dev.(fetch := Advance(dev.fetch, sq.qs), pending := dev.pending[his.fetched := sq.vaddr[dev.fetch]]),
        his.(fetched := his.fetched + 1);
      assert View() == AfterFetch(s);
    }

    method DeviceComplete(i: nat, dw0: nat, status: nat)
      requires Valid() && i in dev.pending && status < 0x800
      modifies this, cq.vaddr
      ensures Valid() && Parts() == old(Parts())
      ensures View() == Apply(old(View()), Complete(i, dw0, status))
    {
      ghost var s := View();
      var c := Cpl(dw0, CplWord(CmdCid(dev.pending[i]), dev.tag, status));
      cq.vaddr[dev.post] := c;
      his := his.(cpls := his.cpls + [c], ran := his.ran + [Ran(i, dev.pending[i], prp[..])]);
      dev := dev.(post := Advance(dev.post, cq.qs),
                  tag := if dev.post + 1 == cq.qs then !dev.tag else dev.tag,
                  pending := dev.pending - {i});
      assert View() == AfterComplete(s, i, c);
    }

    /** Any controller, taking any steps for as long as it likes. */
    method Interfere() returns (ghost steps: seq<Step>)
      requires Valid()
      modifies this, cq.vaddr
      ensures Valid() && Parts() == old(Parts())
      ensures Runs(old(View()), steps, View()) && DeviceOnly(steps)
    {
      ghost var s := View();
      steps := [];
      var n: nat := *;
      while n > 0
        invariant Valid() && Parts() == old(Parts())
        invariant Runs(s, steps, View()) && DeviceOnly(steps)
      {
        ghost var step := DeviceMove();
        if step.Some? {
          steps := steps + [step.value];
        }
        n := n - 1;
      }
    }

    /** One controller step of its choice, or none. */
    method DeviceMove() returns (ghost step: Option<Step>)
      requires Valid()
      modifies this, cq.vaddr
      ensures Valid() && Parts() == old(Parts())
      ensures step.Some? ==> !HostStep(step.value)
      ensures forall s, steps :: Runs(s, steps, old(View())) ==>
                Runs(s, if step.Some? then steps + [step.value] else steps, View())
    {
      ghost var before := View();
      step := None;
      if * {
        if dev.fetch != sq.db.value {
          step := Some(Fetch);
          DeviceFetch();
        }
      } else if dev.pending != map[] {
        var i :| i in dev.pending;
        var dw0: nat, status: nat := *, *;
        if status < 0x800 {
          step := Some(Complete(i, dw0, status));
          DeviceComplete(i, dw0, status);
        }
      }
      if step.Some? {
        forall s, steps | Runs(s, steps, before)
          ensures Runs(s, steps + [step.value], View())
        {
          RunsStep(s, steps, before, step.value);
        }
      }
    }

    /**
     Poll until a completion shows or the spin limit is passed; the controller runs before each
     poll.  `last` is the state of the final poll.
     */
    method Await(limit: nat) returns (cpl: Option<Cpl>, polls: nat, ghost last: State, ghost steps: seq<Step>)
      requires Valid()
      modifies this, cq, cq.vaddr, meter
      ensures Valid() && Parts() == old(Parts())
      ensures 1 <= polls <= limit + 1 && meter.polls == old(meter.polls) + polls
      ensures Runs(old(View()), steps, last) && DeviceOnly(steps)
      ensures Shape(last) && View() == Apply(last, Step.Dequeue) && cpl == Polled(last.cq, last.cqMem)
      ensures cpl.None? ==> polls == limit + 1
    {
      ghost var s := View();
      polls, steps := 0, [];
      var spins := 0;
      while true
        invariant Valid() && Parts() == old(Parts())
        invariant polls == spins <= limit && meter.polls == old(meter.polls) + polls
        invariant Runs(s, steps, View()) && DeviceOnly(steps)
        decreases limit - spins
      {
        ghost var now := View();
        ghost var more := Interfere();
        RunsAppend(s, steps, now, more, View());
        steps := steps + more;
        last := View();
        cpl := Dequeue();
        polls := polls + 1;
        if cpl.Some? {
          break;
        }
        spins := spins + 1;
        if spins > limit {
          break;
        }
      }
    }

    /** nvm_cq_dequeue_block: poll, then sleep a millisecond at most and poll again until time is up. */
    method DequeueBlock(timeout: nat) returns (cpl: Option<Cpl>, polls: nat, ghost last: State, ghost steps: seq<Step>)
      requires Valid()
      modifies this, cq, cq.vaddr, meter
      ensures Valid() && Parts() == old(Parts())
      ensures 1 <= polls <= timeout + 1 && meter.polls == old(meter.polls) + polls
      ensures Runs(old(View()), steps, last) && DeviceOnly(steps)
      ensures Shape(last) && View() == Apply(last, Step.Dequeue) && cpl == Polled(last.cq, last.cqMem)
      ensures cpl.None? ==> polls == timeout + 1
    {
      ghost var s := View();
      var nsecs: nat := timeout * 1_000_000;
      steps := Interfere();
      last := View();
      cpl := Dequeue();
      polls := 1;
      while cpl.None? && nsecs > 0
        invariant Valid() && Parts() == old(Parts())
        invariant 1 <= polls <= timeout + 1 && meter.polls == old(meter.polls) + polls && nsecs == (timeout + 1 - polls) * 1_000_000
        invariant Runs(s, steps, last) && DeviceOnly(steps)
        invariant Shape(last) && View() == Apply(last, Step.Dequeue) && cpl == Polled(last.cq, last.cqMem)
        decreases nsecs
      {
        nsecs := nsecs - Min(1_000_000, nsecs);
        ghost var more := Interfere();
        RunsAppend(s, steps, last, more, View());
        steps := steps + more;
        last := View();
        cpl := Dequeue();
        polls := polls + 1;
      }
    }
  }
}
