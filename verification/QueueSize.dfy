/** For which queue sizes the enqueue test is right on every run. */
module QueueSize {
  import opened Arithmetic
  import opened Rings
  import opened Protocol
  import opened ProtocolSafety

  /** One command goes all the way round, leaving head and tail at slot 1. */
  lemma OneRoundTrip(sqs: nat, cqs: nat) returns (steps: seq<Step>, t: State)
    requires 2 <= sqs <= cqs <= 0x1_0000
    ensures Runs(Initial(sqs, cqs, []), steps, t)
    ensures Shape(t) && t.sq.qs == sqs && t.sq.head == 1 == t.sq.tail
    ensures |t.his.cmds| == 1 == t.his.upd
  {
    var s0 := Initial(sqs, cqs, []);
    assert !Full(s0.sq);
    steps, t := [], s0;
    RunsStep(s0, steps, t, Enqueue);
    steps, t := steps + [Enqueue], Apply(t, Enqueue);
    RunsStep(s0, steps, t, Submit);
    steps, t := steps + [Submit], Apply(t, Submit);
    RunsStep(s0, steps, t, Fetch);
    steps, t := steps + [Fetch], Apply(t, Fetch);
    var done := Complete(0, 0, 0);
    CplWordFields(0, CmdCid(t.dev.pending[0]), true, 0);
    RunsStep(s0, steps, t, done);
    steps, t := steps + [done], Apply(t, done);
    RunsStep(s0, steps, t, Dequeue);
    steps, t := steps + [Dequeue], Apply(t, Dequeue);
    RunsStep(s0, steps, t, SqUpdate);
    steps, t := steps + [SqUpdate], Apply(t, SqUpdate);
  }

  /** From head 1, the test lets the tail go round to slot 0. */
  lemma {:induction false} FillRing(s: State) returns (steps: seq<Step>, t: State)
    requires Shape(s) && s.sq.head == 1 <= s.sq.tail
    ensures Runs(s, steps, t)
    ensures t.sq == s.sq.(tail := 0, phase := !s.sq.phase)
    ensures |t.his.cmds| == |s.his.cmds| + s.sq.qs - s.sq.tail && t.his.upd == s.his.upd
    decreases s.sq.qs - s.sq.tail
  {
    var d := s.sq.tail - 1;
    DivModUnique(d, s.sq.qs, 0, d);
    assert !Full(s.sq);
    t := Apply(s, Enqueue);
    if t.sq.tail == 0 {
      steps := [Enqueue];
      assert steps[1..] == [];
    } else {
      var rest;
      rest, t := FillRing(t);
      steps := [Enqueue] + rest;
      assert steps[1..] == rest;
    }
  }

  /** A run after which qs - 1 commands are outstanding across the end of the ring. */
  lemma WrappedFullRing(sqs: nat, cqs: nat) returns (steps: seq<Step>, t: State)
    requires 2 <= sqs <= cqs <= 0x1_0000
    ensures Runs(Initial(sqs, cqs, []), steps, t)
    ensures t.sq.qs == sqs && |t.his.cmds| - t.his.upd == sqs - 1
    ensures Full(t.sq) <==> 0x1_0000 % sqs == 0
  {
    var a, u := OneRoundTrip(sqs, cqs);
    var b, v := FillRing(u);
    RunsAppend(Initial(sqs, cqs, []), a, u, b, v);
    steps, t := a + b, v;
    DivModUnique(-1, 0x1_0000, -1, 0xffff);
    NextRemainder(0xffff, sqs);
  }

  ghost predicate Reached(sqs: nat, cqs: nat, prp: seq<nat>, steps: seq<Step>, t: State) {
    Runs(Initial(sqs, cqs, prp), steps, t)
  }

  predicate RefusesWhenFull(t: State) {
    0 < t.sq.qs && (Full(t.sq) <==> |t.his.cmds| - t.his.upd == t.sq.qs - 1)
  }

  /**
   On every run the queue refuses a command exactly when qs - 1 are outstanding, if and only if
   the queue size divides 65536.
   */
  lemma {:induction false} RefusalExact(sqs: nat, cqs: nat)
    requires 2 <= sqs <= cqs <= 0x1_0000
    ensures (forall prp: seq<nat>, steps: seq<Step>, t: State ::
               Reached(sqs, cqs, prp, steps, t) ==> RefusesWhenFull(t))
       <==> 0x1_0000 % sqs == 0
  {
    if 0x1_0000 % sqs == 0 {
      forall prp: seq<nat>, steps: seq<Step>, t: State | Reached(sqs, cqs, prp, steps, t)
        ensures RefusesWhenFull(t)
      {
        EveryRunSubmissionSafe(sqs, cqs, prp, steps, t);
      }
    } else {
      var steps, t := WrappedFullRing(sqs, cqs);
      assert Reached(sqs, cqs, [], steps, t) && !RefusesWhenFull(t);
    }
  }
}
