/**
 What a timed-out poll costs.  Completions are not matched by identifier, so the next caller takes
 whatever completion comes first.  It is the answer to the caller's own command, whatever the
 controller does, exactly when head and tail of the submission ring met before the enqueue.
 */
module Timeouts {
  import opened Arithmetic
  import opened Rings
  import opened Protocol
  import opened ProtocolSafety
  import opened Threads
  import opened QueuePairs

  /** A poll of this state finds an entry, and it does not answer the newest command. */
  predicate WrongAnswer(t: State) {
    && Shape(t) && Polled(t.cq, t.cqMem).Some?
    && |t.his.got| < |t.his.ran| && t.his.ran[|t.his.got|].index != |t.his.cmds| - 1
  }

  /** Whatever the controller does after the doorbell, no poll takes another command's completion for the own one. */
  ghost predicate OwnAnswerSure(s: State) {
    forall steps: seq<Step>, t: State :: DeviceRun(s, steps, t) ==> !WrongAnswer(t)
  }

  ghost predicate DeviceRun(s: State, steps: seq<Step>, t: State) {
    Runs(AfterSubmit(s), steps, t) && DeviceOnly(steps)
  }

  /** Ready to ring: one command is written and not yet announced. */
  predicate Ready(s: State) {
    Inv(s) && HostAt(s.his, Filling)
  }

  lemma Rung(s: State)
    requires Ready(s)
    ensures Inv(AfterSubmit(s)) && AfterSubmit(s).his.sub == |s.his.cmds| == s.his.sub + 1
    ensures AfterSubmit(s).dev == s.dev && AfterSubmit(s).his == s.his.(sub := |s.his.cmds|)
  {
    SubmitKeeps(s);
  }

  /** With every earlier command answered and read, the first completion is the own one. */
  lemma OwnAnswerComes(s: State, steps: seq<Step>, t: State)
    requires Ready(s) && |s.his.got| == s.his.sub && DeviceRun(s, steps, t)
    ensures !WrongAnswer(t)
  {
    var u := AfterSubmit(s);
    Rung(s);
    assert |u.dev.pending| == 0;
    DeviceRunRan(u, steps, t);
    NewestOnly(u, t);
  }

  lemma NewestOnly(u: State, t: State)
    requires Inv(t) && DeviceRan(u, t) && u.dev.pending == map[]
    requires |u.his.cmds| == u.his.sub == u.his.fetched + 1 && |u.his.got| == |u.his.ran|
    ensures !WrongAnswer(t)
  {
  }

  // ------------------------------------------------------- an earlier command unanswered

  /** A completion that already lies unread answers an earlier command. */
  lemma UnreadIsOlder(s: State)
    requires Ready(s) && |s.his.got| < |s.his.cpls|
    ensures WrongAnswer(AfterSubmit(s))
  {
    Rung(s);
    PollExactly(AfterSubmit(s));
  }

  /** A held command that the controller completes now is an earlier one. */
  lemma HeldIsOlder(u: State, i: nat)
    requires Inv(u) && i in u.dev.pending && i < |u.his.cmds| - 1 && |u.his.got| == |u.his.cpls|
    ensures Shape(u) && Enabled(u, Complete(i, 0, 0)) && WrongAnswer(Apply(u, Complete(i, 0, 0)))
  {
    CompleteKeeps(u, i, 0, 0);
    PollExactly(Apply(u, Complete(i, 0, 0)));
  }

  lemma FetchEnabled(u: State)
    requires RingInv(u) && u.his.fetched < u.his.sub
    ensures Enabled(u, Fetch)
  {
    SlotsDiffer(u.his.fetched, u.his.sub, u.sq.qs);
  }

  /** An announced command that the controller fetches next is an earlier one. */
  lemma FetchesOlder(u: State)
    requires Inv(u) && u.his.fetched < u.his.sub
    ensures Shape(u) && Enabled(u, Fetch) && Inv(AfterFetch(u)) && u.his.fetched in AfterFetch(u).dev.pending
    ensures AfterFetch(u).his == u.his.(fetched := u.his.fetched + 1)
  {
    FetchEnabled(u);
    FetchKeeps(u);
  }

  lemma RunsBefore(s: State, step: Step, steps: seq<Step>, t: State)
    requires Shape(s) && Enabled(s, step) && Runs(Apply(s, step), steps, t)
    ensures Runs(s, [step] + steps, t)
  {
    assert ([step] + steps)[1..] == steps;
  }

  lemma StaleHeld(u: State, i: nat) returns (steps: seq<Step>, t: State)
    requires Inv(u) && i in u.dev.pending && i < |u.his.cmds| - 1 && |u.his.got| == |u.his.cpls|
    ensures Runs(u, steps, t) && DeviceOnly(steps) && WrongAnswer(t)
  {
    HeldIsOlder(u, i);
    var step := Complete(i, 0, 0);
    steps, t := [step], Apply(u, step);
    assert [step][1..] == [];
    assert Runs(t, [], t);
  }

  lemma StaleFetched(u: State) returns (steps: seq<Step>, t: State)
    requires Inv(u) && u.his.fetched < u.his.sub && u.his.fetched < |u.his.cmds| - 1 && |u.his.got| == |u.his.cpls|
    ensures Runs(u, steps, t) && DeviceOnly(steps) && WrongAnswer(t)
  {
    FetchesOlder(u);
    var more;
    more, t := StaleHeld(AfterFetch(u), u.his.fetched);
    RunsBefore(u, Fetch, more, t);
    steps := [Fetch] + more;
  }

  /** With an earlier command unanswered, the controller can let the poll take its completion. */
  lemma StaleAnswerComes(s: State) returns (steps: seq<Step>, t: State)
    requires Ready(s) && |s.his.got| < s.his.sub
    ensures DeviceRun(s, steps, t) && WrongAnswer(t)
  {
    var u := AfterSubmit(s);
    Rung(s);
    if |s.his.got| < |s.his.cpls| {
      UnreadIsOlder(s);
      steps, t := [], u;
    } else if u.dev.pending == map[] {
      steps, t := StaleFetched(u);
    } else {
      var i :| i in u.dev.pending;
      steps, t := StaleHeld(u, i);
    }
  }

  /** The own answer is sure exactly when every earlier command's completion has been read. */
  lemma {:induction false} OwnAnswerExactly(s: State)
    requires Ready(s)
    ensures OwnAnswerSure(s) <==> |s.his.got| == s.his.sub
  {
    if |s.his.got| == s.his.sub {
      forall steps: seq<Step>, t: State | DeviceRun(s, steps, t)
        ensures !WrongAnswer(t)
      {
        OwnAnswerComes(s, steps, t);
      }
    } else {
      var steps, t := StaleAnswerComes(s);
    }
  }

  /** A slot is taken and the command written into it. */
  function Placed(s: State, cmd: Cmd): State
    requires Shape(s) && !Full(s.sq) && s.his.sub <= |s.his.cmds|
  {
    AfterWrite(AfterEnqueue(s), |s.his.cmds|, cmd)
  }

  lemma PlacedCounts(s: State, cmd: Cmd)
    requires Shape(s) && HostAt(s.his, Top) && !Full(s.sq)
    ensures HostAt(Placed(s, cmd).his, Filling)
    ensures Placed(s, cmd).his.got == s.his.got && Placed(s, cmd).his.sub == s.his.sub
  {
  }

  lemma PlacedReady(s: State, cmd: Cmd)
    requires Inv(s) && HostAt(s.his, Top) && !Full(s.sq)
    ensures Ready(Placed(s, cmd)) && Placed(s, cmd).his.got == s.his.got && Placed(s, cmd).his.sub == s.his.sub
  {
    PlacedCounts(s, cmd);
    EnqueueKeeps(s);
    WriteKeeps(AfterEnqueue(s), |s.his.cmds|, cmd);
  }

  /**
   The same as a test the host could make before it takes a slot: head and tail of its own ring
   have met.  The code makes no such test.
   */
  lemma OwnAnswerTest(s: State, cmd: Cmd)
    requires Inv(s) && HostAt(s.his, Top) && !Full(s.sq)
    ensures OwnAnswerSure(Placed(s, cmd)) <==> s.sq.head == s.sq.tail
  {
    PlacedReady(s, cmd);
    OwnAnswerExactly(Placed(s, cmd));
    HeadMeetsTail(s);
  }

  lemma HeadMeetsTail(s: State)
    requires Inv(s)
    ensures s.sq.head == s.sq.tail <==> s.his.upd == |s.his.cmds|
  {
    if s.his.upd < |s.his.cmds| {
      SlotsDiffer(s.his.upd, |s.his.cmds|, s.sq.qs);
    }
  }

  // ------------------------------------------------------------- the accepted stale answer

  lemma {:induction false} InterleavesAppend(sys: seq<Pair>, a: seq<Event>, mid: seq<Pair>, b: seq<Event>, sys': seq<Pair>)
    requires Interleaves(sys, a, mid) && Interleaves(mid, b, sys')
    ensures Interleaves(sys, a + b, sys')
    decreases |a|
  {
    if a == [] {
      assert a + b == b;
    } else {
      var e := a[0];
      InterleavesAppend(sys[e.pair := Do(sys[e.pair], e.action)], a[1..], mid, b, sys');
      assert (a + b)[1..] == a[1..] + b;
    }
  }

  /** Some interleaving leads the fresh pair p to p'. */
  ghost predicate Leads(p: Pair, p': Pair) {
    Fresh(p) && exists events: seq<Event> :: Interleaves([p], events, [p'])
  }

  lemma LeadsInv(p: Pair, q: Pair)
    requires Leads(p, q)
    ensures PairInv(q)
  {
    FreshInv(p);
    var events: seq<Event> :| Interleaves([p], events, [q]);
    InterleavingKeepsInv([p], events, [q]);
    assert [q][0] == q;
  }

  lemma LeadsOn(p: Pair, q: Pair, thread: nat, a: Action) returns (p': Pair)
    requires Leads(p, q) && Shape(q.s) && May(q, thread, a)
    ensures p' == Do(q, a) && Leads(p, p')
  {
    p' := Do(q, a);
    var events: seq<Event> :| Interleaves([p], events, [q]);
    var last := [Event(0, thread, a)];
    assert [q][0 := p'] == [p'] && last[1..] == [];
    assert Interleaves([p'], [], [p']);
    assert Interleaves([q], last, [p']);
    InterleavesAppend([p], events, [q], last, [p']);
  }

  /** Where a pair stands, and how many commands were enqueued, announced, fetched and completed; none was read. */
  predicate Stands(p: Pair, pc: Pc, owner: Option<nat>, cmds: nat, sub: nat, fetched: nat, cpls: nat) {
    && Shape(p.s) && p.pc == pc && p.owner == owner
    && |p.s.his.cmds| == cmds && p.s.his.sub == sub && p.s.his.fetched == fetched && |p.s.his.cpls| == cpls
    && |p.s.his.got| == 0 == p.s.his.upd == p.s.his.rung
  }

  /** What the invariant says about the next step of a pair. */
  lemma Prospects(p0: Pair, p: Pair)
    requires Leads(p0, p)
    ensures Shape(p.s)
    ensures |p.s.his.cmds| - p.s.his.upd < p.s.sq.qs - 1 ==> !Full(p.s.sq)
    ensures Arrived(p) == if |p.s.his.got| < |p.s.his.cpls| then Some(p.s.his.cpls[|p.s.his.got|]) else None
    ensures DefaultCid(p.s.sq) < 0x1_0000
    ensures p.s.his.fetched < p.s.his.sub ==> Enabled(p.s, Fetch)
    ensures |p.s.his.ran| == |p.s.his.cpls|
  {
    LeadsInv(p0, p);
    FullExactly(p.s);
    PollExactly(p.s);
    NewestLabel(p.s);
    if p.s.his.fetched < p.s.his.sub {
      FetchesOlder(p.s);
    }
  }

  /** A thread locks the pair and takes a slot. */
  lemma Begins(p0: Pair, p: Pair, n: nat, thread: nat) returns (p': Pair)
    requires Leads(p0, p) && Stands(p, Top, None, n, n, 0, 0) && n < p.s.sq.qs - 1
    ensures Leads(p0, p') && Stands(p', Filling, Some(thread), n + 1, n, 0, 0) && p'.s.sq.qs == p.s.sq.qs && p'.late == p.late
  {
    Prospects(p0, p);
    p' := LeadsOn(p0, p, thread, Lock(thread));
    p' := LeadsOn(p0, p', thread, Take);
    Prospects(p0, p');
  }

  lemma Writes(p0: Pair, p: Pair, n: nat, thread: nat) returns (p': Pair)
    requires Leads(p0, p) && Stands(p, Filling, Some(thread), n + 1, n, 0, 0)
    ensures Leads(p0, p') && Stands(p', Written, Some(thread), n + 1, n, 0, 0) && p'.s.sq.qs == p.s.sq.qs && p'.late == p.late
  {
    Prospects(p0, p);
    p' := LeadsOn(p0, p, thread, Fill(Labelling(DefaultCid(p.s.sq))));
    Prospects(p0, p');
  }

  /** It writes its command and rings the doorbell. */
  lemma Submits(p0: Pair, p: Pair, n: nat, thread: nat) returns (p': Pair)
    requires Leads(p0, p) && Stands(p, Filling, Some(thread), n + 1, n, 0, 0)
    ensures Leads(p0, p') && Stands(p', Waiting, Some(thread), n + 1, n + 1, 0, 0) && p'.s.sq.qs == p.s.sq.qs && p'.late == p.late
  {
    var q := Writes(p0, p, n, thread);
    p' := LeadsOn(p0, q, thread, Action.Ring);
    Prospects(p0, p');
  }

  /** The controller fetches the oldest command. */
  lemma TakesOldest(p0: Pair, p: Pair, n: nat, thread: nat) returns (p': Pair)
    requires Leads(p0, p) && Stands(p, Waiting, Some(thread), n, n, 0, 0) && 0 < n
    ensures Leads(p0, p') && Stands(p', Waiting, Some(thread), n, n, 1, 0) && 0 in p'.s.dev.pending && p'.late == p.late
  {
    Prospects(p0, p);
    p' := LeadsOn(p0, p, thread, Action.Device(Fetch));
    Prospects(p0, p');
  }

  /** It completes that command, with status zero. */
  lemma AnswersOldest(p0: Pair, p: Pair, n: nat, thread: nat) returns (p': Pair)
    requires Leads(p0, p) && Stands(p, Waiting, Some(thread), n, n, 1, 0) && 0 in p.s.dev.pending
    ensures Leads(p0, p') && Stands(p', Waiting, Some(thread), n, n, 1, 1) && p'.late == p.late
    ensures |p'.s.his.ran| == 1 && p'.s.his.ran[0].index == 0 && p'.s.his.cpls[0].Status() == 0
  {
    CplWordFields(0, CmdCid(p.s.dev.pending[0]), p.s.dev.tag, 0);
    Prospects(p0, p);
    p' := LeadsOn(p0, p, thread, Action.Device(Complete(0, 0, 0)));
    Prospects(p0, p');
  }

  lemma GivesUp(p0: Pair, p: Pair, n: nat, thread: nat) returns (p': Pair)
    requires Leads(p0, p) && Stands(p, Waiting, Some(thread), n, n, 0, 0)
    ensures Leads(p0, p') && Stands(p', Top, None, n, n, 0, 0) && p'.s.sq.qs == p.s.sq.qs && p'.late
  {
    Prospects(p0, p);
    p' := LeadsOn(p0, p, thread, TimeOut);
  }

  /**
   On every fresh pair of three or more entries: one caller's poll times out, and the next caller's
   poll finds a completion with status zero although the controller has executed only the first
   command.  The code reports success for the second.
   */
  lemma StaleAnswerAccepted(p: Pair, first: nat, second: nat) returns (p': Pair)
    requires Fresh(p) && 3 <= p.s.sq.qs
    ensures Leads(p, p') && p'.pc.Waiting? && p'.owner == Some(second) && p'.late
    ensures p'.s.his.sub == |p'.s.his.cmds| == 2 && |p'.s.his.ran| == 1 && p'.s.his.ran[0].index == 0
    ensures Shape(p'.s) && Arrived(p').Some? && Arrived(p').value.Status() == 0 && WrongAnswer(p'.s)
  {
    assert Interleaves([p], [], [p]);
    p' := Begins(p, p, 0, first);
    p' := Submits(p, p', 0, first);
    p' := GivesUp(p, p', 1, first);
    p' := Begins(p, p', 1, second);
    p' := Submits(p, p', 1, second);
    p' := TakesOldest(p, p', 2, second);
    p' := AnswersOldest(p, p', 2, second);
    Prospects(p, p');
  }
}
