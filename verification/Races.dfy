/**
 What the unguarded orphan failure and the cancel of an assigned job allow: concrete runs of the
 protocol. The runs of the orphan failure need a completion that is still being handled after the
 agent gave up waiting for it.
 */
module Races {
  import opened Wrappers
  import opened Jobs
  import opened Registry
  import opened Fleet
  import opened Runs
  import Nodes
  import Epochs
  import RetryBudget

  /** No operator retries a job, and every completion that takes effect ends the assignment it reports. */
  predicate Honest(s: State, l: Label) {
    Matches(s, l) && !l.ManualRetry?
  }

  /** A calm run followed by one orphan failure. */
  lemma Strike(ls: seq<Label>, s: State, n: NodeId) returns (longer: seq<Label>)
    requires LeadsTo(INITIAL, ls, s) && n in s.agents && CanOrphanWrite(s.agents[n])
    ensures IsRun(INITIAL, longer, Honest) && Final(INITIAL, longer, Honest) == AfterOrphanWrite(s, n)
  {
    var l := OrphanWrite(n);
    var s2 := Step(s, l);
    assert IsRun(s2, [], Honest) && Final(s2, [], Honest) == s2 && [l][1..] == [];
    assert Enabled(s, l) && s2 == AfterOrphanWrite(s, n);
    hide Enabled, Step, AfterOrphanWrite;
    Weaken(INITIAL, ls, Calm, Honest);
    assert IsRun(s, [l], Honest) && Final(s, [l], Honest) == s2;
    Chain(INITIAL, ls, [l], Honest);
    longer := ls + [l];
  }

  /** Two nodes and one pending job with a budget of one retry. */
  const START := State(map[7 := Row(Pending, 0, 0, false, 1, 0)], map[1 := Fresh(ROW), 2 := Fresh(ROW)],
                       map[], 0, map[], multiset{}, multiset{})

  lemma Begin() returns (ls: seq<Label>)
    ensures LeadsTo(INITIAL, ls, START)
  {
    var one := With(INITIAL, 1, Fresh(ROW));
    var two := With(one, 2, Fresh(ROW));
    ls := Then(INITIAL, [], INITIAL, Join(1, ROW));
    ls := Then(INITIAL, ls, one, Join(2, ROW));
    ls := Then(INITIAL, ls, two, Create(7, 1));
    assert two.(rows := Jobs.Create(two.rows, 7, 1)) == START;
  }

  const RUNNING := Row(Running, 1, 0, false, 1, 1)

  /** Node 1 starts the job and reports it, so the row is running. */
  lemma Started() returns (ls: seq<Label>)
    ensures LeadsTo(INITIAL, ls, With(START.(rows := map[7 := RUNNING]), 1,
      Working(0, 7, Goroutine(1, Executing), Beat(Acking([], None), {7}, Report(0), false))))
  {
    hide LeadsTo;
    ls := Begin();
    assert With(START, 1, Fresh(ROW).(tasks := 0)) == START;
    ls := Dispatch(INITIAL, ls, START, 1, 0, 7);
    var s := START.(rows := map[7 := RUNNING.(status := Assigned)]);
    var a := Working(0, 7, Goroutine(1, Executing), Idle());
    assert Assign(START.rows, 7, 1) == s.rows;
    ls := TakeSend(INITIAL, ls, s, 1, a, 0, [7]);
    ls := TakeAckRead(INITIAL, ls, s, 1, Polling(a, {}, Acking([7], None)));
    var last: seq<JobId> := [7];
    assert last[1..] == [] && {} + {7} == {7};
    assert AfterAckRead(Polling(a, {}, Acking(last, None)), s.rows, 1) == Polling(a, {7}, Acking([], Some(7)));
    ls := Then(INITIAL, ls, With(s, 1, Polling(a, {7}, Acking([], Some(7)))), AckWrite(1));
    assert AfterAckWrite(With(s, 1, Polling(a, {7}, Acking([], Some(7)))), 1)
        == With(START.(rows := map[7 := RUNNING]), 1, Polling(a, {7}, Acking([], None)));
  }

  /** The table after node 1's job ended there, its completion read but not yet written. */
  const LATE := START.(rows := map[7 := RUNNING], posts := map[0 := Post(1, 7, 1, false, Read(0))], nextPost := 1)

  const FULL := ROW.(status := Nodes.Busy)

  /** The heartbeat of the running job is answered. */
  lemma Answer() returns (ls: seq<Label>)
    ensures LeadsTo(INITIAL, ls,
      With(START.(rows := map[7 := RUNNING]), 1, Working(0, 7, Goroutine(1, Executing), Idle()).(row := FULL)))
  {
    hide LeadsTo;
    var s := START.(rows := map[7 := RUNNING]);
    var a := Working(0, 7, Goroutine(1, Executing), Idle());
    ls := Started();
    ls := TakeOrphanRead(INITIAL, ls, s, 1, Polling(a, {7}, Acking([], None)), []);
    assert ActiveOn(s.rows, 1) - JobsOf([]) == {7};
    ls := TakeDecide(INITIAL, ls, s, 1, Polling(a, {7}, Orphaning([], 1)));
    ls := TakeReceive(INITIAL, ls, s, 1, Polling(a.(row := FULL), {7}, Answered(Nothing)));
  }

  /** The script fails; its completion is read by a controller while the agent gives up on it and polls again. */
  lemma GivesUp() returns (ls: seq<Label>)
    ensures LeadsTo(INITIAL, ls, With(LATE, 1, Polling(Fresh(FULL).(tasks := 1), {}, Orphaning([Assignment(7, 1)], 0))))
  {
    hide LeadsTo;
    var s := START.(rows := map[7 := RUNNING]);
    var a := Working(0, 7, Goroutine(1, Executing), Idle()).(row := FULL);
    ls := Answer();
    ls := Then(INITIAL, ls, With(s, 1, a), Finish(1, 7, false, true));
    var b := AfterFinish(a, 7, 0, true);
    var sent := LATE.(posts := map[0 := Post(1, 7, 1, false, Sent)]);
    assert Posted(With(With(s, 1, a), 1, b), Post(1, 7, 1, false, Sent)) == With(sent, 1, b);
    ls := Then(INITIAL, ls, With(sent, 1, b), PostRead(0));
    assert AfterPostRead(With(sent, 1, b), 0) == With(LATE, 1, b);
    ls := Leaves(ls, b);
  }

  lemma Leaves(ls: seq<Label>, b: Agent) returns (longer: seq<Label>)
    requires b == Working(0, 7, Goroutine(1, Posting(0, true)), Idle()).(row := FULL)
    requires LeadsTo(INITIAL, ls, With(LATE, 1, b))
    ensures LeadsTo(INITIAL, longer,
      With(LATE, 1, Polling(Fresh(FULL).(tasks := 1), {}, Orphaning([Assignment(7, 1)], 0))))
  {
    hide LeadsTo;
    longer := TakeReturn(INITIAL, ls, LATE, 1, b, 7);
    var c := b.(gor := map[7 := Goroutine(1, Leaving)], tasks := 1);
    assert AfterReturn(b, 7) == c;
    longer := TakeLeave(INITIAL, longer, LATE, 1, c, 7);
    var d := Fresh(FULL).(tasks := 1);
    assert AfterLeave(c, 7) == d;
    longer := TakeSend(INITIAL, longer, LATE, 1, d, 1, []);
    var orphans := [Assignment(7, 1)];
    assert JobsOf(orphans) == {7};
    longer := TakeOrphanRead(INITIAL, longer, LATE, 1, Polling(d, {}, Acking([], None)), orphans);
    assert ActiveOn(LATE.rows, 1) - JobsOf(orphans) == {};
  }

  /** The state in which a controller is about to fail the orphan, and the agent that polled. */
  const STALE := Polling(Fresh(FULL).(tasks := 1), {}, Orphaning([Assignment(7, 1)], 0))

  const FAILED := RUNNING.(status := Failed)

  /** The late completion is written: the row fails, and a retry is to be decided. */
  const ENDED := LATE.(rows := map[7 := FAILED], posts := map[], ended := multiset{Assignment(7, 1)},
                       due := map[Ending(Assignment(7, 1), 0) := Choose(0)])

  lemma Ended() returns (ls: seq<Label>)
    ensures LeadsTo(INITIAL, ls, With(ENDED, 1, STALE))
  {
    ls := GivesUp();
    ls := Then(INITIAL, ls, With(LATE, 1, STALE), PostWrite(0));
    hide LeadsTo;
    var empty: multiset<Assignment> := multiset{};
    assert empty[Assignment(7, 1)] == 0;
    assert AfterPostWrite(With(LATE, 1, STALE), 0) == With(ENDED, 1, STALE);
  }

  /**
   A run in which one assignment ends twice: the completion is written between the reading of the
   orphan and its failure.
   */
  lemma EndsTwice() returns (ls: seq<Label>)
    ensures IsRun(INITIAL, ls, Any) && Final(INITIAL, ls, Any).ended[Assignment(7, 1)] == 2
  {
    ls := Ended();
    ls := Strike(ls, With(ENDED, 1, STALE), 1);
    assert AfterOrphanWrite(With(ENDED, 1, STALE), 1).ended[Assignment(7, 1)] == 2;
    hide Honest, IsRun, Final;
    Weaken(INITIAL, ls, Honest, Any);
  }

  /** The failed job is requeued before node 1's handler gets to write. */
  const MOVED := ENDED.(rows := map[7 := Row(Pending, 0, 1, true, 1, 1)], due := map[],
      told := multiset{Assignment(7, 1)})

  lemma Moved() returns (ls: seq<Label>)
    ensures LeadsTo(INITIAL, ls, With(MOVED, 1, STALE))
  {
    hide LeadsTo;
    ls := Ended();
    ls := Then(INITIAL, ls, With(ENDED, 1, STALE), Settle(Ending(Assignment(7, 1), 0)));
    Moves();
  }

  lemma Moves()
    ensures AfterSettle(With(ENDED, 1, STALE), Ending(Assignment(7, 1), 0)) == With(MOVED, 1, STALE)
  {
    hide STALE;
    assert ENDED.due - {Ending(Assignment(7, 1), 0)} == MOVED.due;
  }

  /**
   A run in which the orphan failure hits a job that is executing on another node: its row is
   failed while the script runs.
   */
  lemma FailsRunningJob() returns (ls: seq<Label>)
    ensures IsRun(INITIAL, ls, Any)
    ensures var s := Final(INITIAL, ls, Any);
            2 in s.agents && 7 in Scripts(s.agents[2]) && 7 in s.rows && s.rows[7].status.Failed?
  {
    ls := Moved();
    var s := With(MOVED, 1, STALE);
    ls := Strikes(ls, s);
    hide Honest, IsRun, Final;
    Weaken(INITIAL, ls, Honest, Any);
  }

  lemma Strikes(ls: seq<Label>, s: State) returns (longer: seq<Label>)
    requires s == With(MOVED, 1, STALE) && LeadsTo(INITIAL, ls, s)
    ensures IsRun(INITIAL, longer, Honest)
    ensures var s := Final(INITIAL, longer, Honest);
            2 in s.agents && 7 in Scripts(s.agents[2]) && 7 in s.rows && s.rows[7].status.Failed?
  {
    assert With(s, 2, Fresh(ROW).(tasks := 0)) == s;
    longer := Dispatch(INITIAL, ls, s, 2, 0, 7);
    var w := Working(0, 7, Goroutine(2, Executing), Idle());
    var s3 := With(s.(rows := Assign(s.rows, 7, 2)), 2, w);
    assert s3.agents[1] == STALE && CanOrphanWrite(STALE);
    longer := Strike(longer, s3, 1);
    assert AfterOrphanWrite(s3, 1).agents[2] == w;
  }

  /** The requeued job is cancelled by an operator. */
  const REVOKED := MOVED.(rows := map[7 := Row(Cancelled, 0, 1, true, 1, 1)])

  /**
   A run after which the orphan failure turns a cancelled row into a failed one, without any
   operator's retry.
   */
  lemma RevivesCancelled() returns (ls: seq<Label>)
    ensures IsRun(INITIAL, ls, Honest)
    ensures var s := Final(INITIAL, ls, Honest);
            && Enabled(s, OrphanWrite(1)) && 7 in s.rows && s.rows[7].status.Cancelled?
            && 7 in Step(s, OrphanWrite(1)).rows && Step(s, OrphanWrite(1)).rows[7].status.Failed?
  {
    ls := Moved();
    ls := Then(INITIAL, ls, With(MOVED, 1, STALE), Cancel(7));
    assert AfterCancel(With(MOVED, 1, STALE), 7) == With(REVOKED, 1, STALE);
    Weaken(INITIAL, ls, Calm, Honest);
    hide IsRun, Final, Honest;
  }

  // ---- a budget exceeded ----

  /**
   A run without an operator's retry, and with every completion ending the assignment it reports,
   in which a job with a budget of one retry is assigned three times: the orphan failure hits the
   failed row while its decision is still owed.
   */
  lemma ExceedsBudget() returns (ls: seq<Label>)
    ensures IsRun(INITIAL, ls, Honest)
    ensures var s := Final(INITIAL, ls, Honest);
            7 in s.rows && s.rows[7].budget == 1 && s.rows[7].epoch == 3
  {
    var s := With(ENDED, 1, STALE);
    var first := Ended();
    assert s.rows[7] == FAILED && CanOrphanWrite(s.agents[1]) && s.agents[1].beat.stage.orphans[0].job == 7;
    assert RetryBudget.Owes(s.due, 7, Ending(Assignment(7, 1), 0));
    hide ENDED, STALE;
    ls := Twice(first, s, 1);
  }

  /** The orphan failure follows, and then the run that spends both decisions. */
  lemma Twice(ls: seq<Label>, s: State, n: NodeId) returns (longer: seq<Label>)
    requires LeadsTo(INITIAL, ls, s) && n in s.agents && CanOrphanWrite(s.agents[n])
    requires var j := s.agents[n].beat.stage.orphans[0].job;
             && j in s.rows && s.rows[j].status.Failed? && s.rows[j] == FAILED && RetryBudget.Owing(s.due, j)
    ensures IsRun(INITIAL, longer, Honest)
    ensures var j := s.agents[n].beat.stage.orphans[0].job; var s2 := Final(INITIAL, longer, Honest);
            j in s2.rows && s2.rows[j].budget == 1 && s2.rows[j].epoch == 3
  {
    var s2 := AfterOrphanWrite(s, n);
    longer := Strike(ls, s, n);
    Frugally(ls, s);
    hide AfterOrphanWrite, IsRun, Final, Honest, RetryBudget.Inv, RetryBudget.Owing;
    var more := RetryBudget.Overspends(s, n);
    Weaken(s2, more, Calm, Honest);
    Chain(INITIAL, longer, more, Honest);
    longer := longer + more;
  }

  lemma Frugally(ls: seq<Label>, s: State)
    requires LeadsTo(INITIAL, ls, s)
    ensures RetryBudget.Inv(s, true) && Epochs.DuesOld(s)
  {
    Weaken(INITIAL, ls, Calm, RetryBudget.Frugal);
    Weaken(INITIAL, ls, Calm, Any);
    hide IsRun, Final;
    RetryBudget.InvRun(INITIAL, ls, true);
    Epochs.DuesRun(INITIAL, ls);
  }

  // ---- an update under a running script ----

  const RELEASED := ENV.(manifest := Nodes.Manifest("", "", 1, 0))

  /** The job was cancelled while the agent had already started it. */
  const UNWANTED := START.(rows := map[7 := RUNNING.(status := Cancelled)], ended := multiset{Assignment(7, 1)})

  lemma Unwanted() returns (ls: seq<Label>)
    ensures LeadsTo(INITIAL, ls, With(UNWANTED, 1, Working(0, 7, Goroutine(1, Executing), Idle())))
  {
    hide LeadsTo;
    ls := Begin();
    assert With(START, 1, Fresh(ROW).(tasks := 0)) == START;
    ls := Dispatch(INITIAL, ls, START, 1, 0, 7);
    ls := Withdrawn(ls, Working(0, 7, Goroutine(1, Executing), Idle()));
  }

  lemma Withdrawn(ls: seq<Label>, w: Agent) returns (longer: seq<Label>)
    requires LeadsTo(INITIAL, ls, With(START.(rows := Assign(START.rows, 7, 1)), 1, w))
    ensures LeadsTo(INITIAL, longer, With(UNWANTED, 1, w))
  {
    hide LeadsTo;
    var s := With(START.(rows := Assign(START.rows, 7, 1)), 1, w);
    longer := Then(INITIAL, ls, s, Cancel(7));
    assert AfterCancel(s, 7) == With(UNWANTED, 1, w);
  }

  /**
   A run in which an update instruction meets a running script: its assigned job was cancelled, so
   the report of it counts for nothing.
   */
  lemma UpdateMeetsScript() returns (ls: seq<Label>)
    ensures IsRun(INITIAL, ls, Honest)
    ensures var s := Final(INITIAL, ls, Honest);
            1 in s.agents && s.agents[1].beat.stage == Answered(UpdateNow) && 7 in Scripts(s.agents[1])
  {
    var w := Working(0, 7, Goroutine(1, Executing), Idle());
    ls := Unwanted();
    ls := TakeSend(INITIAL, ls, UNWANTED, 1, w, 0, [7]);
    ls := TakeAckRead(INITIAL, ls, UNWANTED, 1, Polling(w, {}, Acking([7], None)));
    var last: seq<JobId> := [7];
    assert last[1..] == [];
    assert AfterAckRead(Polling(w, {}, Acking(last, None)), UNWANTED.rows, 1) == Polling(w, {}, Acking([], None));
    ls := Unaware(ls, w);
  }

  lemma Unaware(ls: seq<Label>, w: Agent) returns (longer: seq<Label>)
    requires w == Working(0, 7, Goroutine(1, Executing), Idle())
    requires LeadsTo(INITIAL, ls, With(UNWANTED, 1, Polling(w, {}, Acking([], None))))
    ensures IsRun(INITIAL, longer, Honest)
    ensures var s := Final(INITIAL, longer, Honest);
            1 in s.agents && s.agents[1].beat.stage == Answered(UpdateNow) && 7 in Scripts(s.agents[1])
  {
    hide LeadsTo;
    longer := TakeOrphanRead(INITIAL, ls, UNWANTED, 1, Polling(w, {}, Acking([], None)), []);
    assert ActiveOn(UNWANTED.rows, 1) - JobsOf([]) == {};
    longer := Updates(longer, UNWANTED, Polling(w, {}, Orphaning([], 0)));
  }

  lemma Updates(ls: seq<Label>, s: State, a: Agent) returns (longer: seq<Label>)
    requires a == Polling(Working(0, 7, Goroutine(1, Executing), Idle()), {}, Orphaning([], 0))
    requires LeadsTo(INITIAL, ls, With(s, 1, a))
    ensures IsRun(INITIAL, longer, Honest)
    ensures var s := Final(INITIAL, longer, Honest);
            1 in s.agents && s.agents[1].beat.stage == Answered(UpdateNow) && 7 in Scripts(s.agents[1])
  {
    longer := Then(INITIAL, ls, With(s, 1, a), Decide(1, RELEASED));
    assert AfterDecide(a, RELEASED).beat.stage == Answered(UpdateNow) && AfterDecide(a, RELEASED).gor == a.gor;
    hide IsRun, Final, Honest, AfterDecide;
    Weaken(INITIAL, longer, Calm, Honest);
  }
}
