/**
 Building blocks for concrete runs of the protocol: one step at a time, a heartbeat that is given a
 job, and a job that is assigned to a new node and fails there.
 */
module Runs {
  import opened Wrappers
  import opened Jobs
  import opened Registry
  import opened Fleet
  import Nodes

  const ROW := Nodes.Row(true, Nodes.Idle, 0, "", 0, 0, "", false, None, 1)
  const ENV := Nodes.Env(0, 0, 100, None, Nodes.Manifest("", "", 0, 0), false)

  function Report(tasks: nat): Nodes.Report {
    Nodes.Report(tasks, false, "", 0, 0, "")
  }

  /** A completion write that takes effect ends the assignment it reports. */
  predicate Matches(s: State, l: Label) {
    l.PostWrite? && l.i in s.posts && ActiveIn(s.rows, s.posts[l.i].job) ==>
      s.rows[s.posts[l.i].job].epoch == s.posts[l.i].epoch
  }

  /** Neither an operator's retry nor an orphan failure, and completions that match. */
  predicate Calm(s: State, l: Label) {
    Matches(s, l) && !l.ManualRetry? && !l.OrphanWrite?
  }

  ghost predicate LeadsTo(from: State, ls: seq<Label>, s: State) {
    IsRun(from, ls, Calm) && Final(from, ls, Calm) == s
  }

  lemma Stay(s: State) returns (ls: seq<Label>)
    ensures LeadsTo(s, ls, s)
  {
    ls := [];
  }

  lemma Then(from: State, ls: seq<Label>, s: State, l: Label) returns (longer: seq<Label>)
    requires LeadsTo(from, ls, s) && Enabled(s, l) && Calm(s, l)
    ensures LeadsTo(from, longer, Step(s, l))
  {
    assert IsRun(Step(s, l), [], Calm) && [l][1..] == [];
    hide Enabled, Step, Calm;
    assert IsRun(s, [l], Calm) && Final(s, [l], Calm) == Step(s, l);
    Chain(from, ls, [l], Calm);
    longer := ls + [l];
  }

  lemma Replaced(s: State, n: NodeId, a: Agent, a2: Agent)
    ensures With(With(s, n, a), n, a2) == With(s, n, a2)
  {
  }

  lemma TakeSend(from: State, ls: seq<Label>, s: State, n: NodeId, a: Agent, tasks: nat, todo: seq<JobId>)
      returns (longer: seq<Label>)
    requires LeadsTo(from, ls, With(s, n, a)) && CanSend(a, Report(tasks), todo)
    ensures LeadsTo(from, longer, With(s, n, AfterSend(a, Report(tasks), todo)))
  {
    hide LeadsTo;
    longer := Then(from, ls, With(s, n, a), Send(n, Report(tasks), todo));
    Replaced(s, n, a, AfterSend(a, Report(tasks), todo));
  }

  lemma TakeAckRead(from: State, ls: seq<Label>, s: State, n: NodeId, a: Agent) returns (longer: seq<Label>)
    requires LeadsTo(from, ls, With(s, n, a)) && CanAckRead(a)
    ensures LeadsTo(from, longer, With(s, n, AfterAckRead(a, s.rows, n)))
  {
    hide LeadsTo;
    longer := Then(from, ls, With(s, n, a), AckRead(n));
    Replaced(s, n, a, AfterAckRead(a, s.rows, n));
  }

  lemma TakeOrphanRead(from: State, ls: seq<Label>, s: State, n: NodeId, a: Agent, orphans: seq<Assignment>)
      returns (longer: seq<Label>)
    requires LeadsTo(from, ls, With(s, n, a)) && CanOrphanRead(a, s.rows, n, orphans)
    ensures LeadsTo(from, longer, With(s, n, AfterOrphanRead(a, s.rows, n, orphans)))
  {
    hide LeadsTo;
    longer := Then(from, ls, With(s, n, a), OrphanRead(n, orphans));
    Replaced(s, n, a, AfterOrphanRead(a, s.rows, n, orphans));
  }

  lemma TakeDecide(from: State, ls: seq<Label>, s: State, n: NodeId, a: Agent) returns (longer: seq<Label>)
    requires LeadsTo(from, ls, With(s, n, a)) && CanDecide(a)
    ensures LeadsTo(from, longer, With(s, n, AfterDecide(a, ENV)))
  {
    hide LeadsTo;
    longer := Then(from, ls, With(s, n, a), Decide(n, ENV));
    Replaced(s, n, a, AfterDecide(a, ENV));
  }

  lemma TakePick(from: State, ls: seq<Label>, s: State, n: NodeId, a: Agent, j: JobId) returns (longer: seq<Label>)
    requires LeadsTo(from, ls, With(s, n, a)) && CanPick(a, s.rows, j)
    ensures LeadsTo(from, longer, With(s, n, AfterPick(a, j)))
  {
    hide LeadsTo;
    longer := Then(from, ls, With(s, n, a), Pick(n, j));
    Replaced(s, n, a, AfterPick(a, j));
  }

  lemma TakeStop(from: State, ls: seq<Label>, s: State, n: NodeId, a: Agent) returns (longer: seq<Label>)
    requires LeadsTo(from, ls, With(s, n, a)) && CanStop(a)
    ensures LeadsTo(from, longer, With(s, n, At(a, Reported(a.beat.stage.got))))
  {
    hide LeadsTo;
    longer := Then(from, ls, With(s, n, a), Stop(n));
    Replaced(s, n, a, At(a, Reported(a.beat.stage.got)));
  }

  lemma TakeReceive(from: State, ls: seq<Label>, s: State, n: NodeId, a: Agent) returns (longer: seq<Label>)
    requires LeadsTo(from, ls, With(s, n, a)) && CanReceive(a)
    ensures LeadsTo(from, longer, With(s, n, AfterReceive(a, false)))
  {
    hide LeadsTo;
    longer := Then(from, ls, With(s, n, a), Receive(n, false));
    Replaced(s, n, a, AfterReceive(a, false));
  }

  lemma TakeSpawn(from: State, ls: seq<Label>, s: State, n: NodeId, a: Agent) returns (longer: seq<Label>)
    requires LeadsTo(from, ls, With(s, n, a)) && a.spawn != []
    ensures LeadsTo(from, longer, With(s, n, AfterSpawn(a)))
  {
    hide LeadsTo;
    longer := Then(from, ls, With(s, n, a), Spawn(n));
    Replaced(s, n, a, AfterSpawn(a));
  }

  lemma TakeReturn(from: State, ls: seq<Label>, s: State, n: NodeId, a: Agent, j: JobId) returns (longer: seq<Label>)
    requires LeadsTo(from, ls, With(s, n, a)) && InPhase(a, j, false, true)
    ensures LeadsTo(from, longer, With(s, n, AfterReturn(a, j)))
  {
    hide LeadsTo;
    longer := Then(from, ls, With(s, n, a), PostReturns(n, j));
    Replaced(s, n, a, AfterReturn(a, j));
  }

  lemma TakeLeave(from: State, ls: seq<Label>, s: State, n: NodeId, a: Agent, j: JobId) returns (longer: seq<Label>)
    requires LeadsTo(from, ls, With(s, n, a)) && InPhase(a, j, false, false)
    ensures LeadsTo(from, longer, With(s, n, AfterLeave(a, j)))
  {
    hide LeadsTo;
    longer := Then(from, ls, With(s, n, a), Leave(n, j));
    Replaced(s, n, a, AfterLeave(a, j));
  }

  function Polling(a: Agent, acked: set<JobId>, stage: Stage): Agent {
    a.(beat := Beat(stage, acked, Report(a.tasks), false))
  }

  /** An agent with nothing to run polls and the handler reaches the assignment loop with one free slot. */
  lemma Poll(from: State, ls: seq<Label>, s: State, n: NodeId, tasks: nat) returns (longer: seq<Label>)
    requires LeadsTo(from, ls, With(s, n, Fresh(ROW).(tasks := tasks))) && tasks < 100
    requires forall j :: j in s.rows ==> s.rows[j].node != n
    ensures LeadsTo(from, longer,
      With(s, n, Polling(Fresh(ROW.(tasks := tasks)).(tasks := tasks), {}, Filling(1, None, []))))
  {
    hide LeadsTo;
    var a := Fresh(ROW).(tasks := tasks);
    longer := TakeSend(from, ls, s, n, a, tasks, []);
    assert ActiveOn(s.rows, n) == {};
    longer := TakeOrphanRead(from, longer, s, n, Polling(a, {}, Acking([], None)), []);
    longer := TakeDecide(from, longer, s, n, Polling(a, {}, Orphaning([], 0)));
  }

  /** The candidate is assigned. */
  lemma TakeGrab(from: State, ls: seq<Label>, s: State, n: NodeId, a: Agent, j: JobId) returns (longer: seq<Label>)
    requires LeadsTo(from, ls, With(s, n, a)) && CanGrab(a) && a.beat.stage.candidate == Some(j)
    requires Assignable(s.rows, j, n, a.row.enabled, a.row.cap)
    ensures LeadsTo(from, longer,
      With(s.(rows := Assign(s.rows, j, n)), n, Granted(a, Assignment(j, s.rows[j].epoch + 1))))
  {
    longer := Then(from, ls, With(s, n, a), Grab(n));
    GrabIs(s, n, a, j);
    hide LeadsTo, Step;
  }

  lemma GrabIs(s: State, n: NodeId, a: Agent, j: JobId)
    requires CanGrab(a) && a.beat.stage.candidate == Some(j) && Assignable(s.rows, j, n, a.row.enabled, a.row.cap)
    ensures AfterGrab(With(s, n, a), n)
      == With(s.(rows := Assign(s.rows, j, n)), n, Granted(a, Assignment(j, s.rows[j].epoch + 1)))
  {
    hide ActiveOn, Granted, Assign;
  }

  /** An agent whose only job is `j`. */
  function Working(tasks: nat, j: JobId, g: Goroutine, beat: Beat): Agent {
    Agent(ROW.(tasks := tasks), tasks, false, {j}, [], map[j := g], beat)
  }

  /** The agent polls, is given the pending job, and starts it. */
  lemma Dispatch(from: State, ls: seq<Label>, s: State, n: NodeId, tasks: nat, j: JobId) returns (longer: seq<Label>)
    requires LeadsTo(from, ls, With(s, n, Fresh(ROW).(tasks := tasks))) && tasks < 100
    requires (forall i :: i in s.rows ==> s.rows[i].node != n) && j in s.rows && s.rows[j].status.Pending?
    ensures LeadsTo(from, longer, With(s.(rows := Assign(s.rows, j, n)), n,
                                 Working(tasks, j, Goroutine(s.rows[j].epoch + 1, Executing), Idle())))
  {
    hide LeadsTo;
    var a := Fresh(ROW.(tasks := tasks)).(tasks := tasks);
    var p := Assignment(j, s.rows[j].epoch + 1);
    longer := Poll(from, ls, s, n, tasks);
    longer := TakePick(from, longer, s, n, Polling(a, {}, Filling(1, None, [])), j);
    assert ActiveOn(s.rows, n) == {};
    longer := TakeGrab(from, longer, s, n, Polling(a, {}, Filling(1, Some(j), [])), j);
    var none: seq<Assignment> := [];
    assert none + [p] == [p];
    assert Granted(Polling(a, {}, Filling(1, Some(j), none)), p) == Polling(a, {}, Filling(1, None, [p]));
    longer := Deliver(from, longer, s.(rows := Assign(s.rows, j, n)), n, a, p);
  }

  lemma OneJob(p: Assignment)
    ensures JobsOf([p]) == {p.job}
  {
    var ps := [p];
    assert ps[1..] == [];
  }

  lemma Deliver(from: State, ls: seq<Label>, s: State, n: NodeId, a: Agent, p: Assignment) returns (longer: seq<Label>)
    requires LeadsTo(from, ls, With(s, n, Polling(a, {}, Filling(1, None, [p]))))
      && a == Fresh(ROW.(tasks := a.tasks)).(tasks := a.tasks)
    ensures LeadsTo(from, longer, With(s, n, Working(a.tasks, p.job, Goroutine(p.epoch, Executing), Idle())))
  {
    hide LeadsTo;
    longer := TakeStop(from, ls, s, n, Polling(a, {}, Filling(1, None, [p])));
    longer := TakeReceive(from, longer, s, n, Polling(a, {}, Answered(Work([p]))));
    OneJob(p);
    assert Accepted({}, [p]) == [p];
    var given := Fresh(ROW.(tasks := a.tasks)).(tasks := a.tasks, reg := {p.job}, spawn := [p]);
    longer := TakeSpawn(from, longer, s, n, given);
  }

  // ---- a job that fails on a new node ----

  /** A number above all of the given ones, and not 0. */
  lemma Above(ns: set<NodeId>) returns (n: NodeId)
    ensures n != 0 && forall m :: m in ns ==> m < n
    decreases |ns|
  {
    if ns == {} {
      n := 1;
    } else {
      var m :| m in ns;
      var rest := Above(ns - {m});
      assert forall x :: x in ns ==> x == m || x in ns - {m};
      n := if m < rest then rest else m + 1;
    }
  }

  lemma NewNode(s: State) returns (n: NodeId)
    ensures n != 0 && n !in s.agents && forall j :: j in s.rows ==> s.rows[j].node != n
  {
    var used := set j | j in s.rows :: s.rows[j].node;
    n := Above(s.agents.Keys + used);
    forall j | j in s.rows ensures s.rows[j].node != n {
      assert s.rows[j].node in used;
    }
  }

  /** The job's next assignment. */
  function NextOf(s: State, j: JobId): Assignment
    requires j in s.rows
  {
    Assignment(j, s.rows[j].epoch + 1)
  }

  /** The state after the job was assigned to a node, failed there and its completion was recorded. */
  ghost predicate FailedOnce(s: State, j: JobId, s2: State)
    requires j in s.rows
  {
    var p := NextOf(s, j);
    && j in s2.rows
    && s2.rows[j] == s.rows[j].(status := Failed, node := s2.rows[j].node, epoch := p.epoch)
    && s2.due == s.due[Ending(p, s.ended[p]) := Choose(s.rows[j].retries)]
  }

  /** A pending job is assigned to a node that just joined, fails, and is recorded as failed. */
  lemma Round(from: State, ls: seq<Label>, s: State, j: JobId) returns (longer: seq<Label>, s2: State)
    requires LeadsTo(from, ls, s) && j in s.rows && s.rows[j].status.Pending?
    ensures LeadsTo(from, longer, s2) && FailedOnce(s, j, s2)
  {
    hide LeadsTo;
    var n := NewNode(s);
    var joined := With(s, n, Fresh(ROW));
    longer := Then(from, ls, s, Join(n, ROW));
    assert With(joined, n, Fresh(ROW).(tasks := 0)) == joined;
    longer := Dispatch(from, longer, joined, n, 0, j);
    var w := Working(0, j, Goroutine(s.rows[j].epoch + 1, Executing), Idle());
    longer, s2 := Fails(from, longer, joined.(rows := Assign(s.rows, j, n)), n, j, w);
  }

  /** The script fails, and its completion is on its way. */
  lemma Fails(from: State, ls: seq<Label>, s: State, n: NodeId, j: JobId, w: Agent)
      returns (longer: seq<Label>, s2: State)
    requires n != 0 && j in s.rows && s.rows[j].status.Assigned? && s.rows[j].node == n
    requires w == Working(0, j, Goroutine(s.rows[j].epoch, Executing), Idle()) && LeadsTo(from, ls, With(s, n, w))
    ensures LeadsTo(from, longer, s2) && Recorded(s, Assignment(j, s.rows[j].epoch), s2)
  {
    hide LeadsTo;
    longer := Then(from, ls, With(s, n, w), Finish(n, j, false, true));
    Replaced(s, n, w, AfterFinish(w, j, s.nextPost, true));
    var sent := Posted(With(s, n, AfterFinish(w, j, s.nextPost, true)), Post(n, j, s.rows[j].epoch, false, Sent));
    hide AfterFinish;
    longer, s2 := Records(from, longer, sent, s.nextPost);
  }

  /** The failed row and the decision its handler owes, with the retry count that was read. */
  ghost predicate Recorded(s: State, p: Assignment, s2: State) {
    && p.job in s.rows
    && s2.rows == s.rows[p.job := s.rows[p.job].(status := Failed)]
    && s2.due == s.due[Ending(p, s.ended[p]) := Choose(s.rows[p.job].retries)]
  }

  /** A controller reads the row of the completion and writes the failure. */
  lemma Records(from: State, ls: seq<Label>, s: State, i: nat) returns (longer: seq<Label>, s2: State)
    requires LeadsTo(from, ls, s) && i in s.posts && s.posts[i].stage.Sent? && !s.posts[i].ok
    requires var p := s.posts[i]; Owned(s.rows, p.node, Assignment(p.job, p.epoch))
    ensures LeadsTo(from, longer, s2) && Recorded(s, Assignment(s.posts[i].job, s.posts[i].epoch), s2)
  {
    hide LeadsTo;
    longer := Then(from, ls, s, PostRead(i));
    var p := s.posts[i].(stage := Read(s.rows[s.posts[i].job].retries));
    var seen := s.(posts := s.posts[i := p]);
    assert AfterPostRead(s, i) == seen;
    hide AfterPostRead;
    longer := Then(from, longer, seen, PostWrite(i));
    s2 := AfterPostWrite(seen, i);
  }

  predicate Owned(t: Table, n: NodeId, p: Assignment) {
    p.job in t && t[p.job].status.Active() && t[p.job].node == n && t[p.job].epoch == p.epoch
  }
}
