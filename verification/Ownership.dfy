/**
 Safety of the dispatch protocol over runs in which every finishing write lands on the
 assignment it is about.
 */
module Ownership {
  import opened Wrappers
  import opened Jobs
  import opened Registry
  import opened Fleet
  import Nodes

  /**
   The runs considered here. A failure write for an orphan finds the row still running on the
   node it was read for, or not active at all; an effective completion write finds the assignment it
   reports; and only pending jobs are cancelled.
   */
  ghost predicate Timely(s: State, l: Label) {
    match l
    case OrphanWrite(n) => Enabled(s, l) ==> Unclaimed(s.rows, n, s.agents[n].beat.stage.orphans[0].job)
    case PostWrite(i) => Enabled(s, l) && ActiveIn(s.rows, s.posts[i].job) ==>
      s.rows[s.posts[i].job].epoch == s.posts[i].epoch
    case Cancel(j) => !(j in s.rows && s.rows[j].status.Assigned?)
    case _ => true
  }

  predicate StillRunning(t: Table, n: NodeId, j: JobId) {
    j in t && t[j].status.Running? && t[j].node == n
  }

  predicate Unclaimed(t: Table, n: NodeId, j: JobId) {
    StillRunning(t, n, j) || !ActiveIn(t, j)
  }

  /** The agent holds an assignment: about to be delivered, about to be started, or executing. */
  ghost predicate Holds(a: Agent, p: Assignment) {
    p in a.spawn || p in Carried(a) || Script(a, p)
  }

  predicate Owns(t: Table, n: NodeId, p: Assignment) {
    p.job in t && t[p.job].status.Active() && t[p.job].node == n && t[p.job].epoch == p.epoch
  }

  /** Registry keys are exactly the goroutines, running or about to start, and at most eight. */
  ghost predicate Tracked(a: Agent) {
    && a.reg == a.gor.Keys + JobsOf(a.spawn)
    && |a.reg| <= MAX_LOCAL_JOBS
    && DistinctJobs(a.spawn)
    && (forall p :: p in a.spawn ==> p.job !in a.gor)
    && (!a.beat.stage.Quiet? ==> a.spawn == [])
  }

  /** A script executing now was in the report; an agent told to reboot or update reported nothing. */
  ghost predicate Reporting(a: Agent) {
    match a.beat.stage
    case Quiet => true
    case Acking(todo, _) => forall j :: j in Scripts(a) ==> j in a.beat.acked || j in todo
    case Answered(reply) => Scripts(a) <= a.beat.acked && (reply.RebootNow? || reply.UpdateNow? ==> a.beat.acked == {})
    case _ => Scripts(a) <= a.beat.acked
  }

  /** A row read as an orphan is unacknowledged, and active on the node at most in the assignment read. */
  ghost predicate OrphanAt(t: Table, n: NodeId, acked: set<JobId>, p: Assignment) {
    && p.job !in acked && p.job in t && 1 <= p.epoch <= t[p.job].epoch
    && (t[p.job].status.Active() ==> (t[p.job].node == n <==> t[p.job].epoch == p.epoch))
  }

  ghost predicate OrphansRead(t: Table, n: NodeId, a: Agent) {
    a.beat.stage.Orphaning? ==> forall p :: p in a.beat.stage.orphans ==> OrphanAt(t, n, a.beat.acked, p)
  }

  ghost predicate Behind(t: Table, a: Agent) {
    && (forall j :: j in a.gor ==> j in t && a.gor[j].epoch <= t[j].epoch)
    && (forall p :: p in Carried(a) ==> !(p.job in a.gor && a.gor[p.job].epoch == p.epoch))
  }

  ghost predicate HoldsOwned(t: Table, n: NodeId, a: Agent) {
    forall p :: Holds(a, p) ==> Owns(t, n, p)
  }

  ghost predicate AgentOk(t: Table, n: NodeId, a: Agent) {
    Tracked(a) && Reporting(a) && OrphansRead(t, n, a) && Behind(t, a) && HoldsOwned(t, n, a)
  }

  /** A posted completion is of an assignment nobody holds any more. */
  ghost predicate PostOk(s: State, p: Post) {
    && p.job in s.rows && p.epoch <= s.rows[p.job].epoch
    && forall n :: n in s.agents ==> !Holds(s.agents[n], Assignment(p.job, p.epoch))
  }

  ghost predicate RowsOk(t: Table) {
    forall j :: j in t && t[j].status.Active() ==> t[j].epoch >= 1
  }

  ghost predicate Inv(s: State) {
    && RowsOk(s.rows)
    && 0 !in s.agents
    && (forall n :: n in s.agents ==> AgentOk(s.rows, n, s.agents[n]))
    && (forall i :: i in s.posts ==> PostOk(s, s.posts[i]))
    && (forall i :: i in s.posts ==> i < s.nextPost)
  }

  /** A row changed within its assignment: it stays active on the same node, or stops being active. */
  predicate Within(r: Row, r2: Row) {
    r2.epoch == r.epoch && (r2.status.Active() ==> r.status.Active() && r2.node == r.node)
  }

  lemma RowChanges(t: Table, j: JobId, r2: Row, n: NodeId, a: Agent)
    requires AgentOk(t, n, a) && (j in t ==> Within(t[j], r2)) && (j !in t ==> !r2.status.Active())
    requires j in t && !r2.status.Active() ==> forall p :: Holds(a, p) ==> p.job != j
    ensures AgentOk(t[j := r2], n, a)
  {
  }

  /** Only the job table changed, in one row nobody holds unless it stays active. */
  lemma RowStep(s: State, s2: State, j: JobId, r2: Row)
    requires Inv(s) && s2.rows == s.rows[j := r2] && s2.agents == s.agents && s2.nextPost == s.nextPost
    requires forall i :: i in s2.posts ==> i in s.posts && s2.posts[i].(stage := Sent) == s.posts[i].(stage := Sent)
    requires (j in s.rows ==> Within(s.rows[j], r2)) && (j !in s.rows ==> !r2.status.Active())
    requires j in s.rows && !r2.status.Active() ==> forall n, p :: n in s.agents && Holds(s.agents[n], p) ==> p.job != j
    ensures Inv(s2)
  {
    forall n | n in s2.agents ensures AgentOk(s2.rows, n, s2.agents[n]) {
      RowChanges(s.rows, j, r2, n, s.agents[n]);
    }
    forall i | i in s2.posts ensures PostOk(s2, s2.posts[i]) {
      assert PostOk(s, s.posts[i]);
    }
  }

  /** Nothing but the handlers' own bookkeeping changed. */
  lemma Unchanged(s: State, s2: State)
    requires Inv(s) && s2.rows == s.rows && s2.agents == s.agents && s2.nextPost == s.nextPost
    requires forall i :: i in s2.posts ==> i in s.posts && s2.posts[i].(stage := Sent) == s.posts[i].(stage := Sent)
    ensures Inv(s2)
  {
    hide AgentOk, Holds;
    forall i | i in s2.posts ensures PostOk(s2, s2.posts[i]) {
      assert PostOk(s, s.posts[i]);
    }
  }

  lemma EachOk(s: State, n: NodeId)
    requires Inv(s) && n in s.agents
    ensures AgentOk(s.rows, n, s.agents[n])
  {
  }

  /** Only one agent changed, and it holds nothing new. */
  lemma AgentStep(s: State, n: NodeId, a: Agent)
    requires Inv(s) && n in s.agents
    requires AgentOk(s.rows, n, a)
    requires forall p :: Holds(a, p) ==> Holds(s.agents[n], p)
    ensures Inv(With(s, n, a))
  {
    hide AgentOk, RowsOk, Holds;
    var s2 := With(s, n, a);
    forall i | i in s2.posts ensures PostOk(s2, s2.posts[i]) {
      assert PostOk(s, s.posts[i]);
    }
  }

  // ---- the job table ----

  /** Nobody holds a job whose row is not active. */
  lemma InactiveIsFree(s: State, j: JobId)
    requires Inv(s) && j in s.rows && !s.rows[j].status.Active()
    ensures forall n, p :: n in s.agents && Holds(s.agents[n], p) ==> p.job != j
  {
    forall n, p | n in s.agents && Holds(s.agents[n], p) ensures p.job != j {
      assert AgentOk(s.rows, n, s.agents[n]);
    }
  }

  lemma CreateStep(s: State, j: JobId, budget: int)
    requires Inv(s) && j !in s.rows
    ensures Inv(s.(rows := Jobs.Create(s.rows, j, budget)))
  {
    hide AgentOk, Holds;
    RowStep(s, s.(rows := Jobs.Create(s.rows, j, budget)), j, Row(Pending, 0, 0, false, budget, 0));
  }

  lemma CancelStep(s: State, j: JobId)
    requires Inv(s) && j in s.rows && !s.rows[j].status.Assigned?
    ensures Inv(AfterCancel(s, j))
  {
    hide AgentOk, Holds;
    if s.rows[j].status.Pending? {
      InactiveIsFree(s, j);
      RowStep(s, AfterCancel(s, j), j, AfterCancel(s, j).rows[j]);
    }
  }

  lemma ManualRetryStep(s: State, j: JobId)
    requires Inv(s) && j in s.rows
    ensures Inv(s.(rows := Jobs.ManualRetry(s.rows, j)))
  {
    hide AgentOk, Holds;
    var s2 := s.(rows := Jobs.ManualRetry(s.rows, j));
    if s2.rows != s.rows {
      InactiveIsFree(s, j);
      RowStep(s, s2, j, s2.rows[j]);
    }
  }

  lemma DeleteStep(s: State, j: JobId)
    requires Inv(s) && j in s.rows
    ensures Inv(s.(rows := Jobs.Delete(s.rows, j)))
  {
    hide AgentOk, Holds;
    var s2 := s.(rows := Jobs.Delete(s.rows, j));
    if s2.rows != s.rows {
      InactiveIsFree(s, j);
      RowStep(s, s2, j, s2.rows[j]);
    }
  }

  lemma PostReadStep(s: State, i: nat)
    requires Inv(s) && i in s.posts
    ensures Inv(AfterPostRead(s, i))
  {
    hide AgentOk, Holds;
    Unchanged(s, AfterPostRead(s, i));
  }

  lemma SettleStep(s: State, e: Ending)
    requires Inv(s) && e in s.due
    ensures Inv(AfterSettle(s, e))
  {
    hide AgentOk, Holds;
    var j := e.of.job;
    var s2 := AfterSettle(s, e);
    if j in s.rows && s.rows[j].status.Failed? && s2.rows != s.rows {
      InactiveIsFree(s, j);
      RowStep(s, s2, j, s2.rows[j]);
    } else {
      Unchanged(s, s2);
    }
  }

  /** A completion that reports the row's own assignment: no agent holds that job any more. */
  lemma PostedIsFree(s: State, i: nat)
    requires Inv(s) && i in s.posts && s.rows[s.posts[i].job].epoch == s.posts[i].epoch
    ensures forall n, p :: n in s.agents && Holds(s.agents[n], p) ==> p.job != s.posts[i].job
  {
    assert PostOk(s, s.posts[i]);
    forall n, p | n in s.agents && Holds(s.agents[n], p) ensures p.job != s.posts[i].job {
      assert AgentOk(s.rows, n, s.agents[n]);
      assert p == Assignment(p.job, p.epoch);
    }
  }

  lemma PostWriteStep(s: State, i: nat)
    requires Inv(s) && i in s.posts && s.posts[i].stage.Read? && Timely(s, PostWrite(i))
    ensures Inv(AfterPostWrite(s, i))
  {
    hide AgentOk, Holds;
    var j := s.posts[i].job;
    if ActiveIn(s.rows, j) {
      PostedIsFree(s, i);
      RowStep(s, AfterPostWrite(s, i), j, AfterPostWrite(s, i).rows[j]);
    } else {
      Unchanged(s, AfterPostWrite(s, i));
    }
  }

  // ---- one heartbeat ----

  lemma SendOk(t: Table, n: NodeId, a: Agent, report: Nodes.Report, todo: seq<JobId>)
    requires AgentOk(t, n, a) && CanSend(a, report, todo)
    ensures AgentOk(t, n, AfterSend(a, report, todo))
    ensures forall p :: Holds(AfterSend(a, report, todo), p) ==> Holds(a, p)
  {
  }

  /** What the reported script's row says when it is read. */
  lemma ReportedIsAcknowledged(t: Table, n: NodeId, a: Agent, j: JobId)
    requires AgentOk(t, n, a) && j in Scripts(a)
    ensures Acknowledges(t, n, j)
  {
    assert Holds(a, Assignment(j, a.gor[j].epoch));
    hide Tracked, Reporting, OrphansRead, Behind, Holds;
  }

  lemma AckReadReports(t: Table, n: NodeId, a: Agent)
    requires AgentOk(t, n, a) && CanAckRead(a)
    ensures Reporting(AfterAckRead(a, t, n))
  {
    var todo := a.beat.stage.todo;
    assert todo == [todo[0]] + todo[1..] && Reporting(a);
    forall j | j in Scripts(a) ensures Acknowledges(t, n, j) {
      ReportedIsAcknowledged(t, n, a, j);
    }
    assert Scripts(AfterAckRead(a, t, n)) == Scripts(a);
    hide AgentOk, Acknowledges, Scripts;
  }

  lemma AckReadOk(t: Table, n: NodeId, a: Agent)
    requires AgentOk(t, n, a) && CanAckRead(a)
    ensures AgentOk(t, n, AfterAckRead(a, t, n))
    ensures forall p :: Holds(AfterAckRead(a, t, n), p) ==> Holds(a, p)
  {
    AckReadReports(t, n, a);
    hide Reporting, Owns, Acknowledges;
  }

  lemma StageOk(t: Table, n: NodeId, a: Agent, stage: Stage)
    requires AgentOk(t, n, a) && !a.beat.stage.Quiet? && !a.beat.stage.Orphaning? && !stage.Orphaning?
    requires Reporting(At(a, stage)) && Carried(At(a, stage)) == Carried(a) && !stage.Quiet?
    ensures AgentOk(t, n, At(a, stage))
    ensures forall p :: Holds(At(a, stage), p) ==> Holds(a, p)
  {
  }

  lemma OrphanReadOk(t: Table, n: NodeId, a: Agent, orphans: seq<Assignment>)
    requires RowsOk(t) && AgentOk(t, n, a) && CanOrphanRead(a, t, n, orphans)
    ensures AgentOk(t, n, AfterOrphanRead(a, t, n, orphans))
    ensures forall p :: Holds(AfterOrphanRead(a, t, n, orphans), p) ==> Holds(a, p)
  {
    forall p | p in orphans ensures OrphanAt(t, n, a.beat.acked, p) {
      JobsOfMember(orphans, p.job);
    }
  }

  lemma AckWriteStep(s: State, n: NodeId)
    requires Inv(s) && n in s.agents && CanAckWrite(s.agents[n])
    ensures Inv(AfterAckWrite(s, n))
  {
    hide AgentOk, Holds;
    var a := s.agents[n];
    var j := a.beat.stage.writing.value;
    var mid := s.(rows := Acknowledge(s.rows, j));
    if ActiveIn(s.rows, j) {
      RowStep(s, mid, j, mid.rows[j]);
    }
    assert AgentOk(mid.rows, n, a);
    StageOk(mid.rows, n, a, a.beat.stage.(writing := None)) by { AckingStays(mid.rows, n, a); }
    AgentStep(mid, n, At(a, a.beat.stage.(writing := None)));
  }

  lemma AckingStays(t: Table, n: NodeId, a: Agent)
    requires AgentOk(t, n, a) && CanAckWrite(a)
    ensures Reporting(At(a, a.beat.stage.(writing := None)))
    ensures Carried(At(a, a.beat.stage.(writing := None))) == Carried(a)
  {
  }

  /** The heart of orphan safety: what an orphan write hits is not held by anyone. */
  lemma OrphanIsFree(s: State, n: NodeId, p: Assignment)
    requires Inv(s) && n in s.agents && s.agents[n].beat.stage.Orphaning? && p in s.agents[n].beat.stage.orphans
    requires Unclaimed(s.rows, n, p.job)
    ensures forall m, q :: m in s.agents && Holds(s.agents[m], q) ==> q.job != p.job
  {
    forall m, q | m in s.agents && Holds(s.agents[m], q) ensures q.job != p.job {
      var a := s.agents[m];
      assert AgentOk(s.rows, m, a) && Owns(s.rows, m, q);
      if m == n {
        assert OrphanAt(s.rows, n, a.beat.acked, p);
        assert Script(a, q) ==> q.job in Scripts(a);
      }
    }
  }

  lemma OrphanIsKnown(s: State, n: NodeId, p: Assignment)
    requires Inv(s) && n in s.agents && s.agents[n].beat.stage.Orphaning? && p in s.agents[n].beat.stage.orphans
    ensures p.job in s.rows
  {
    assert AgentOk(s.rows, n, s.agents[n]) && OrphanAt(s.rows, n, s.agents[n].beat.acked, p);
  }

  lemma DropOk(t: Table, n: NodeId, a: Agent)
    requires AgentOk(t, n, a) && CanOrphanWrite(a)
    ensures AgentOk(t, n, Dropping(a))
    ensures forall p :: Holds(Dropping(a), p) ==> Holds(a, p)
  {
  }

  lemma OrphanRowStep(s: State, n: NodeId, p: Assignment)
    requires Inv(s) && n in s.agents && s.agents[n].beat.stage.Orphaning? && p in s.agents[n].beat.stage.orphans
    requires Unclaimed(s.rows, n, p.job)
    ensures Inv(s.(rows := FinishAny(s.rows, p.job)))
  {
    OrphanIsFree(s, n, p);
    OrphanIsKnown(s, n, p);
    hide Inv, Holds, Unclaimed;
    var mid := s.(rows := FinishAny(s.rows, p.job));
    if Exists(s.rows, p.job) {
      RowStep(s, mid, p.job, mid.rows[p.job]);
    }
  }

  lemma OrphanWriteStep(s: State, n: NodeId)
    requires Inv(s) && n in s.agents && CanOrphanWrite(s.agents[n])
    requires Unclaimed(s.rows, n, s.agents[n].beat.stage.orphans[0].job)
    ensures Inv(AfterOrphanWrite(s, n))
  {
    hide AgentOk, Holds, Unclaimed;
    var p := s.agents[n].beat.stage.orphans[0];
    var s2 := AfterOrphanWrite(s, n);
    var mid := s.(rows := FinishAny(s.rows, p.job));
    OrphanRowStep(s, n, p);
    DropOk(mid.rows, n, s.agents[n]);
    AgentStep(mid, n, Dropping(s.agents[n]));
    hide FinishAny;
    Unchanged(With(mid, n, Dropping(s.agents[n])), s2);
  }

  /** A reboot or an update is offered only to a node that reported nothing. */
  lemma DisruptsOnlyIdle(row: Nodes.Row, report: Nodes.Report, busy: bool, active: nat, env: Nodes.Env)
    ensures Nodes.Decide(row, report, busy, active, env).1.Reboot? ==> !busy
    ensures Nodes.Decide(row, report, busy, active, env).1.Update? ==> !busy
  {
  }

  lemma DecideOk(t: Table, n: NodeId, a: Agent, env: Nodes.Env)
    requires AgentOk(t, n, a) && CanDecide(a)
    ensures AgentOk(t, n, AfterDecide(a, env))
    ensures forall p :: Holds(AfterDecide(a, env), p) ==> Holds(a, p)
  {
    DisruptsOnlyIdle(a.row, a.beat.report, Busy(a), a.beat.stage.active, env);
    hide Nodes.Decide;
  }

  lemma QuietOk(t: Table, n: NodeId, a: Agent)
    requires AgentOk(t, n, a)
    ensures AgentOk(t, n, a.(beat := Idle()))
    ensures forall p :: Holds(a.(beat := Idle()), p) ==> Holds(a, p)
  {
  }

  /** Registering the accepted payloads of a reply keeps the registry exact and bounded. */
  lemma AcceptOk(a: Agent)
    requires Tracked(a) && CanReceive(a) && a.beat.stage.reply.Work?
    ensures Tracked(AfterReceive(a, false))
  {
    var ok := Accepted(a.reg, a.beat.stage.reply.payloads);
    AcceptedIsSafe(a.reg, a.beat.stage.reply.payloads);
    assert a.reg == a.gor.Keys;
  }

  lemma WorkOk(t: Table, n: NodeId, a: Agent)
    requires AgentOk(t, n, a) && CanReceive(a) && a.beat.stage.reply.Work?
    ensures AgentOk(t, n, AfterReceive(a, false))
    ensures forall p :: Holds(AfterReceive(a, false), p) ==> Holds(a, p)
  {
    AcceptOk(a);
    AcceptedIsSafe(a.reg, a.beat.stage.reply.payloads);
    hide Accepted, Tracked;
    var a2 := AfterReceive(a, false);
    assert Carried(a2) == [] && a2.gor == a.gor;
    forall p | Holds(a2, p) ensures Holds(a, p) {
      assert p in a2.spawn || Script(a, p);
    }
  }

  lemma ReceiveOk(t: Table, n: NodeId, a: Agent, rebooting: bool)
    requires AgentOk(t, n, a) && CanReceive(a)
    ensures AgentOk(t, n, AfterReceive(a, rebooting))
    ensures forall p :: Holds(AfterReceive(a, rebooting), p) ==> Holds(a, p)
  {
    if a.beat.stage.reply.Work? {
      WorkOk(t, n, a);
      hide AgentOk, Holds;
    }
  }

  lemma SpawnOk(t: Table, n: NodeId, a: Agent)
    requires AgentOk(t, n, a) && a.spawn != []
    ensures AgentOk(t, n, AfterSpawn(a))
    ensures forall p :: Holds(AfterSpawn(a), p) ==> Holds(a, p)
  {
    var a2 := AfterSpawn(a);
    assert a.spawn == [a.spawn[0]] + a.spawn[1..];
    assert Holds(a, a.spawn[0]);
    assert a2.reg == a2.gor.Keys + JobsOf(a2.spawn);
  }

  lemma ReturnOk(t: Table, n: NodeId, a: Agent, j: JobId)
    requires AgentOk(t, n, a) && InPhase(a, j, false, true)
    ensures AgentOk(t, n, AfterReturn(a, j))
    ensures forall p :: Holds(AfterReturn(a, j), p) ==> Holds(a, p)
  {
    assert AfterReturn(a, j).gor.Keys == a.gor.Keys;
  }

  lemma LeaveTracked(a: Agent, j: JobId)
    requires Tracked(a) && j in a.gor
    ensures Tracked(AfterLeave(a, j))
  {
    var a2 := AfterLeave(a, j);
    assert j !in JobsOf(a.spawn) by { JobsOfMember(a.spawn, j); }
    assert a2.reg == a2.gor.Keys + JobsOf(a2.spawn);
    Fewer(a2.reg, a.reg);
  }

  lemma LeaveOk(t: Table, n: NodeId, a: Agent, j: JobId)
    requires AgentOk(t, n, a) && InPhase(a, j, false, false)
    ensures AgentOk(t, n, AfterLeave(a, j))
    ensures forall p :: Holds(AfterLeave(a, j), p) ==> Holds(a, p)
  {
    LeaveTracked(a, j);
    hide Tracked;
  }

  lemma Fewer(small: set<JobId>, big: set<JobId>)
    requires small <= big
    ensures |small| <= |big|
  {
    assert big == small + (big - small);
  }

  lemma CrashOk(t: Table, n: NodeId, a: Agent)
    requires AgentOk(t, n, a)
    ensures AgentOk(t, n, AfterCrash(a))
    ensures forall p :: Holds(AfterCrash(a), p) ==> Holds(a, p)
  {
  }

  /** After the script ended nobody holds its assignment. */
  lemma FinishOk(t: Table, n: NodeId, a: Agent, j: JobId, i: nat, ran: bool)
    requires AgentOk(t, n, a) && InPhase(a, j, true, false)
    ensures AgentOk(t, n, AfterFinish(a, j, i, ran))
    ensures forall p :: Holds(AfterFinish(a, j, i, ran), p) ==> Holds(a, p)
    ensures !Holds(AfterFinish(a, j, i, ran), Assignment(j, a.gor[j].epoch))
  {
    assert AfterFinish(a, j, i, ran).gor.Keys == a.gor.Keys;
  }

  /** The row names the only node that holds an assignment. */
  lemma OneHolder(s: State, n: NodeId, p: Assignment)
    requires Inv(s) && n in s.agents && Holds(s.agents[n], p)
    ensures Owns(s.rows, n, p)
    ensures forall m :: m in s.agents && Holds(s.agents[m], p) ==> m == n
  {
    assert AgentOk(s.rows, n, s.agents[n]);
    forall m | m in s.agents && Holds(s.agents[m], p) ensures m == n {
      assert AgentOk(s.rows, m, s.agents[m]);
    }
  }

  lemma FinishStep(s: State, n: NodeId, j: JobId, ok: bool, ran: bool)
    requires Inv(s) && n in s.agents && InPhase(s.agents[n], j, true, false)
    ensures Inv(Posted(With(s, n, AfterFinish(s.agents[n], j, s.nextPost, ran)),
      Post(n, j, s.agents[n].gor[j].epoch, ok, Sent)))
  {
    var a := s.agents[n];
    var a2 := AfterFinish(a, j, s.nextPost, ran);
    var p := Assignment(j, a.gor[j].epoch);
    assert Holds(a, p);
    hide AgentOk, Holds;
    FinishOk(s.rows, n, a, j, s.nextPost, ran);
    AgentStep(s, n, a2);
    OneHolder(s, n, p);
    PostAdded(With(s, n, a2), Post(n, j, p.epoch, ok, Sent));
  }

  lemma PostAdded(s: State, post: Post)
    requires Inv(s) && PostOk(s, post)
    ensures Inv(Posted(s, post))
  {
    hide AgentOk, Holds;
    var s2 := Posted(s, post);
    forall i | i in s2.posts ensures PostOk(s2, s2.posts[i]) {
      assert i != s.nextPost ==> PostOk(s, s.posts[i]);
    }
  }

  lemma FreshOk(t: Table, n: NodeId, row: Nodes.Row)
    ensures AgentOk(t, n, Fresh(row))
    ensures forall p :: !Holds(Fresh(row), p)
  {
  }

  lemma JoinStep(s: State, n: NodeId, row: Nodes.Row)
    requires Inv(s) && n != 0 && n !in s.agents
    ensures Inv(With(s, n, Fresh(row)))
  {
    FreshOk(s.rows, n, row);
    hide AgentOk, Holds;
    var s2 := With(s, n, Fresh(row));
    forall i | i in s2.posts ensures PostOk(s2, s2.posts[i]) {
      assert PostOk(s, s.posts[i]);
    }
  }

  lemma GrantOk(t: Table, n: NodeId, a: Agent)
    requires AgentOk(t, n, a) && CanGrab(a)
    requires a.beat.stage.candidate.value in t && t[a.beat.stage.candidate.value].status.Pending?
    ensures var j := a.beat.stage.candidate.value; var p := Assignment(j, t[j].epoch + 1);
            && AgentOk(Assign(t, j, n), n, Granted(a, p))
            && forall q :: Holds(Granted(a, p), q) ==> Holds(a, q) || q == p
  {
    var j := a.beat.stage.candidate.value;
    var p := Assignment(j, t[j].epoch + 1);
    var a2 := Granted(a, p);
    assert forall q :: Holds(a2, q) ==> Holds(a, q) || q == p;
    forall q | Holds(a, q) ensures q.job != j {
      assert Owns(t, n, q);
    }
  }

  /** A node that is not assigning is untouched by another node's assignment. */
  lemma GrantElsewhere(t: Table, j: JobId, n: NodeId, m: NodeId, a: Agent)
    requires AgentOk(t, m, a) && m != n && j in t && t[j].status.Pending?
    ensures AgentOk(Assign(t, j, n), m, a)
  {
    forall q | Holds(a, q) ensures q.job != j {
      assert Owns(t, m, q);
    }
  }

  function Grant(s: State, n: NodeId, j: JobId): State
    requires n in s.agents && CanGrab(s.agents[n]) && j in s.rows
  {
    With(s.(rows := Assign(s.rows, j, n)), n, Granted(s.agents[n], Assignment(j, s.rows[j].epoch + 1)))
  }

  lemma GrantAgents(s: State, n: NodeId, j: JobId, m: NodeId)
    requires Inv(s) && n in s.agents && CanGrab(s.agents[n]) && s.agents[n].beat.stage.candidate == Some(j)
    requires j in s.rows && s.rows[j].status.Pending? && m in s.agents
    ensures AgentOk(Grant(s, n, j).rows, m, Grant(s, n, j).agents[m])
    ensures forall q :: Holds(Grant(s, n, j).agents[m], q) ==>
      Holds(s.agents[m], q) || q == Assignment(j, s.rows[j].epoch + 1)
  {
    hide AgentOk, Holds, Granted, Assign;
    if m == n {
      GrantOk(s.rows, n, s.agents[n]);
    } else {
      GrantElsewhere(s.rows, j, n, m, s.agents[m]);
    }
  }

  lemma GrantStep(s: State, n: NodeId, j: JobId)
    requires Inv(s) && n in s.agents && CanGrab(s.agents[n]) && s.agents[n].beat.stage.candidate == Some(j)
    requires j in s.rows && s.rows[j].status.Pending?
    ensures Inv(Grant(s, n, j))
  {
    hide AgentOk, Holds;
    var s2 := Grant(s, n, j);
    forall m | m in s2.agents ensures AgentOk(s2.rows, m, s2.agents[m]) {
      GrantAgents(s, n, j, m);
    }
    forall i | i in s2.posts ensures PostOk(s2, s2.posts[i]) {
      var p := s.posts[i];
      assert PostOk(s, p);
      forall m | m in s2.agents ensures !Holds(s2.agents[m], Assignment(p.job, p.epoch)) {
        GrantAgents(s, n, j, m);
      }
    }
  }

  lemma StopStep(s: State, n: NodeId)
    requires Inv(s) && n in s.agents && s.agents[n].beat.stage.Filling?
    ensures Inv(With(s, n, At(s.agents[n], Reported(s.agents[n].beat.stage.got))))
  {
    var a := s.agents[n];
    hide AgentOk, Holds;
    StopCarries(s.rows, n, a);
    StageOk(s.rows, n, a, Reported(a.beat.stage.got));
    AgentStep(s, n, At(a, Reported(a.beat.stage.got)));
  }

  lemma GrabStep(s: State, n: NodeId)
    requires Inv(s) && n in s.agents && CanGrab(s.agents[n])
    ensures Inv(AfterGrab(s, n))
  {
    hide Inv;
    var a := s.agents[n];
    if Assignable(s.rows, a.beat.stage.candidate.value, n, a.row.enabled, a.row.cap) {
      GrantStep(s, n, a.beat.stage.candidate.value);
    } else {
      StopStep(s, n);
    }
  }

  lemma StopCarries(t: Table, n: NodeId, a: Agent)
    requires AgentOk(t, n, a) && a.beat.stage.Filling?
    ensures Reporting(At(a, Reported(a.beat.stage.got)))
    ensures Carried(At(a, Reported(a.beat.stage.got))) == Carried(a)
  {
  }

  // ---- every run ----

  lemma SendStep(s: State, n: NodeId, report: Nodes.Report, todo: seq<JobId>)
    requires Inv(s) && n in s.agents && CanSend(s.agents[n], report, todo)
    ensures Inv(With(s, n, AfterSend(s.agents[n], report, todo)))
  {
    var a := s.agents[n];
    EachOk(s, n);
    hide Inv, AgentOk, Holds;
    SendOk(s.rows, n, a, report, todo);
    AgentStep(s, n, AfterSend(s.agents[n], report, todo));
  }

  lemma AckReadStep(s: State, n: NodeId)
    requires Inv(s) && n in s.agents && CanAckRead(s.agents[n])
    ensures Inv(With(s, n, AfterAckRead(s.agents[n], s.rows, n)))
  {
    var a := s.agents[n];
    EachOk(s, n);
    hide Inv, AgentOk, Holds;
    AckReadOk(s.rows, n, a);
    AgentStep(s, n, AfterAckRead(s.agents[n], s.rows, n));
  }

  lemma ActiveIsNumbered(s: State)
    requires Inv(s)
    ensures RowsOk(s.rows)
  {
  }

  lemma OrphanReadStep(s: State, n: NodeId, orphans: seq<Assignment>)
    requires Inv(s) && n in s.agents && CanOrphanRead(s.agents[n], s.rows, n, orphans)
    ensures Inv(With(s, n, AfterOrphanRead(s.agents[n], s.rows, n, orphans)))
  {
    var a := s.agents[n];
    EachOk(s, n);
    ActiveIsNumbered(s);
    hide Inv, AgentOk, Holds, RowsOk, CanOrphanRead;
    OrphanReadOk(s.rows, n, a, orphans);
    AgentStep(s, n, AfterOrphanRead(s.agents[n], s.rows, n, orphans));
  }

  lemma DecideStep(s: State, n: NodeId, env: Nodes.Env)
    requires Inv(s) && n in s.agents && CanDecide(s.agents[n])
    ensures Inv(With(s, n, AfterDecide(s.agents[n], env)))
  {
    var a := s.agents[n];
    EachOk(s, n);
    hide Inv, AgentOk, Holds;
    DecideOk(s.rows, n, a, env);
    AgentStep(s, n, AfterDecide(s.agents[n], env));
  }

  lemma PickOk(t: Table, n: NodeId, a: Agent, j: JobId)
    requires AgentOk(t, n, a) && CanPick(a, t, j)
    ensures AgentOk(t, n, AfterPick(a, j))
    ensures forall p :: Holds(AfterPick(a, j), p) ==> Holds(a, p)
  {
  }

  lemma PickStep(s: State, n: NodeId, j: JobId)
    requires Inv(s) && n in s.agents && CanPick(s.agents[n], s.rows, j)
    ensures Inv(With(s, n, AfterPick(s.agents[n], j)))
  {
    var a := s.agents[n];
    EachOk(s, n);
    hide Inv, AgentOk, Holds;
    PickOk(s.rows, n, a, j);
    AgentStep(s, n, AfterPick(s.agents[n], j));
  }

  lemma QuietStep(s: State, n: NodeId)
    requires Inv(s) && n in s.agents
    ensures Inv(With(s, n, s.agents[n].(beat := Idle())))
  {
    var a := s.agents[n];
    EachOk(s, n);
    hide Inv, AgentOk, Holds;
    QuietOk(s.rows, n, a);
    AgentStep(s, n, s.agents[n].(beat := Idle()));
  }

  lemma ReceiveStep(s: State, n: NodeId, rebooting: bool)
    requires Inv(s) && n in s.agents && CanReceive(s.agents[n])
    ensures Inv(With(s, n, AfterReceive(s.agents[n], rebooting)))
  {
    var a := s.agents[n];
    EachOk(s, n);
    hide Inv, AgentOk, Holds;
    ReceiveOk(s.rows, n, a, rebooting);
    AgentStep(s, n, AfterReceive(s.agents[n], rebooting));
  }

  lemma SpawnStep(s: State, n: NodeId)
    requires Inv(s) && n in s.agents && s.agents[n].spawn != []
    ensures Inv(With(s, n, AfterSpawn(s.agents[n])))
  {
    var a := s.agents[n];
    EachOk(s, n);
    hide Inv, AgentOk, Holds;
    SpawnOk(s.rows, n, a);
    AgentStep(s, n, AfterSpawn(s.agents[n]));
  }

  lemma ReturnStep(s: State, n: NodeId, j: JobId)
    requires Inv(s) && n in s.agents && InPhase(s.agents[n], j, false, true)
    ensures Inv(With(s, n, AfterReturn(s.agents[n], j)))
  {
    var a := s.agents[n];
    EachOk(s, n);
    hide Inv, AgentOk, Holds;
    ReturnOk(s.rows, n, a, j);
    AgentStep(s, n, AfterReturn(s.agents[n], j));
  }

  lemma LeaveStep(s: State, n: NodeId, j: JobId)
    requires Inv(s) && n in s.agents && InPhase(s.agents[n], j, false, false)
    ensures Inv(With(s, n, AfterLeave(s.agents[n], j)))
  {
    var a := s.agents[n];
    EachOk(s, n);
    hide Inv, AgentOk, Holds;
    LeaveOk(s.rows, n, a, j);
    AgentStep(s, n, AfterLeave(s.agents[n], j));
  }

  lemma SyncOk(t: Table, n: NodeId, a: Agent, on: bool)
    requires AgentOk(t, n, a)
    ensures AgentOk(t, n, a.(syncing := on))
    ensures forall p :: Holds(a.(syncing := on), p) ==> Holds(a, p)
  {
  }

  lemma SyncStep(s: State, n: NodeId, on: bool)
    requires Inv(s) && n in s.agents
    ensures Inv(With(s, n, s.agents[n].(syncing := on)))
  {
    var a := s.agents[n];
    EachOk(s, n);
    hide Inv, AgentOk, Holds;
    SyncOk(s.rows, n, a, on);
    AgentStep(s, n, s.agents[n].(syncing := on));
  }

  lemma CrashStep(s: State, n: NodeId)
    requires Inv(s) && n in s.agents
    ensures Inv(With(s, n, AfterCrash(s.agents[n])))
  {
    var a := s.agents[n];
    EachOk(s, n);
    hide Inv, AgentOk, Holds;
    CrashOk(s.rows, n, a);
    AgentStep(s, n, AfterCrash(s.agents[n]));
  }

  lemma TableStep(s: State, l: Label)
    requires Inv(s) && Enabled(s, l) && Timely(s, l)
    requires l.Join? || l.Create? || l.Cancel? || l.ManualRetry? || l.Delete?
    ensures Inv(Step(s, l))
  {
    hide Inv;
    match l
    case Join(n, row) => JoinStep(s, n, row);
    case Create(j, budget) => CreateStep(s, j, budget);
    case Cancel(j) => CancelStep(s, j);
    case ManualRetry(j) => ManualRetryStep(s, j);
    case Delete(j) => DeleteStep(s, j);
  }

  lemma HeartbeatStep(s: State, l: Label)
    requires Inv(s) && Enabled(s, l) && Timely(s, l)
    requires l.Send? || l.AckRead? || l.AckWrite? || l.OrphanRead? || l.OrphanWrite? || l.Decide?
    ensures Inv(Step(s, l))
  {
    hide Inv, CanSend, CanOrphanRead, AfterAckRead, AfterAckWrite, AfterOrphanWrite, AfterDecide;
    match l
    case Send(n, report, todo) => SendStep(s, n, report, todo);
    case AckRead(n) => AckReadStep(s, n);
    case AckWrite(n) => AckWriteStep(s, n);
    case OrphanRead(n, orphans) => OrphanReadStep(s, n, orphans);
    case OrphanWrite(n) => OrphanWriteStep(s, n);
    case Decide(n, env) => DecideStep(s, n, env);
  }

  lemma ReplyStep(s: State, l: Label)
    requires Inv(s) && Enabled(s, l)
    requires l.Pick? || l.Grab? || l.Stop? || l.Lose? || l.Receive? || l.Spawn?
    ensures Inv(Step(s, l))
  {
    hide Inv, CanPick, CanReceive, AfterGrab, AfterReceive, AfterSpawn;
    match l
    case Pick(n, j) => PickStep(s, n, j);
    case Grab(n) => GrabStep(s, n);
    case Stop(n) => StopStep(s, n);
    case Lose(n) => QuietStep(s, n);
    case Receive(n, rebooting) => ReceiveStep(s, n, rebooting);
    case Spawn(n) => SpawnStep(s, n);
  }

  lemma GoroutineStep(s: State, l: Label)
    requires Inv(s) && Enabled(s, l)
    requires l.Finish? || l.PostReturns? || l.Leave? || l.Sync? || l.Crash?
    ensures Inv(Step(s, l))
  {
    hide Inv, InPhase, AfterFinish, AfterReturn, AfterLeave, AfterCrash;
    match l
    case Finish(n, j, ok, ran) => FinishStep(s, n, j, ok, ran);
    case PostReturns(n, j) => ReturnStep(s, n, j);
    case Leave(n, j) => LeaveStep(s, n, j);
    case Sync(n, on) => SyncStep(s, n, on);
    case Crash(n) => CrashStep(s, n);
  }

  lemma HandlerStep(s: State, l: Label)
    requires Inv(s) && Enabled(s, l) && Timely(s, l)
    requires l.PostRead? || l.PostWrite? || l.PostLost? || l.DueRead? || l.Settle? || l.Forget?
    ensures Inv(Step(s, l))
  {
    hide Inv, AfterPostRead, AfterPostWrite, AfterSettle;
    match l
    case PostRead(i) => PostReadStep(s, i);
    case PostWrite(i) => PostWriteStep(s, i);
    case PostLost(i) => Unchanged(s, s.(posts := s.posts - {i}));
    case DueRead(e) => Unchanged(s, AfterDueRead(s, e));
    case Settle(e) => SettleStep(s, e);
    case Forget(e) => Unchanged(s, s.(due := s.due - {e}));
  }

  lemma InvStep(s: State, l: Label)
    requires Inv(s) && Enabled(s, l) && Timely(s, l)
    ensures Inv(Step(s, l))
  {
    hide Inv, Enabled, Step, Timely;
    match l
    case Join(_, _) | Create(_, _) | Cancel(_) | ManualRetry(_) | Delete(_) => TableStep(s, l);
    case Send(_, _, _) | AckRead(_) | AckWrite(_) | OrphanRead(_, _) | OrphanWrite(_)
      | Decide(_, _) => HeartbeatStep(s, l);
    case Pick(_, _) | Grab(_) | Stop(_) | Lose(_) | Receive(_, _) | Spawn(_) => ReplyStep(s, l);
    case Finish(_, _, _, _) | PostReturns(_, _) | Leave(_, _) | Sync(_, _) | Crash(_) => GoroutineStep(s, l);
    case PostRead(_) | PostWrite(_) | PostLost(_) | DueRead(_) | Settle(_) | Forget(_) => HandlerStep(s, l);
  }

  /** Every timely run from a state with the invariant ends in one. */
  lemma {:induction false} InvRun(s: State, ls: seq<Label>)
    requires Inv(s) && IsRun(s, ls, Timely)
    ensures Inv(Final(s, ls, Timely))
    decreases |ls|
  {
    hide Inv, Enabled, Step, Timely;
    if ls != [] {
      InvStep(s, ls[0]);
      InvRun(Step(s, ls[0]), ls[1..]);
    }
  }

  // ---- what the runs promise ----

  lemma ScriptHeld(a: Agent, j: JobId)
    ensures j in Scripts(a) ==> Holds(a, Assignment(j, a.gor[j].epoch))
  {
  }

  /**
   An executing script belongs to a row that is assigned or running and owned by that node, in the
   assignment it was started for; so it executes on one node only.
   */
  lemma ScriptIsOwned(ls: seq<Label>, n: NodeId, j: JobId)
    requires IsRun(INITIAL, ls, Timely) && n in Final(INITIAL, ls, Timely).agents
    requires j in Scripts(Final(INITIAL, ls, Timely).agents[n])
    ensures var s := Final(INITIAL, ls, Timely);
            && Owns(s.rows, n, Assignment(j, s.agents[n].gor[j].epoch))
            && forall m :: m in s.agents && j in Scripts(s.agents[m]) ==> m == n
  {
    InvRun(INITIAL, ls);
    var s := Final(INITIAL, ls, Timely);
    var p := Assignment(j, s.agents[n].gor[j].epoch);
    hide Step, Enabled, Timely, Holds;
    ScriptHeld(s.agents[n], j);
    OneHolder(s, n, p);
    forall m | m in s.agents && j in Scripts(s.agents[m]) ensures m == n {
      ScriptHeld(s.agents[m], j);
      OneHolder(s, m, Assignment(j, s.agents[m].gor[j].epoch));
    }
  }

  /** The registry of every agent is exactly its goroutines, at most eight, and a spawn never meets a running one. */
  lemma RegistryIsExact(ls: seq<Label>, n: NodeId)
    requires IsRun(INITIAL, ls, Timely) && n in Final(INITIAL, ls, Timely).agents
    ensures var a := Final(INITIAL, ls, Timely).agents[n];
            && a.reg == a.gor.Keys + JobsOf(a.spawn) && |a.reg| <= MAX_LOCAL_JOBS
            && forall p :: p in a.spawn ==> p.job !in a.gor
  {
    InvRun(INITIAL, ls);
    hide Step, Enabled, Timely, Holds;
    assert AgentOk(Final(INITIAL, ls, Timely).rows, n, Final(INITIAL, ls, Timely).agents[n]);
  }

  /** An orphan whose failure lands on the row that was read, or on one no longer active, is executing nowhere. */
  lemma OrphanIsDead(ls: seq<Label>, n: NodeId, p: Assignment, m: NodeId)
    requires IsRun(INITIAL, ls, Timely)
    requires var s := Final(INITIAL, ls, Timely);
             && n in s.agents && s.agents[n].beat.stage.Orphaning? && p in s.agents[n].beat.stage.orphans
             && Unclaimed(s.rows, n, p.job) && m in s.agents
    ensures p.job !in Scripts(Final(INITIAL, ls, Timely).agents[m])
  {
    InvRun(INITIAL, ls);
    var s := Final(INITIAL, ls, Timely);
    hide Step, Enabled, Timely, Holds, AgentOk;
    OrphanIsFree(s, n, p);
    ScriptHeld(s.agents[m], p.job);
  }

  /**
   At the write of an orphan's failure the table tells whether the row is still at the
   assignment that was read: exactly when it is running on that node.
   */
  lemma GuardIsExact(ls: seq<Label>, n: NodeId, p: Assignment)
    requires IsRun(INITIAL, ls, Timely)
    requires var s := Final(INITIAL, ls, Timely);
             n in s.agents && s.agents[n].beat.stage.Orphaning? && p in s.agents[n].beat.stage.orphans
    ensures var t := Final(INITIAL, ls, Timely).rows;
            StillRunning(t, n, p.job) <==> p.job in t && t[p.job].status.Running? && t[p.job].epoch == p.epoch
  {
    InvRun(INITIAL, ls);
    var s := Final(INITIAL, ls, Timely);
    hide Step, Enabled, Timely, Holds;
    assert AgentOk(s.rows, n, s.agents[n]);
    assert OrphanAt(s.rows, n, s.agents[n].beat.acked, p);
  }

  lemma DisruptedIsIdle(a: Agent)
    requires Reporting(a) && (a.beat.stage == Answered(RebootNow) || a.beat.stage == Answered(UpdateNow))
    ensures Scripts(a) == {}
  {
  }

  /** When a reboot or an update instruction is delivered, no script is executing on the node. */
  lemma DisruptionFindsNoScript(ls: seq<Label>, n: NodeId)
    requires IsRun(INITIAL, ls, Timely)
    requires var s := Final(INITIAL, ls, Timely);
             n in s.agents
                 && (s.agents[n].beat.stage == Answered(RebootNow) || s.agents[n].beat.stage == Answered(UpdateNow))
    ensures Scripts(Final(INITIAL, ls, Timely).agents[n]) == {}
  {
    InvRun(INITIAL, ls);
    hide Step, Enabled, Timely, Scripts;
    EachOk(Final(INITIAL, ls, Timely), n);
    hide Inv;
    DisruptedIsIdle(Final(INITIAL, ls, Timely).agents[n]);
  }
}
