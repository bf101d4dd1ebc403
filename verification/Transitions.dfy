/**
 What single steps of the protocol do, told by the states before and after and not by the statements:
 how a row comes into each status, what a handler owes, what an agent is given and what it counts.
 */
module Transitions {
  import opened Wrappers
  import opened Jobs
  import opened Registry
  import opened Fleet
  import Epochs
  import FinishOnce
  import Nodes

  // ---- rows ----

  /** The step turns the row of job `j`, which has another status now, into one of status `to`. */
  predicate Turns(s: State, l: Label, j: JobId, to: Status)
    requires Enabled(s, l) && j in s.rows
  {
    var t := Step(s, l).rows;
    j in t && t[j].status == to && s.rows[j].status != to
  }

  /** A completion whose handler read the row is about to be written, and reports job `j`. */
  predicate Reports(s: State, l: Label, j: JobId, ok: bool) {
    l.PostWrite? && l.i in s.posts && s.posts[l.i].job == j && s.posts[l.i].ok == ok
  }

  /** An orphan of job `j` is about to be failed. */
  predicate Fails(s: State, l: Label, j: JobId) {
    l.OrphanWrite? && l.n in s.agents && CanOrphanWrite(s.agents[l.n]) && s.agents[l.n].beat.stage.orphans[0].job == j
  }

  /** A retry decision for job `j` is about to be taken, and the count it read is below a positive budget. */
  predicate Retries(s: State, l: Label, j: JobId)
    requires j in s.rows
  {
    && l.Settle? && l.e in s.due && l.e.of.job == j && s.due[l.e].Choose?
    && 0 < s.rows[j].budget && s.due[l.e].retries < s.rows[j].budget
  }

  /** A row is done exactly when a completion that reports success finds it assigned or running. */
  lemma TurnsDone(s: State, l: Label, j: JobId)
    requires Enabled(s, l) && j in s.rows
    ensures Turns(s, l, j, Done) <==>
      Reports(s, l, j, true) && (s.rows[j].status.Assigned? || s.rows[j].status.Running?)
  {
    hide Step, CanSend, CanOrphanRead, CanPick, InPhase, ActiveOn;
    StepTable(s, l);
  }

  /** A row fails exactly when a completion reports so while it is live, or as an orphan, whatever its status. */
  lemma TurnsFailed(s: State, l: Label, j: JobId)
    requires Enabled(s, l) && j in s.rows
    ensures Turns(s, l, j, Failed) <==>
      || (Reports(s, l, j, false) && (s.rows[j].status.Assigned? || s.rows[j].status.Running?))
      || (Fails(s, l, j) && !s.rows[j].status.Failed? && !s.rows[j].status.Deleted?)
  {
    hide Step, CanSend, CanOrphanRead, CanPick, InPhase, ActiveOn;
    StepTable(s, l);
  }

  function Live(t: Table, n: NodeId): set<JobId> {
    set j | j in t && t[j].node == n && (t[j].status.Assigned? || t[j].status.Running?)
  }

  lemma OnlyGrabs(s: State, l: Label, j: JobId)
    requires Enabled(s, l) && j in s.rows && !l.Grab?
    ensures !Turns(s, l, j, Assigned)
  {
    hide Step, CanSend, CanOrphanRead, CanPick, InPhase, ActiveOn;
    StepTable(s, l);
  }

  /**
   A pending row is assigned exactly when a heartbeat that picked it finds its node enabled with a slot
   free; a cap below one counts as one. The row then names the node, in a new assignment.
   */
  lemma TurnsAssigned(s: State, l: Label, j: JobId)
    requires Enabled(s, l) && j in s.rows
    ensures Turns(s, l, j, Assigned) <==>
      && l.Grab? && s.agents[l.n].beat.stage.candidate == Some(j) && s.rows[j].status.Pending?
      && s.agents[l.n].row.enabled
      && (|Live(s.rows, l.n)| == 0 || |Live(s.rows, l.n)| < s.agents[l.n].row.cap)
    ensures Turns(s, l, j, Assigned) ==>
      Step(s, l).rows[j] == s.rows[j].(status := Assigned, node := l.n, epoch := s.rows[j].epoch + 1)
  {
    if l.Grab? {
      assert ActiveOn(s.rows, l.n) == Live(s.rows, l.n);
      hide ActiveOn, Live;
      StepTable(s, l);
      hide Step, Enabled;
    } else {
      hide Enabled, Step, Turns;
      OnlyGrabs(s, l, j);
    }
  }

  lemma TurnsRunning(s: State, l: Label, j: JobId)
    requires Enabled(s, l) && j in s.rows
    ensures Turns(s, l, j, Running) <==>
      l.AckWrite? && s.agents[l.n].beat.stage.writing == Some(j) && s.rows[j].status.Assigned?
  {
    hide Step, CanSend, CanOrphanRead, CanPick, InPhase, ActiveOn;
    StepTable(s, l);
  }

  lemma TurnsCancelled(s: State, l: Label, j: JobId)
    requires Enabled(s, l) && j in s.rows
    ensures Turns(s, l, j, Cancelled) <==>
      l == Cancel(j) && (s.rows[j].status.Pending? || s.rows[j].status.Assigned?)
  {
    hide Step, CanSend, CanOrphanRead, CanPick, InPhase, ActiveOn;
    StepTable(s, l);
  }

  lemma TurnsDeleted(s: State, l: Label, j: JobId)
    requires Enabled(s, l) && j in s.rows
    ensures Turns(s, l, j, Deleted) <==>
      l == Delete(j) && (s.rows[j].status.Done? || s.rows[j].status.Failed? || s.rows[j].status.Cancelled?)
  {
    hide Step, CanSend, CanOrphanRead, CanPick, InPhase, ActiveOn;
    StepTable(s, l);
  }

  /**
   A row is requeued exactly by the operator, once it is terminal, or by a decision that finds it failed
   and its budget not used up. The operator's retry starts the count again and lifts the gate; the
   automatic one goes one beyond the count that the decision read, behind a gate.
   */
  lemma TurnsPending(s: State, l: Label, j: JobId)
    requires Enabled(s, l) && j in s.rows
    ensures Turns(s, l, j, Pending) <==>
      || (l == ManualRetry(j) && (s.rows[j].status.Done? || s.rows[j].status.Failed? || s.rows[j].status.Cancelled?))
      || (Retries(s, l, j) && s.rows[j].status.Failed?)
    ensures Turns(s, l, j, Pending) ==>
      var r2 := Step(s, l).rows[j];
      && r2.node == 0 && r2.epoch == s.rows[j].epoch && r2.budget == s.rows[j].budget
      && if l.Settle? then r2.retries == s.due[l.e].retries + 1 && r2.gated else r2.retries == 0 && !r2.gated
  {
    hide Step, CanSend, CanOrphanRead, CanPick, InPhase, ActiveOn;
    StepTable(s, l);
  }

  /** The operator can also lift the gate of a pending job; nothing else changes a row but its status does. */
  lemma TurnsOnly(s: State, l: Label, j: JobId)
    requires Enabled(s, l) && j in s.rows && j in Step(s, l).rows
    ensures var r, r2 := s.rows[j], Step(s, l).rows[j];
            && (r2.status == r.status ==> r2 == r || (l == ManualRetry(j) && r.status.Pending? && r.gated))
            && (r2.status != r.status && !r2.status.Pending? && !r2.status.Assigned? ==> r2 == r.(status := r2.status))
    ensures l == ManualRetry(j) && s.rows[j].status.Pending? && s.rows[j].gated ==>
      Step(s, l).rows[j] == s.rows[j].(node := 0, retries := 0, gated := false)
  {
    hide Step, CanSend, CanOrphanRead, CanPick, InPhase, ActiveOn;
    StepTable(s, l);
  }

  /** Rows come only from the operator, pending and never assigned, and never go. */
  lemma Appears(s: State, l: Label, j: JobId)
    requires Enabled(s, l)
    ensures j in s.rows ==> j in Step(s, l).rows
    ensures j !in s.rows && j in Step(s, l).rows ==> l.Create? && l.j == j
    ensures l.Create? && l.j == j ==>
      j in Step(s, l).rows && Step(s, l).rows[j] == Row(Pending, 0, 0, false, l.budget, 0)
  {
    hide Step, CanSend, CanOrphanRead, CanPick, InPhase, ActiveOn;
    StepTable(s, l);
  }

  /** A completion that finds its row live records the outcome it reports, and nothing else of the row changes. */
  lemma CompletionRecords(s: State, i: nat)
    requires Enabled(s, PostWrite(i)) && s.posts[i].job in s.rows
    ensures var r := s.rows[s.posts[i].job]; var t := Step(s, PostWrite(i)).rows;
            && s.posts[i].job in t
            && t[s.posts[i].job] ==
            if r.status.Assigned? || r.status.Running? then r.(status := if s.posts[i].ok then Done else Failed) else r
  {
  }

  // ---- successful completions, over runs ----

  /** In every run a row that is done was live when a completion reporting success was written for it. */
  lemma {:induction false} DoneWasReported(s: State, ls: seq<Label>, j: JobId) returns (k: nat)
    requires IsRun(s, ls, Any) && !(j in s.rows && s.rows[j].status.Done?)
    requires var t := Final(s, ls, Any).rows; j in t && t[j].status.Done?
    ensures k < |ls| && IsRun(s, ls[..k], Any)
    ensures var at := Final(s, ls[..k], Any);
            Reports(at, ls[k], j, true) && j in at.rows && (at.rows[j].status.Assigned? || at.rows[j].status.Running?)
    decreases |ls|
  {
    var s2 := Step(s, ls[0]);
    if j in s2.rows && s2.rows[j].status.Done? {
      DoneNow(s, ls[0], j);
      k := 0;
    } else {
      k := DoneWasReported(s2, ls[1..], j);
      assert ls[..k + 1] == [ls[0]] + ls[1..][..k];
      assert ls[..k + 1][1..] == ls[1..][..k];
      hide Step, Enabled;
      k := k + 1;
    }
  }

  lemma DoneNow(s: State, l: Label, j: JobId)
    requires Enabled(s, l) && !(j in s.rows && s.rows[j].status.Done?)
    requires j in Step(s, l).rows && Step(s, l).rows[j].status.Done?
    ensures Reports(s, l, j, true) && j in s.rows && (s.rows[j].status.Assigned? || s.rows[j].status.Running?)
  {
    Appears(s, l, j);
    hide Step, Enabled, Reports;
    if j in s.rows {
      TurnsDone(s, l, j);
    }
  }

  /** The decision recorded for one end of an assignment, if any is left, is only to announce it. */
  ghost predicate OnlyAnnounced(s: State, e: Ending) {
    e.nth < s.ended[e.of] && (e in s.due ==> s.due[e].Announce?)
  }

  predicate IsBeat(l: Label) {
    l.Send? || l.AckRead? || l.OrphanRead? || l.Decide? || l.Pick? || l.Stop? || l.Lose?
  }

  predicate IsOwn(l: Label) {
    l.Join? || l.Receive? || l.Spawn? || l.Finish? || l.PostReturns? || l.Leave? || l.Crash? || l.Sync?
  }

  lemma BeatDues(s: State, l: Label)
    requires Enabled(s, l) && IsBeat(l)
    ensures Step(s, l).due == s.due
  {
    hide CanSend, CanAckRead, CanOrphanRead, CanDecide, CanPick, CanStop;
    hide AfterSend, AfterAckRead, AfterOrphanRead, AfterDecide, AfterPick, Reported;
  }

  lemma OwnDues(s: State, l: Label)
    requires Enabled(s, l) && IsOwn(l)
    ensures Step(s, l).due == s.due
  {
    hide InPhase, AfterSpawn, AfterFinish, AfterReturn, AfterLeave, AfterCrash, AfterReceive, CanReceive;
  }

  lemma TableDues(s: State, l: Label)
    requires Enabled(s, l) && (l.AckWrite? || l.Grab? || l.PostRead? || l.PostLost? || l.Create? || l.Cancel?
      || l.ManualRetry? || l.Delete?)
    ensures Step(s, l).due == s.due
  {
    hide Acknowledge, ActiveOn, Assign, Granted, Reported, Acknowledges;
  }

  /** Most steps leave the decisions owed alone. */
  lemma DuesStay(s: State, l: Label)
    requires Enabled(s, l) && !l.PostWrite? && !l.OrphanWrite? && !l.DueRead? && !l.Settle? && !l.Forget?
    ensures Step(s, l).due == s.due
  {
    hide Enabled, Step;
    if IsBeat(l) {
      BeatDues(s, l);
    } else if IsOwn(l) {
      OwnDues(s, l);
    } else {
      TableDues(s, l);
    }
  }

  lemma AnnouncedWrite(s: State, l: Label, e: Ending)
    requires Enabled(s, l) && OnlyAnnounced(s, e) && (l.PostWrite? || l.OrphanWrite?)
    ensures OnlyAnnounced(Step(s, l), e)
  {
    hide FinishAny, FinishReport, Dropping;
  }

  lemma AnnouncedDue(s: State, l: Label, e: Ending)
    requires Enabled(s, l) && OnlyAnnounced(s, e) && (l.DueRead? || l.Settle? || l.Forget?)
    ensures OnlyAnnounced(Step(s, l), e)
  {
    hide Requeue, MayRetry;
  }

  /** A step records decisions only for a new end, or turns one that has to be read. */
  lemma AnnouncedStep(s: State, l: Label, e: Ending)
    requires Enabled(s, l) && OnlyAnnounced(s, e)
    ensures OnlyAnnounced(Step(s, l), e)
  {
    hide Enabled, Step;
    if l.PostWrite? || l.OrphanWrite? {
      AnnouncedWrite(s, l, e);
    } else if l.DueRead? || l.Settle? || l.Forget? {
      AnnouncedDue(s, l, e);
    } else {
      DuesStay(s, l);
      FinishOnce.EndsStay(s, l);
    }
  }

  lemma {:induction false} AnnouncedRun(s: State, ls: seq<Label>, e: Ending)
    requires IsRun(s, ls, Any) && OnlyAnnounced(s, e)
    ensures OnlyAnnounced(Final(s, ls, Any), e)
    decreases |ls|
  {
    hide OnlyAnnounced, Enabled, Step;
    if ls != [] {
      AnnouncedStep(s, ls[0], e);
      AnnouncedRun(Step(s, ls[0]), ls[1..], e);
    }
  }

  /**
   A completion that reported success never leads to a retry: whatever happens later, what its handler
   still owes is an announcement, and that changes no row.
   */
  lemma SuccessIsNotRetried(s: State, i: nat, ls: seq<Label>)
    requires Enabled(s, PostWrite(i)) && s.posts[i].ok && ActiveIn(s.rows, s.posts[i].job)
    requires IsRun(Step(s, PostWrite(i)), ls, Any)
    ensures var p := Assignment(s.posts[i].job, s.rows[s.posts[i].job].epoch);
            var e := Ending(p, s.ended[p]); var s2 := Final(Step(s, PostWrite(i)), ls, Any);
            Enabled(s2, Settle(e)) ==> s2.due[e].Announce? && Step(s2, Settle(e)).rows == s2.rows
  {
    var p := Assignment(s.posts[i].job, s.rows[s.posts[i].job].epoch);
    var e := Ending(p, s.ended[p]);
    assert OnlyAnnounced(Step(s, PostWrite(i)), e);
    AnnouncedRun(Step(s, PostWrite(i)), ls, e);
    hide IsRun, Final;
  }

  // ---- what a handler owes ----

  /** Why a decision is owed after a step that was not, or not in this form, before. */
  predicate Explained(s: State, l: Label, e: Ending, d: Due) {
    match d
    case Announce => Reports(s, l, e.of.job, true)
    case Reread => Fails(s, l, e.of.job)
    case Choose(retries) =>
      || (Reports(s, l, e.of.job, false) && s.posts[l.i].stage.Read? && retries == s.posts[l.i].stage.retries)
      || (l == DueRead(e) && e.of.job in s.rows && retries == s.rows[e.of.job].retries)
  }

  predicate Adds(s: State, l: Label, e: Ending)
    requires Enabled(s, l)
  {
    e in Step(s, l).due && !(e in s.due && s.due[e] == Step(s, l).due[e])
  }

  lemma WriteAdds(s: State, l: Label, e: Ending)
    requires Enabled(s, l) && Adds(s, l, e) && (l.PostWrite? || l.OrphanWrite?)
    ensures Explained(s, l, e, Step(s, l).due[e])
  {
    hide FinishAny, FinishReport, Dropping;
  }

  lemma DueAdds(s: State, l: Label, e: Ending)
    requires Enabled(s, l) && Adds(s, l, e) && (l.DueRead? || l.Settle? || l.Forget?)
    ensures Explained(s, l, e, Step(s, l).due[e])
  {
    hide Requeue, MayRetry;
  }

  /**
   What a step adds to the decisions owed: an effective completion its outcome, with the retry count
   that was read when it failed; an orphan failure a row to be read back; and a reading the row's count.
   */
  lemma DecisionsAre(s: State, l: Label, e: Ending)
    requires Enabled(s, l) && Adds(s, l, e)
    ensures Explained(s, l, e, Step(s, l).due[e])
  {
    hide Enabled, Step, Explained;
    if l.PostWrite? || l.OrphanWrite? {
      WriteAdds(s, l, e);
    } else if l.DueRead? || l.Settle? || l.Forget? {
      DueAdds(s, l, e);
    } else {
      DuesStay(s, l);
    }
  }

  /** A live row that ends leaves a decision for that end of its assignment, unless the operator cancelled it. */
  lemma EndsAreOwed(s: State, l: Label, j: JobId)
    requires Enabled(s, l) && ActiveIn(s.rows, j) && !ActiveIn(Step(s, l).rows, j) && !l.Cancel?
    ensures var p := Assignment(j, s.rows[j].epoch);
            Ending(p, s.ended[p]) in Step(s, l).due && Step(s, l).ended[p] == s.ended[p] + 1
  {
    StepTable(s, l);
    hide ActiveOn, CanSend, CanOrphanRead, Nodes.Decide, Accepted, JobsOf;
  }

  /** A decision is taken once: it is no longer owed, and counted as told. */
  lemma SettledIsTold(s: State, e: Ending)
    requires Enabled(s, Settle(e))
    ensures e !in Step(s, Settle(e)).due && Step(s, Settle(e)).told[e.of] == s.told[e.of] + 1
  {
    hide Requeue, MayRetry;
  }

  /** The completion handler goes on exactly when the row is live, or pending, and the node its owner. */
  lemma CompletionIsRead(s: State, i: nat)
    requires Enabled(s, PostRead(i))
    ensures var p := s.posts[i]; var s2 := Step(s, PostRead(i));
            && (i in s2.posts <==>
                  && p.job in s.rows && s.rows[p.job].node == p.node
                  && (s.rows[p.job].status.Pending? || ActiveIn(s.rows, p.job)))
            && (i in s2.posts ==> s2.posts[i] == p.(stage := Read(s.rows[p.job].retries)))
  {
  }

  // ---- heartbeats ----

  /** A reported job is acknowledged, and its row written, exactly when the row is not terminal and names the node. */
  lemma ReportIsRead(s: State, n: NodeId)
    requires Enabled(s, AckRead(n))
    ensures var a, b := s.agents[n].beat, Step(s, AckRead(n)).agents[n].beat; var j := a.stage.todo[0];
            var known := j in s.rows && s.rows[j].node == n && (s.rows[j].status.Pending? || ActiveIn(s.rows, j));
            && b.stage == Acking(a.stage.todo[1..], if known then Some(j) else None)
            && b.acked == if known then a.acked + {j} else a.acked
  {
  }

  /** What takes up slots: the node's assigned jobs, and the running ones that were acknowledged. */
  function Occupying(t: Table, n: NodeId, acked: set<JobId>): set<JobId> {
    set j | j in t && t[j].node == n && (t[j].status.Assigned? || (t[j].status.Running? && j in acked))
  }

  /** Orphans do not take up slots: they are about to be failed. */
  lemma OrphansAreFree(s: State, n: NodeId, orphans: seq<Assignment>)
    requires Enabled(s, OrphanRead(n, orphans))
    ensures Step(s, OrphanRead(n, orphans)).agents[n].beat.stage
            == Orphaning(orphans, |Occupying(s.rows, n, s.agents[n].beat.acked)|)
  {
    assert ActiveOn(s.rows, n) - JobsOf(orphans) == Occupying(s.rows, n, s.agents[n].beat.acked);
  }

  /** The node's decision is taken for the reported state and sent as it is; a heartbeat with a job is busy. */
  lemma DecisionIsSent(s: State, n: NodeId, env: Nodes.Env)
    requires Enabled(s, Decide(n, env))
    ensures var a, a2 := s.agents[n], Step(s, Decide(n, env)).agents[n]; var report := a.beat.report;
            var (row, verdict) :=
              Nodes.Decide(a.row, report, report.syncing || a.beat.acked != {}, a.beat.stage.active, env);
            && a2.row == row
            && (verdict.Reboot? <==> a2.beat.stage == Answered(RebootNow))
            && (verdict.Update? <==> a2.beat.stage == Answered(UpdateNow))
            && (verdict.Ack? <==> a2.beat.stage == Answered(Nothing))
            && (verdict.Fill? ==> a2.beat.stage == Filling(verdict.slots, None, []))
  {
    hide Nodes.Decide;
  }

  /** The candidate that was assigned joins the reply, in its new assignment; one that was not ends the loop. */
  lemma AssignedIsReplied(s: State, n: NodeId)
    requires Enabled(s, Grab(n)) && s.agents[n].beat.stage.candidate.value in s.rows
    ensures var a, a2 := s.agents[n], Step(s, Grab(n)).agents[n]; var j := a.beat.stage.candidate.value;
            var given := Turns(s, Grab(n), j, Assigned);
            && Carried(a2) == Carried(a) + (if given then [Assignment(j, s.rows[j].epoch + 1)] else [])
            && (given <==> a2.beat.stage.Filling?) && (given ==> a2.beat.stage.candidate.None?)
  {
    hide ActiveOn;
  }

  /** The reply carries everything that was assigned for it. */
  lemma ReplyIsWhole(s: State, n: NodeId)
    requires Enabled(s, Stop(n))
    ensures var a2 := Step(s, Stop(n)).agents[n];
            a2.beat.stage.Answered? && Carried(a2) == Carried(s.agents[n])
  {
  }

  /**
   Every payload of a reply is about to start on the agent, unless its job is running there already or
   the agent has its eight jobs.
   */
  lemma WorkIsDelivered(s: State, n: NodeId, rebooting: bool, p: Assignment)
    requires Enabled(s, Receive(n, rebooting)) && |s.agents[n].reg| <= MAX_LOCAL_JOBS && p in Carried(s.agents[n])
    ensures var a2 := Step(s, Receive(n, rebooting)).agents[n];
            p in a2.spawn || p.job in a2.reg || |a2.reg| == MAX_LOCAL_JOBS
  {
    var a := s.agents[n];
    assert a.beat.stage == Answered(Work(Carried(a)));
    AcceptedIsSafe(a.reg, Carried(a));
    assert Step(s, Receive(n, rebooting)).agents[n] == AfterReceive(a, rebooting);
    hide Enabled, Step, Accepted, JobsOf, Carried, DistinctJobs;
  }

  // ---- agents ----

  /** The steps of the controllers do not touch what the agent has and runs. */
  predicate SameAgent(a: Agent, a2: Agent) {
    a2.tasks == a.tasks && a2.gor == a.gor && a2.reg == a.reg && a2.spawn == a.spawn
  }

  lemma BeatLeaves(s: State, l: Label, n: NodeId)
    requires Enabled(s, l) && n in s.agents && IsBeat(l)
    ensures n in Step(s, l).agents && SameAgent(s.agents[n], Step(s, l).agents[n])
  {
    hide CanSend, ListsOrphans, ActiveOn, Nodes.Decide, Acknowledges, Reported, Verdicts, JobsOf, Busy, Exists;
  }

  lemma WriteLeaves(s: State, l: Label, n: NodeId)
    requires Enabled(s, l) && n in s.agents && (l.AckWrite? || l.OrphanWrite? || l.Grab?)
    ensures n in Step(s, l).agents && SameAgent(s.agents[n], Step(s, l).agents[n])
  {
    if l.AckWrite? {
      hide CanOrphanWrite, CanGrab, Acknowledge;
    } else if l.OrphanWrite? {
      hide CanAckWrite, CanGrab, FinishAny;
    } else {
      hide CanAckWrite, CanOrphanWrite, ActiveOn, Assign, Reported;
    }
  }

  lemma RestLeaves(s: State, l: Label, n: NodeId)
    requires Enabled(s, l) && n in s.agents && !IsOwn(l)
    ensures n in Step(s, l).agents && SameAgent(s.agents[n], Step(s, l).agents[n])
  {
    hide Enabled, Step;
    if l.PostRead? || l.PostWrite? || l.PostLost? {
      FinishOnce.PostInherits(s, l);
    } else if l.DueRead? || l.Settle? || l.Forget? {
      FinishOnce.DuesApart(s, l);
    } else if l.Create? || l.Cancel? || l.ManualRetry? || l.Delete? {
      FinishOnce.TableApart(s, l);
    } else if IsBeat(l) {
      BeatLeaves(s, l, n);
    } else {
      WriteLeaves(s, l, n);
    }
  }

  lemma AgentCounts(s: State, l: Label, n: NodeId)
    requires Enabled(s, l) && n in s.agents && IsOwn(l)
    ensures n in Step(s, l).agents && Step(s, l).agents[n].tasks == Counted(s, l, n)
  {
    if l.Receive? {
      hide Accepted, JobsOf;
    } else {
      hide AfterReceive, CanReceive, Accepted, JobsOf;
    }
  }

  /** The counter after a step: one more for a script that ran, zero for a reboot that was accepted. */
  function Counted(s: State, l: Label, n: NodeId): nat
    requires n in s.agents
  {
    var a := s.agents[n];
    if l.PostReturns? && l.n == n && l.j in a.gor && a.gor[l.j].phase.Posting? && a.gor[l.j].phase.ran then a.tasks + 1
    else if l.Receive? && l.n == n && l.rebooting && a.beat.stage == Answered(RebootNow) then 0
    else a.tasks
  }

  /**
   The counter of a node goes up by one exactly when the completion of a script that ran has been
   posted, and to zero exactly when a reboot was accepted.
   */
  lemma CounterMoves(s: State, l: Label, n: NodeId)
    requires Enabled(s, l) && n in s.agents
    ensures n in Step(s, l).agents && Step(s, l).agents[n].tasks == Counted(s, l, n)
  {
    hide Enabled, Step;
    if IsOwn(l) {
      AgentCounts(s, l, n);
    } else {
      RestLeaves(s, l, n);
    }
  }

  /** The next accepted payload starts its script, in its own assignment. */
  lemma ScriptStarts(s: State, n: NodeId)
    requires Enabled(s, Spawn(n))
    ensures var a, a2 := s.agents[n], Step(s, Spawn(n)).agents[n];
            Script(a2, a.spawn[0]) && a2.spawn == a.spawn[1..] && a2.reg == a.reg
  {
  }

  /** The completion that a script leaves reports its own assignment and outcome. */
  lemma OutcomeIsPosted(s: State, n: NodeId, j: JobId, ok: bool, ran: bool)
    requires Enabled(s, Finish(n, j, ok, ran))
    ensures var s2 := Step(s, Finish(n, j, ok, ran)); var i := s.nextPost;
            && i in s2.posts && s2.posts[i] == Post(n, j, s.agents[n].gor[j].epoch, ok, Sent) && s2.nextPost != i
            && s2.agents[n].gor[j] == Goroutine(s.agents[n].gor[j].epoch, Posting(i, ran))
  {
  }

  /** An agent that dies leaves nothing behind on the machine, and its heartbeat goes unheard. */
  lemma CrashEndsScripts(s: State, n: NodeId)
    requires Enabled(s, Crash(n))
    ensures var a2 := Step(s, Crash(n)).agents[n];
            Scripts(a2) == {} && a2.reg == {} && a2.spawn == []
            && forall rebooting :: !Enabled(Step(s, Crash(n)), Receive(n, rebooting))
  {
  }

  predicate Executes(s: State, n: NodeId, p: Assignment) {
    n in s.agents && Script(s.agents[n], p)
  }

  lemma StartsLeave(s: State, l: Label, n: NodeId, p: Assignment)
    requires Enabled(s, l) && (l.Receive? || l.Spawn?)
    requires Executes(s, n, p) && forall q :: q in s.agents[n].spawn ==> q.job != p.job
    ensures Executes(Step(s, l), n, p)
  {
    hide Accepted, JobsOf, CanReceive;
  }

  /** A script that is executing ends only by finishing or with its agent. */
  lemma ScriptsGoOn(s: State, l: Label, n: NodeId, p: Assignment)
    requires Enabled(s, l) && Executes(s, n, p) && forall q :: q in s.agents[n].spawn ==> q.job != p.job
    ensures Executes(Step(s, l), n, p) || l == Crash(n) || (l.Finish? && l.n == n && l.j == p.job)
  {
    if l.Receive? || l.Spawn? {
      hide Enabled, Step;
      StartsLeave(s, l, n, p);
    } else if IsOwn(l) {
      hide AfterReceive, AfterSpawn, CanReceive;
    } else {
      hide Enabled, Step;
      RestLeaves(s, l, n);
    }
  }
}
