/**
 What a heartbeat's report says in every run whatsoever, with cancels of assigned jobs, late
 completions and unguarded failures included.
 */
module Reports {
  import opened Wrappers
  import opened Jobs
  import opened Registry
  import opened Fleet
  import Ownership
  import Nodes

  predicate OwnedBy(t: Table, n: NodeId, j: JobId) {
    ActiveIn(t, j) && t[j].node == n
  }

  predicate Disruptive(stage: Stage) {
    stage == Answered(RebootNow) || stage == Answered(UpdateNow)
  }

  /** Every live goroutine's job is accounted for, or its row is not the node's. */
  ghost predicate Accounted(t: Table, n: NodeId, a: Agent, todo: seq<JobId>) {
    forall j :: j in a.gor ==> j in todo || j in a.beat.acked || !OwnedBy(t, n, j)
  }

  /**
   From the report to the decision: still to be looked at, or acknowledged; a disruptive reply
   acknowledged nothing.
   */
  ghost predicate Covered(t: Table, n: NodeId, a: Agent) {
    && (a.beat.stage.Acking? ==> Accounted(t, n, a, a.beat.stage.todo))
    && (a.beat.stage.Orphaning? || Disruptive(a.beat.stage) ==> Accounted(t, n, a, []))
    && (Disruptive(a.beat.stage) ==> a.beat.acked == {})
  }

  ghost predicate Inv(s: State) {
    forall n :: n in s.agents ==> Ownership.Tracked(s.agents[n]) && Covered(s.rows, n, s.agents[n])
  }

  // ---- the job table ----

  /** No row becomes active on a node. */
  ghost predicate Shrinks(t: Table, t2: Table) {
    forall j, n :: OwnedBy(t2, n, j) ==> OwnedBy(t, n, j)
  }

  lemma TableShrinks(s: State, l: Label)
    requires Enabled(s, l) && (l.Create? || l.Cancel? || l.ManualRetry? || l.Delete?)
    ensures Shrinks(s.rows, TableAfter(s, l))
  {
  }

  lemma HandlerShrinks(s: State, l: Label)
    requires Enabled(s, l) && (l.AckWrite? || l.OrphanWrite? || l.PostWrite? || l.Settle?)
    ensures Shrinks(s.rows, TableAfter(s, l))
  {
    hide ActiveOn;
  }

  lemma RowsShrink(s: State, l: Label)
    requires Enabled(s, l) && !l.Grab?
    ensures Shrinks(s.rows, Step(s, l).rows)
  {
    StepTable(s, l);
    hide Step, Enabled, Shrinks;
    if l.Create? || l.Cancel? || l.ManualRetry? || l.Delete? {
      hide TableAfter;
      TableShrinks(s, l);
    } else if l.AckWrite? || l.OrphanWrite? || l.PostWrite? || l.Settle? {
      hide TableAfter;
      HandlerShrinks(s, l);
    } else {
      SameShrinks(s.rows);
    }
  }

  lemma SameShrinks(t: Table)
    ensures Shrinks(t, t)
  {
  }

  // ---- the agents ----

  lemma AgentStep(s: State, n: NodeId, a: Agent)
    requires Inv(s) && Ownership.Tracked(a) && Covered(s.rows, n, a)
    ensures Inv(With(s, n, a))
  {
    hide Ownership.Tracked, Covered;
  }

  lemma TableStep(s: State, s2: State)
    requires Inv(s) && s2.agents == s.agents && Shrinks(s.rows, s2.rows)
    ensures Inv(s2)
  {
    hide Ownership.Tracked;
    forall m | m in s2.agents ensures Covered(s2.rows, m, s2.agents[m]) {
      assert Covered(s.rows, m, s.agents[m]);
    }
  }

  lemma EachOk(s: State, n: NodeId)
    requires Inv(s) && n in s.agents
    ensures Ownership.Tracked(s.agents[n]) && Covered(s.rows, n, s.agents[n])
  {
    hide Ownership.Tracked, Covered;
  }

  /** Stages that `Covered` says nothing about. */
  predicate Plain(stage: Stage) {
    !stage.Acking? && !stage.Orphaning? && !Disruptive(stage)
  }

  ghost predicate Later(a: Agent, a2: Agent) {
    && !a.beat.stage.Quiet? && !a2.beat.stage.Quiet? && Plain(a2.beat.stage)
    && a2.gor == a.gor && a2.reg == a.reg && a2.spawn == a.spawn
  }

  /** A later stage of the same heartbeat, past the acknowledgements. */
  lemma LateStep(s: State, n: NodeId, a: Agent)
    requires Inv(s) && n in s.agents && Later(s.agents[n], a)
    ensures Inv(With(s, n, a))
  {
    EachOk(s, n);
    hide Inv;
    AgentStep(s, n, a);
  }

  lemma SendKeeps(t: Table, n: NodeId, a: Agent, report: Nodes.Report, todo: seq<JobId>)
    requires Ownership.Tracked(a) && CanSend(a, report, todo)
    ensures Ownership.Tracked(AfterSend(a, report, todo)) && Covered(t, n, AfterSend(a, report, todo))
  {
    hide OwnedBy;
    assert forall j :: j in a.gor ==> j in a.gor.Keys + JobsOf(a.spawn);
  }

  lemma AckReadKeeps(t: Table, n: NodeId, a: Agent)
    requires Ownership.Tracked(a) && Covered(t, n, a) && CanAckRead(a)
    ensures Ownership.Tracked(AfterAckRead(a, t, n)) && Covered(t, n, AfterAckRead(a, t, n))
  {
    var todo := a.beat.stage.todo;
    assert todo == [todo[0]] + todo[1..];
    assert OwnedBy(t, n, todo[0]) ==> Acknowledges(t, n, todo[0]);
    hide OwnedBy, Acknowledges;
  }

  lemma ReceiveKeeps(a: Agent, rebooting: bool)
    requires Ownership.Tracked(a) && CanReceive(a)
    ensures Ownership.Tracked(AfterReceive(a, rebooting)) && AfterReceive(a, rebooting).beat.stage.Quiet?
  {
    if a.beat.stage.reply.Work? {
      Ownership.AcceptOk(a);
      hide Ownership.Tracked, Accepted;
    }
  }

  lemma SpawnKeeps(a: Agent)
    requires Ownership.Tracked(a) && a.spawn != []
    ensures Ownership.Tracked(AfterSpawn(a)) && AfterSpawn(a).beat.stage.Quiet?
  {
    var a2 := AfterSpawn(a);
    assert a.spawn == [a.spawn[0]] + a.spawn[1..];
    assert a2.reg == a2.gor.Keys + JobsOf(a2.spawn);
  }

  /** A goroutine changes its phase. */
  lemma PhaseKeeps(t: Table, n: NodeId, a: Agent, a2: Agent)
    requires Ownership.Tracked(a) && Covered(t, n, a)
    requires a2.gor.Keys == a.gor.Keys && a2.reg == a.reg && a2.spawn == a.spawn && a2.beat == a.beat
    ensures Ownership.Tracked(a2) && Covered(t, n, a2)
  {
    hide OwnedBy;
    assert forall j :: j in a2.gor <==> j in a2.gor.Keys;
  }

  lemma LeaveKeeps(t: Table, n: NodeId, a: Agent, j: JobId)
    requires Ownership.Tracked(a) && Covered(t, n, a) && j in a.gor
    ensures Ownership.Tracked(AfterLeave(a, j)) && Covered(t, n, AfterLeave(a, j))
  {
    Ownership.LeaveTracked(a, j);
    hide OwnedBy, Ownership.Tracked;
  }

  lemma CrashKeeps(t: Table, n: NodeId, a: Agent)
    requires Ownership.Tracked(a) && Covered(t, n, a)
    ensures Ownership.Tracked(AfterCrash(a)) && Covered(t, n, AfterCrash(a))
  {
  }

  lemma IdleKeeps(a: Agent)
    requires Ownership.Tracked(a)
    ensures Ownership.Tracked(a.(beat := Idle()))
  {
  }

  // ---- the steps ----

  /** A row is given to a node whose heartbeat is past its acknowledgements. */
  lemma AssignStep(s: State, n: NodeId, j: JobId)
    requires Inv(s) && n in s.agents && Plain(s.agents[n].beat.stage) && j in s.rows
    ensures Inv(s.(rows := Assign(s.rows, j, n)))
  {
    hide Ownership.Tracked;
    var t := Assign(s.rows, j, n);
    forall m | m in s.agents ensures Covered(t, m, s.agents[m]) {
      assert Covered(s.rows, m, s.agents[m]);
      assert m != n ==> forall i :: OwnedBy(t, m, i) ==> OwnedBy(s.rows, m, i);
    }
  }

  lemma GrantedIsLater(a: Agent, p: Assignment)
    requires CanGrab(a)
    ensures Later(a, Granted(a, p)) && Plain(a.beat.stage)
  {
  }

  lemma GiveStep(s: State, n: NodeId, j: JobId, a: Agent)
    requires Inv(s) && n in s.agents && j in s.rows && Later(s.agents[n], a) && Plain(s.agents[n].beat.stage)
    ensures Inv(With(s.(rows := Assign(s.rows, j, n)), n, a))
  {
    hide Inv, Assign, Later, With, Plain;
    AssignStep(s, n, j);
    LateStep(s.(rows := Assign(s.rows, j, n)), n, a);
  }

  lemma StopStep(s: State, n: NodeId)
    requires Inv(s) && n in s.agents && s.agents[n].beat.stage.Filling?
    ensures Inv(With(s, n, At(s.agents[n], Reported(s.agents[n].beat.stage.got))))
  {
    hide Inv;
    LateStep(s, n, At(s.agents[n], Reported(s.agents[n].beat.stage.got)));
  }

  lemma GrabStep(s: State, n: NodeId)
    requires Inv(s) && n in s.agents && CanGrab(s.agents[n])
    ensures Inv(AfterGrab(s, n))
  {
    hide Inv;
    var a := s.agents[n];
    if Assignable(s.rows, a.beat.stage.candidate.value, n, a.row.enabled, a.row.cap) {
      var j := a.beat.stage.candidate.value;
      GrantedIsLater(a, Assignment(j, s.rows[j].epoch + 1));
      GiveStep(s, n, j, Granted(a, Assignment(j, s.rows[j].epoch + 1)));
    } else {
      StopStep(s, n);
    }
  }

  lemma AckWriteStep(s: State, n: NodeId)
    requires Inv(s) && n in s.agents && CanAckWrite(s.agents[n])
    ensures Inv(AfterAckWrite(s, n))
  {
    var a := s.agents[n];
    var a2 := At(a, a.beat.stage.(writing := None));
    EachOk(s, n);
    AckKeeps(s.rows, n, a);
    assert Shrinks(s.rows, AfterAckWrite(s, n).rows);
    hide Inv, Shrinks, Ownership.Tracked, Covered, Acknowledge;
    AgentStep(s, n, a2);
    TableStep(With(s, n, a2), AfterAckWrite(s, n));
  }

  lemma AckKeeps(t: Table, n: NodeId, a: Agent)
    requires Ownership.Tracked(a) && Covered(t, n, a) && CanAckWrite(a)
    ensures Ownership.Tracked(At(a, a.beat.stage.(writing := None)))
      && Covered(t, n, At(a, a.beat.stage.(writing := None)))
  {
    hide OwnedBy;
  }

  lemma DropKeeps(t: Table, n: NodeId, a: Agent)
    requires Ownership.Tracked(a) && Covered(t, n, a) && CanOrphanWrite(a)
    ensures Ownership.Tracked(Dropping(a)) && Covered(t, n, Dropping(a))
  {
    hide OwnedBy;
  }

  lemma OrphanWriteStep(s: State, n: NodeId)
    requires Inv(s) && n in s.agents && CanOrphanWrite(s.agents[n])
    ensures Inv(AfterOrphanWrite(s, n))
  {
    var a2 := Dropping(s.agents[n]);
    assert Shrinks(s.rows, AfterOrphanWrite(s, n).rows);
    EachOk(s, n);
    DropKeeps(s.rows, n, s.agents[n]);
    hide Inv, Shrinks, FinishAny, Ownership.Tracked, Covered;
    AgentStep(s, n, a2);
    TableStep(With(s, n, a2), AfterOrphanWrite(s, n));
  }

  lemma DecideKeeps(t: Table, n: NodeId, a: Agent, env: Nodes.Env)
    requires Ownership.Tracked(a) && Covered(t, n, a) && CanDecide(a)
    ensures Ownership.Tracked(AfterDecide(a, env)) && Covered(t, n, AfterDecide(a, env))
  {
    Ownership.DisruptsOnlyIdle(a.row, a.beat.report, Busy(a), a.beat.stage.active, env);
    hide OwnedBy, Nodes.Decide;
  }

  lemma DecideStep(s: State, n: NodeId, env: Nodes.Env)
    requires Inv(s) && n in s.agents && CanDecide(s.agents[n])
    ensures Inv(With(s, n, AfterDecide(s.agents[n], env)))
  {
    EachOk(s, n);
    DecideKeeps(s.rows, n, s.agents[n], env);
    hide Inv, AfterDecide, Ownership.Tracked, Covered;
    AgentStep(s, n, AfterDecide(s.agents[n], env));
  }

  lemma OrphanReadKeeps(t: Table, n: NodeId, a: Agent, orphans: seq<Assignment>)
    requires Ownership.Tracked(a) && Covered(t, n, a) && CanOrphanRead(a, t, n, orphans)
    ensures Ownership.Tracked(AfterOrphanRead(a, t, n, orphans)) && Covered(t, n, AfterOrphanRead(a, t, n, orphans))
  {
    hide OwnedBy, ListsOrphans, ActiveOn, JobsOf;
  }

  lemma OrphanReadStep(s: State, n: NodeId, orphans: seq<Assignment>)
    requires Inv(s) && n in s.agents && CanOrphanRead(s.agents[n], s.rows, n, orphans)
    ensures Inv(With(s, n, AfterOrphanRead(s.agents[n], s.rows, n, orphans)))
  {
    EachOk(s, n);
    OrphanReadKeeps(s.rows, n, s.agents[n], orphans);
    hide Inv, AfterOrphanRead, CanOrphanRead, Ownership.Tracked, Covered;
    AgentStep(s, n, AfterOrphanRead(s.agents[n], s.rows, n, orphans));
  }

  lemma SendStep(s: State, n: NodeId, report: Nodes.Report, todo: seq<JobId>)
    requires Inv(s) && n in s.agents && CanSend(s.agents[n], report, todo)
    ensures Inv(With(s, n, AfterSend(s.agents[n], report, todo)))
  {
    EachOk(s, n);
    hide Inv, Ownership.Tracked, Covered, CanSend, AfterSend;
    SendKeeps(s.rows, n, s.agents[n], report, todo);
    AgentStep(s, n, AfterSend(s.agents[n], report, todo));
  }

  lemma AckReadStep(s: State, n: NodeId)
    requires Inv(s) && n in s.agents && CanAckRead(s.agents[n])
    ensures Inv(With(s, n, AfterAckRead(s.agents[n], s.rows, n)))
  {
    EachOk(s, n);
    hide Inv, Ownership.Tracked, Covered, AfterAckRead;
    AckReadKeeps(s.rows, n, s.agents[n]);
    AgentStep(s, n, AfterAckRead(s.agents[n], s.rows, n));
  }

  /** An agent that is not in a heartbeat's acknowledgements. */
  lemma QuietStep(s: State, n: NodeId, a: Agent)
    requires Inv(s) && Ownership.Tracked(a) && Plain(a.beat.stage)
    ensures Inv(With(s, n, a))
  {
    hide Inv, Ownership.Tracked;
    AgentStep(s, n, a);
  }

  lemma LoseStep(s: State, n: NodeId)
    requires Inv(s) && n in s.agents
    ensures Inv(With(s, n, s.agents[n].(beat := Idle())))
  {
    EachOk(s, n);
    hide Inv, Ownership.Tracked, Covered;
    IdleKeeps(s.agents[n]);
    QuietStep(s, n, s.agents[n].(beat := Idle()));
  }

  lemma ReceiveStep(s: State, n: NodeId, rebooting: bool)
    requires Inv(s) && n in s.agents && CanReceive(s.agents[n])
    ensures Inv(With(s, n, AfterReceive(s.agents[n], rebooting)))
  {
    EachOk(s, n);
    hide Inv, Ownership.Tracked, Covered, AfterReceive;
    ReceiveKeeps(s.agents[n], rebooting);
    QuietStep(s, n, AfterReceive(s.agents[n], rebooting));
  }

  lemma SpawnStep(s: State, n: NodeId)
    requires Inv(s) && n in s.agents && s.agents[n].spawn != []
    ensures Inv(With(s, n, AfterSpawn(s.agents[n])))
  {
    EachOk(s, n);
    hide Inv, Ownership.Tracked, Covered, AfterSpawn;
    SpawnKeeps(s.agents[n]);
    QuietStep(s, n, AfterSpawn(s.agents[n]));
  }

  lemma EndStep(s: State, l: Label)
    requires Inv(s) && Enabled(s, l) && (l.Lose? || l.Receive? || l.Spawn? || l.Join?)
    ensures Inv(Step(s, l))
  {
    hide Inv, AfterReceive, AfterSpawn, CanReceive;
    match l
    case Lose(n) => LoseStep(s, n);
    case Receive(n, rebooting) => ReceiveStep(s, n, rebooting);
    case Spawn(n) => SpawnStep(s, n);
    case Join(n, row) => FreshKeeps(row); QuietStep(s, n, Fresh(row));
  }

  lemma FreshKeeps(row: Nodes.Row)
    ensures Ownership.Tracked(Fresh(row)) && Plain(Fresh(row).beat.stage)
  {
  }

  lemma CrashStep(s: State, n: NodeId)
    requires Inv(s) && n in s.agents
    ensures Inv(With(s, n, AfterCrash(s.agents[n])))
  {
    EachOk(s, n);
    hide Inv, Ownership.Tracked, Covered, AfterCrash;
    CrashKeeps(s.rows, n, s.agents[n]);
    AgentStep(s, n, AfterCrash(s.agents[n]));
  }

  lemma LeaveStep(s: State, n: NodeId, j: JobId)
    requires Inv(s) && n in s.agents && j in s.agents[n].gor
    ensures Inv(With(s, n, AfterLeave(s.agents[n], j)))
  {
    EachOk(s, n);
    hide Inv, Ownership.Tracked, Covered, AfterLeave;
    LeaveKeeps(s.rows, n, s.agents[n], j);
    AgentStep(s, n, AfterLeave(s.agents[n], j));
  }

  lemma PhaseStep(s: State, n: NodeId, a: Agent)
    requires Inv(s) && n in s.agents
    requires a.gor.Keys == s.agents[n].gor.Keys && a.reg == s.agents[n].reg && a.spawn == s.agents[n].spawn
      && a.beat == s.agents[n].beat
    ensures Inv(With(s, n, a))
  {
    EachOk(s, n);
    hide Inv, Ownership.Tracked, Covered;
    PhaseKeeps(s.rows, n, s.agents[n], a);
    AgentStep(s, n, a);
  }

  lemma FinishStep(s: State, n: NodeId, j: JobId, ran: bool, p: Post)
    requires Inv(s) && n in s.agents && j in s.agents[n].gor
    ensures Inv(Posted(With(s, n, AfterFinish(s.agents[n], j, s.nextPost, ran)), p))
  {
    var a2 := AfterFinish(s.agents[n], j, s.nextPost, ran);
    assert a2.gor.Keys == s.agents[n].gor.Keys;
    SameShrinks(s.rows);
    hide Inv, Shrinks;
    PhaseStep(s, n, a2);
    TableStep(With(s, n, a2), Posted(With(s, n, a2), p));
  }

  lemma ReturnStep(s: State, n: NodeId, j: JobId)
    requires Inv(s) && n in s.agents && InPhase(s.agents[n], j, false, true)
    ensures Inv(With(s, n, AfterReturn(s.agents[n], j)))
  {
    assert AfterReturn(s.agents[n], j).gor.Keys == s.agents[n].gor.Keys;
    hide Inv;
    PhaseStep(s, n, AfterReturn(s.agents[n], j));
  }

  lemma GoroutineStep(s: State, l: Label)
    requires Inv(s) && Enabled(s, l) && (l.Finish? || l.PostReturns? || l.Leave? || l.Sync? || l.Crash?)
    ensures Inv(Step(s, l))
  {
    hide Inv, AfterFinish, AfterReturn, AfterLeave, AfterCrash;
    match l
    case Finish(n, j, ok, ran) => FinishStep(s, n, j, ran, Post(n, j, s.agents[n].gor[j].epoch, ok, Sent));
    case PostReturns(n, j) => ReturnStep(s, n, j);
    case Leave(n, j) => LeaveStep(s, n, j);
    case Sync(n, on) => PhaseStep(s, n, s.agents[n].(syncing := on));
    case Crash(n) => CrashStep(s, n);
  }

  lemma BeatStep(s: State, l: Label)
    requires Inv(s) && Enabled(s, l) && (l.Send? || l.AckRead? || l.OrphanRead? || l.Decide? || l.Pick? || l.Stop?)
    ensures Inv(Step(s, l))
  {
    hide Inv, AfterSend, AfterAckRead, AfterOrphanRead, AfterDecide, CanSend, CanOrphanRead;
    match l
    case Send(n, report, todo) => SendStep(s, n, report, todo);
    case AckRead(n) => AckReadStep(s, n);
    case OrphanRead(n, orphans) => OrphanReadStep(s, n, orphans);
    case Decide(n, env) => DecideStep(s, n, env);
    case Pick(n, j) => LateStep(s, n, AfterPick(s.agents[n], j));
    case Stop(n) => StopStep(s, n);
  }

  lemma WriteStep(s: State, l: Label)
    requires Inv(s) && Enabled(s, l) && (l.AckWrite? || l.OrphanWrite? || l.Grab?)
    ensures Inv(Step(s, l))
  {
    hide Inv, AfterAckWrite, AfterOrphanWrite, AfterGrab, CanAckWrite, CanOrphanWrite, CanGrab;
    match l
    case AckWrite(n) => AckWriteStep(s, n);
    case OrphanWrite(n) => OrphanWriteStep(s, n);
    case Grab(n) => GrabStep(s, n);
  }

  lemma OperatorsKeep(s: State, l: Label)
    requires Enabled(s, l) && (l.Create? || l.Cancel? || l.ManualRetry? || l.Delete?)
    ensures Step(s, l).agents == s.agents
  {
    hide Jobs.Create, Jobs.Cancel, Jobs.ManualRetry, Jobs.Delete;
  }

  lemma PostsKeep(s: State, l: Label)
    requires Enabled(s, l) && (l.PostRead? || l.PostWrite? || l.PostLost?)
    ensures Step(s, l).agents == s.agents
  {
    hide FinishReport;
  }

  lemma DuesKeep(s: State, l: Label)
    requires Enabled(s, l) && (l.DueRead? || l.Settle? || l.Forget?)
    ensures Step(s, l).agents == s.agents
  {
    hide Requeue, MayRetry;
  }

  lemma InvStep(s: State, l: Label)
    requires Inv(s) && Enabled(s, l)
    ensures Inv(Step(s, l))
  {
    hide Inv, Step, Enabled, Shrinks;
    if l.Send? || l.AckRead? || l.OrphanRead? || l.Decide? || l.Pick? || l.Stop? {
      BeatStep(s, l);
    } else if l.AckWrite? || l.OrphanWrite? || l.Grab? {
      WriteStep(s, l);
    } else if l.Lose? || l.Receive? || l.Spawn? || l.Join? {
      EndStep(s, l);
    } else if l.Finish? || l.PostReturns? || l.Leave? || l.Sync? || l.Crash? {
      GoroutineStep(s, l);
    } else {
      if l.Create? || l.Cancel? || l.ManualRetry? || l.Delete? {
        OperatorsKeep(s, l);
      } else if l.DueRead? || l.Settle? || l.Forget? {
        DuesKeep(s, l);
      } else {
        PostsKeep(s, l);
      }
      RowsShrink(s, l);
      TableStep(s, Step(s, l));
    }
  }

  lemma {:induction false} InvRun(s: State, ls: seq<Label>)
    requires Inv(s) && IsRun(s, ls, Any)
    ensures Inv(Final(s, ls, Any))
    decreases |ls|
  {
    hide Inv, Enabled, Step;
    if ls != [] {
      InvStep(s, ls[0]);
      InvRun(Step(s, ls[0]), ls[1..]);
    }
  }

  // ---- what every run promises ----

  /** The registry of every agent is exactly its goroutines, live or about to start, at most eight. */
  lemma RegistryAlwaysExact(ls: seq<Label>, n: NodeId)
    requires IsRun(INITIAL, ls, Any) && n in Final(INITIAL, ls, Any).agents
    ensures var a := Final(INITIAL, ls, Any).agents[n];
            && a.reg == a.gor.Keys + JobsOf(a.spawn) && |a.reg| <= MAX_LOCAL_JOBS
            && forall p :: p in a.spawn ==> p.job !in a.gor
  {
    InvRun(INITIAL, ls);
    hide Step, Enabled;
    assert Ownership.Tracked(Final(INITIAL, ls, Any).agents[n]);
  }

  lemma ListedHasNone(t: Table, n: NodeId, a: Agent, orphans: seq<Assignment>, p: Assignment)
    requires Covered(t, n, a) && CanOrphanRead(a, t, n, orphans) && p in orphans
    ensures p.job !in a.gor
  {
    JobsOfMember(orphans, p.job);
    assert OwnedBy(t, n, p.job);
    hide JobsOf, DistinctJobs;
  }

  /**
   Whatever happened before: a running row of node n that n's report did not acknowledge has no
   live goroutine on n, executing, posting or leaving, at the moment the orphans are listed.
   */
  lemma OrphansHaveNoGoroutine(ls: seq<Label>, n: NodeId, orphans: seq<Assignment>, p: Assignment)
    requires IsRun(INITIAL, ls, Any) && Enabled(Final(INITIAL, ls, Any), OrphanRead(n, orphans)) && p in orphans
    ensures p.job !in Final(INITIAL, ls, Any).agents[n].gor
  {
    InvRun(INITIAL, ls);
    hide IsRun, Final, CanOrphanRead, INITIAL;
    EachOk(Final(INITIAL, ls, Any), n);
    ListedHasNone(Final(INITIAL, ls, Any).rows, n, Final(INITIAL, ls, Any).agents[n], orphans, p);
  }

  /**
   Whatever happened before: when a reboot or an update instruction is delivered, a script can
   still execute on the node only if its row is no longer an active row of that node.
   */
  lemma DisruptionSparesOwnedRows(ls: seq<Label>, n: NodeId, j: JobId)
    requires IsRun(INITIAL, ls, Any) && n in Final(INITIAL, ls, Any).agents
    requires var a := Final(INITIAL, ls, Any).agents[n]; Disruptive(a.beat.stage) && j in a.gor
    ensures !OwnedBy(Final(INITIAL, ls, Any).rows, n, j)
  {
    InvRun(INITIAL, ls);
    hide IsRun, Final, INITIAL, OwnedBy;
    EachOk(Final(INITIAL, ls, Any), n);
  }
}
