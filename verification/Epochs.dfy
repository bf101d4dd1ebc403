/**
 Assignments travel: in replies, to agents, into goroutines and back in completions. In every run
 they are at most as recent as the row they came from.
 */
module Epochs {
  import opened Wrappers
  import opened Jobs
  import opened Registry
  import opened Fleet
  import FinishOnce
  import Nodes

  predicate Old(t: Table, p: Assignment) {
    p.job in t && p.epoch <= t[p.job].epoch
  }

  ghost predicate AgentOld(t: Table, a: Agent) {
    && (forall p :: p in a.spawn ==> Old(t, p))
    && (forall p :: p in Carried(a) ==> Old(t, p))
    && (forall j :: j in a.gor ==> Old(t, Assignment(j, a.gor[j].epoch)))
  }

  ghost predicate PostsOld(t: Table, posts: map<nat, Post>) {
    forall i :: i in posts ==> Old(t, Assignment(posts[i].job, posts[i].epoch))
  }

  ghost predicate Inv(s: State) {
    (forall n :: n in s.agents ==> AgentOld(s.rows, s.agents[n])) && PostsOld(s.rows, s.posts)
  }

  // ---- the shapes of a step ----

  /** The table moves on, and completions stay or go. */
  lemma TableStep(s: State, s2: State)
    requires Inv(s) && s2.agents == s.agents && FinishOnce.Grows(s.rows, s2.rows)
    requires forall i :: i in s2.posts ==>
      i in s.posts && s2.posts[i].job == s.posts[i].job && s2.posts[i].epoch == s.posts[i].epoch
    ensures Inv(s2)
  {
    forall n | n in s2.agents ensures AgentOld(s2.rows, s2.agents[n]) {
      assert AgentOld(s.rows, s.agents[n]);
    }
  }

  lemma AgentStep(s: State, n: NodeId, a: Agent)
    requires Inv(s) && AgentOld(s.rows, a)
    ensures Inv(With(s, n, a))
  {
    hide AgentOld, PostsOld;
  }

  lemma EachOld(s: State, n: NodeId)
    requires Inv(s) && n in s.agents
    ensures AgentOld(s.rows, s.agents[n])
  {
    hide AgentOld, PostsOld;
  }

  /** An agent that holds nothing new. */
  lemma LessStep(s: State, n: NodeId, a: Agent)
    requires Inv(s) && n in s.agents && a.spawn == s.agents[n].spawn && a.gor == s.agents[n].gor
    requires forall p :: p in Carried(a) ==> p in Carried(s.agents[n])
    ensures Inv(With(s, n, a))
  {
    EachOld(s, n);
    hide Inv, Old, Carried;
    AgentStep(s, n, a);
  }

  // ---- agents ----

  lemma ReceiveOld(t: Table, a: Agent, rebooting: bool)
    requires AgentOld(t, a) && CanReceive(a)
    ensures AgentOld(t, AfterReceive(a, rebooting))
  {
    hide Old;
    if a.beat.stage.reply.Work? {
      AcceptedOffered(a.reg, a.beat.stage.reply.payloads);
      hide Accepted;
    }
  }

  lemma SpawnOld(t: Table, a: Agent)
    requires AgentOld(t, a) && a.spawn != []
    ensures AgentOld(t, AfterSpawn(a))
  {
    hide Old;
    assert a.spawn[0] in a.spawn && Assignment(a.spawn[0].job, a.spawn[0].epoch) == a.spawn[0];
  }

  /** Goroutines change phase or leave. */
  lemma PhaseOld(t: Table, a: Agent, a2: Agent)
    requires AgentOld(t, a) && a2.spawn == a.spawn && Carried(a2) == Carried(a)
    requires forall j :: j in a2.gor ==> j in a.gor && a2.gor[j].epoch == a.gor[j].epoch
    ensures AgentOld(t, a2)
  {
    hide Old, Carried;
  }

  lemma PhaseStep(s: State, n: NodeId, a: Agent)
    requires Inv(s) && n in s.agents && a.spawn == s.agents[n].spawn && a.beat.stage == s.agents[n].beat.stage
    requires forall j :: j in a.gor ==> j in s.agents[n].gor && a.gor[j].epoch == s.agents[n].gor[j].epoch
    ensures Inv(With(s, n, a))
  {
    EachOld(s, n);
    hide Inv, AgentOld;
    PhaseOld(s.rows, s.agents[n], a);
    AgentStep(s, n, a);
  }

  lemma ReceiveStep(s: State, n: NodeId, rebooting: bool)
    requires Inv(s) && n in s.agents && CanReceive(s.agents[n])
    ensures Inv(With(s, n, AfterReceive(s.agents[n], rebooting)))
  {
    EachOld(s, n);
    hide Inv, AgentOld, AfterReceive;
    ReceiveOld(s.rows, s.agents[n], rebooting);
    AgentStep(s, n, AfterReceive(s.agents[n], rebooting));
  }

  lemma SpawnStep(s: State, n: NodeId)
    requires Inv(s) && n in s.agents && s.agents[n].spawn != []
    ensures Inv(With(s, n, AfterSpawn(s.agents[n])))
  {
    EachOld(s, n);
    hide Inv, AgentOld, AfterSpawn;
    SpawnOld(s.rows, s.agents[n]);
    AgentStep(s, n, AfterSpawn(s.agents[n]));
  }

  lemma CrashStep(s: State, n: NodeId)
    requires Inv(s) && n in s.agents
    ensures Inv(With(s, n, AfterCrash(s.agents[n])))
  {
    EachOld(s, n);
    var a := AfterCrash(s.agents[n]);
    assert a.spawn == [] && a.gor == map[] && Carried(a) == Carried(s.agents[n]);
    assert AgentOld(s.rows, a) by {
      hide Old, Carried, AfterCrash;
    }
    hide Inv, AgentOld, AfterCrash;
    AgentStep(s, n, a);
  }

  lemma JoinStep(s: State, n: NodeId, row: Nodes.Row)
    requires Inv(s)
    ensures Inv(With(s, n, Fresh(row)))
  {
    assert AgentOld(s.rows, Fresh(row));
    hide Inv, AgentOld, Fresh;
    AgentStep(s, n, Fresh(row));
  }

  /** The completion posted is of the goroutine's own assignment. */
  lemma FinishStep(s: State, n: NodeId, j: JobId, ok: bool, ran: bool)
    requires Inv(s) && n in s.agents && j in s.agents[n].gor
    ensures Inv(Posted(With(s, n, AfterFinish(s.agents[n], j, s.nextPost, ran)),
      Post(n, j, s.agents[n].gor[j].epoch, ok, Sent)))
  {
    var a2 := AfterFinish(s.agents[n], j, s.nextPost, ran);
    EachOld(s, n);
    assert Old(s.rows, Assignment(j, s.agents[n].gor[j].epoch));
    PhaseKeepsInv(s, n, a2);
    hide Old, AgentOld, AfterFinish;
  }

  lemma PhaseKeepsInv(s: State, n: NodeId, a: Agent)
    requires Inv(s) && n in s.agents && a.spawn == s.agents[n].spawn && a.beat == s.agents[n].beat
    requires forall j :: j in a.gor ==> j in s.agents[n].gor && a.gor[j].epoch == s.agents[n].gor[j].epoch
    ensures Inv(With(s, n, a))
  {
    hide Inv;
    PhaseStep(s, n, a);
  }

  // ---- the writes of a heartbeat ----

  lemma AckWriteStep(s: State, n: NodeId)
    requires Inv(s) && n in s.agents && CanAckWrite(s.agents[n])
    ensures Inv(AfterAckWrite(s, n))
  {
    var a := At(s.agents[n], s.agents[n].beat.stage.(writing := None));
    assert FinishOnce.Grows(s.rows, AfterAckWrite(s, n).rows);
    hide Inv, FinishOnce.Grows, Acknowledge;
    LessStep(s, n, a);
    TableStep(With(s, n, a), AfterAckWrite(s, n));
  }

  lemma OrphanWriteStep(s: State, n: NodeId)
    requires Inv(s) && n in s.agents && CanOrphanWrite(s.agents[n])
    ensures Inv(AfterOrphanWrite(s, n))
  {
    var a := Dropping(s.agents[n]);
    assert FinishOnce.Grows(s.rows, AfterOrphanWrite(s, n).rows);
    hide Inv, FinishOnce.Grows, FinishAny;
    LessStep(s, n, a);
    TableStep(With(s, n, a), AfterOrphanWrite(s, n));
  }

  lemma GrantedOld(t: Table, a: Agent, p: Assignment)
    requires AgentOld(t, a) && CanGrab(a) && Old(t, p)
    ensures AgentOld(t, Granted(a, p))
  {
    hide Old;
  }

  /** The assigned row moves on to exactly the epoch that is handed out. */
  lemma GiveStep(s: State, n: NodeId, j: JobId)
    requires Inv(s) && n in s.agents && CanGrab(s.agents[n]) && j in s.rows
    ensures Inv(With(s.(rows := Assign(s.rows, j, n)), n, Granted(s.agents[n], Assignment(j, s.rows[j].epoch + 1))))
  {
    var p := Assignment(j, s.rows[j].epoch + 1);
    var mid := s.(rows := Assign(s.rows, j, n));
    assert FinishOnce.Grows(s.rows, mid.rows) && Old(mid.rows, p);
    hide Inv, FinishOnce.Grows, Assign, Granted, CanGrab, Old;
    TableStep(s, mid);
    EachOld(mid, n);
    hide AgentOld;
    GrantedOld(mid.rows, s.agents[n], p);
    AgentStep(mid, n, Granted(s.agents[n], p));
  }

  lemma StopStep(s: State, n: NodeId)
    requires Inv(s) && n in s.agents && s.agents[n].beat.stage.Filling?
    ensures Inv(With(s, n, At(s.agents[n], Reported(s.agents[n].beat.stage.got))))
  {
    hide Inv;
    LessStep(s, n, At(s.agents[n], Reported(s.agents[n].beat.stage.got)));
  }

  lemma GrabStep(s: State, n: NodeId)
    requires Inv(s) && n in s.agents && CanGrab(s.agents[n])
    ensures Inv(AfterGrab(s, n))
  {
    hide Inv;
    var a := s.agents[n];
    if Assignable(s.rows, a.beat.stage.candidate.value, n, a.row.enabled, a.row.cap) {
      GiveStep(s, n, a.beat.stage.candidate.value);
    } else {
      StopStep(s, n);
    }
  }

  lemma DecideStep(s: State, n: NodeId, env: Nodes.Env)
    requires Inv(s) && n in s.agents && CanDecide(s.agents[n])
    ensures Inv(With(s, n, AfterDecide(s.agents[n], env)))
  {
    hide Inv, Nodes.Decide;
    LessStep(s, n, AfterDecide(s.agents[n], env));
  }

  // ---- the steps ----

  lemma BeatStep(s: State, l: Label)
    requires Inv(s) && Enabled(s, l) && (l.Send? || l.AckRead? || l.OrphanRead? || l.Decide? || l.Pick? || l.Stop?)
    ensures Inv(Step(s, l))
  {
    hide Inv, AfterDecide, CanSend, ListsOrphans, ActiveOn, JobsOf, Acknowledges, Reported;
    match l
    case Send(n, report, todo) => LessStep(s, n, AfterSend(s.agents[n], report, todo));
    case AckRead(n) => LessStep(s, n, AfterAckRead(s.agents[n], s.rows, n));
    case OrphanRead(n, orphans) => LessStep(s, n, AfterOrphanRead(s.agents[n], s.rows, n, orphans));
    case Decide(n, env) => DecideStep(s, n, env);
    case Pick(n, j) => LessStep(s, n, AfterPick(s.agents[n], j));
    case Stop(n) => StopStep(s, n);
  }

  lemma WriteStep(s: State, l: Label)
    requires Inv(s) && Enabled(s, l) && (l.AckWrite? || l.OrphanWrite? || l.Grab?)
    ensures Inv(Step(s, l))
  {
    hide Inv, AfterAckWrite, AfterOrphanWrite, AfterGrab, CanAckWrite, CanOrphanWrite, CanGrab;
    match l
    case AckWrite(n) => AckWriteStep(s, n);
    case OrphanWrite(n) => OrphanWriteStep(s, n);
    case Grab(n) => GrabStep(s, n);
  }

  lemma EndStep(s: State, l: Label)
    requires Inv(s) && Enabled(s, l) && (l.Lose? || l.Receive? || l.Spawn? || l.Join? || l.Crash?)
    ensures Inv(Step(s, l))
  {
    hide Inv, AfterReceive, AfterSpawn, CanReceive, AfterCrash;
    match l
    case Lose(n) => LessStep(s, n, s.agents[n].(beat := Idle()));
    case Receive(n, rebooting) => ReceiveStep(s, n, rebooting);
    case Spawn(n) => SpawnStep(s, n);
    case Join(n, row) => JoinStep(s, n, row);
    case Crash(n) => CrashStep(s, n);
  }

  lemma GoroutineStep(s: State, l: Label)
    requires Inv(s) && Enabled(s, l) && (l.Finish? || l.PostReturns? || l.Leave? || l.Sync?)
    ensures Inv(Step(s, l))
  {
    hide Inv, AfterFinish;
    match l
    case Finish(n, j, ok, ran) => FinishStep(s, n, j, ok, ran);
    case PostReturns(n, j) => PhaseStep(s, n, AfterReturn(s.agents[n], j));
    case Leave(n, j) => PhaseStep(s, n, AfterLeave(s.agents[n], j));
    case Sync(n, on) => PhaseStep(s, n, s.agents[n].(syncing := on));
  }

  lemma RestStep(s: State, l: Label)
    requires Inv(s) && Enabled(s, l)
    requires l.Create? || l.Cancel? || l.ManualRetry? || l.Delete? || l.DueRead? || l.Settle? || l.Forget?
    ensures Inv(Step(s, l))
  {
    FinishOnce.RowsGrow(s, l);
    FinishOnce.OthersStay(s, l);
    hide Inv, FinishOnce.Grows, Step, Enabled;
    TableStep(s, Step(s, l));
  }

  lemma PostStep(s: State, l: Label)
    requires Inv(s) && Enabled(s, l) && (l.PostRead? || l.PostWrite? || l.PostLost?)
    ensures Inv(Step(s, l))
  {
    FinishOnce.RowsGrow(s, l);
    hide Inv, FinishOnce.Grows, FinishReport, Acknowledges;
    TableStep(s, Step(s, l));
  }

  lemma InvStep(s: State, l: Label)
    requires Inv(s) && Enabled(s, l)
    ensures Inv(Step(s, l))
  {
    hide Inv, Step, Enabled;
    if l.Send? || l.AckRead? || l.OrphanRead? || l.Decide? || l.Pick? || l.Stop? {
      BeatStep(s, l);
    } else if l.AckWrite? || l.OrphanWrite? || l.Grab? {
      WriteStep(s, l);
    } else if l.Lose? || l.Receive? || l.Spawn? || l.Join? || l.Crash? {
      EndStep(s, l);
    } else if l.Finish? || l.PostReturns? || l.Leave? || l.Sync? {
      GoroutineStep(s, l);
    } else if l.PostRead? || l.PostWrite? || l.PostLost? {
      PostStep(s, l);
    } else {
      RestStep(s, l);
    }
  }

  lemma {:induction false} InvRun(s: State, ls: seq<Label>)
    requires Inv(s) && IsRun(s, ls, Any)
    ensures Inv(Final(s, ls, Any))
    decreases |ls|
  {
    hide Inv, Enabled, Step;
    if ls != [] {
      InvStep(s, ls[0]);
      InvRun(Step(s, ls[0]), ls[1..]);
    }
  }

  /** In every run a completion in flight reports an assignment that its job has had. */
  lemma CompletionsAreOld(ls: seq<Label>, i: nat)
    requires IsRun(INITIAL, ls, Any) && i in Final(INITIAL, ls, Any).posts
    ensures var s := Final(INITIAL, ls, Any);
            s.posts[i].job in s.rows && s.posts[i].epoch <= s.rows[s.posts[i].job].epoch
  {
    InvRun(INITIAL, ls);
    hide IsRun, Final, AgentOld;
    assert PostsOld(Final(INITIAL, ls, Any).rows, Final(INITIAL, ls, Any).posts);
  }

  // ---- decisions ----

  /** A decision is about an assignment that its job has had, and numbered below the ends of it so far. */
  ghost predicate DuesOld(s: State) {
    forall e :: e in s.due ==> Old(s.rows, e.of) && e.nth < s.ended[e.of]
  }

  /** Decisions are new only where a row ends. */
  lemma NewDues(s: State, l: Label)
    requires Enabled(s, l)
    ensures forall e :: e in Step(s, l).due ==>
      e in s.due || (Old(Step(s, l).rows, e.of) && e.nth < Step(s, l).ended[e.of])
  {
    hide ActiveOn, CanSend, CanOrphanRead, Nodes.Decide, Accepted, JobsOf;
  }

  lemma DuesStep(s: State, l: Label)
    requires DuesOld(s) && Enabled(s, l)
    ensures DuesOld(Step(s, l))
  {
    NewDues(s, l);
    FinishOnce.RowsGrow(s, l);
    FinishOnce.EndsStay(s, l);
    hide Enabled, Step;
  }

  lemma {:induction false} DuesRun(s: State, ls: seq<Label>)
    requires DuesOld(s) && IsRun(s, ls, Any)
    ensures DuesOld(Final(s, ls, Any))
    decreases |ls|
  {
    hide DuesOld, Enabled, Step;
    if ls != [] {
      DuesStep(s, ls[0]);
      DuesRun(Step(s, ls[0]), ls[1..]);
    }
  }
}
