/**
 When every finishing write is timely: it is enough that no completion request outlives the
 goroutine that posted it, and that assigned jobs are not cancelled.
 */
module Patience {
  import opened Wrappers
  import opened Jobs
  import opened Registry
  import opened Fleet
  import opened Ownership
  import FinishOnce
  import Nodes

  /** A goroutine does not give up on a completion that is still in flight, and nor does a crash abandon one. */
  ghost predicate Patient(s: State, l: Label) {
    match l
    case PostReturns(n, j) => Enabled(s, l) ==> s.agents[n].gor[j].phase.post !in s.posts
    case Crash(n) => forall i :: i in s.posts ==> s.posts[i].node != n
    case Cancel(j) => !(j in s.rows && s.rows[j].status.Assigned?)
    case _ => true
  }

  /** A completion in flight: its goroutine waits for it, and the row is still at the assignment reported. */
  ghost predicate InFlight(t: Table, agents: map<NodeId, Agent>, i: nat, p: Post) {
    && p.node in agents && p.job in agents[p.node].gor
    && agents[p.node].gor[p.job].epoch == p.epoch
    && agents[p.node].gor[p.job].phase.Posting? && agents[p.node].gor[p.job].phase.post == i
    && Owns(t, p.node, Assignment(p.job, p.epoch))
  }

  /** The goroutine still matters to its row: the script executes, or its completion is in flight. */
  predicate Alive(posts: map<nat, Post>, a: Agent, j: JobId) {
    j in a.gor && (a.gor[j].phase.Executing? || (a.gor[j].phase.Posting? && a.gor[j].phase.post in posts))
  }

  /** Whatever is alive during a heartbeat was reported, and acknowledged once the reports are processed. */
  ghost predicate Seen(posts: map<nat, Post>, a: Agent) {
    match a.beat.stage
    case Quiet => true
    case Acking(todo, _) => forall j :: Alive(posts, a, j) ==> j in a.beat.acked || j in todo
    case _ => forall j :: Alive(posts, a, j) ==> j in a.beat.acked
  }

  /** Rows read as orphans stay running on the node until they are failed. */
  ghost predicate OrphansStand(t: Table, n: NodeId, a: Agent) {
    a.beat.stage.Orphaning? ==>
      && DistinctJobs(a.beat.stage.orphans)
      && forall p :: p in a.beat.stage.orphans ==>
        p.job !in a.beat.acked && StillRunning(t, n, p.job) && t[p.job].epoch == p.epoch
  }

  ghost predicate Flights(t: Table, agents: map<NodeId, Agent>, posts: map<nat, Post>) {
    forall i :: i in posts ==> InFlight(t, agents, i, posts[i])
  }

  ghost predicate Beats(t: Table, agents: map<NodeId, Agent>, posts: map<nat, Post>) {
    forall n :: n in agents ==> Seen(posts, agents[n]) && OrphansStand(t, n, agents[n])
  }

  /** Completions are numbered apart, so the number a goroutine waits for names its own. */
  ghost predicate Numbered(posts: map<nat, Post>, next: nat, n: NodeId, a: Agent) {
    forall j :: j in a.gor && a.gor[j].phase.Posting? ==>
      && a.gor[j].phase.post < next
      && (a.gor[j].phase.post in posts ==> posts[a.gor[j].phase.post].node == n && posts[a.gor[j].phase.post].job == j)
  }

  ghost predicate Waiting(s: State) {
    && Flights(s.rows, s.agents, s.posts) && Beats(s.rows, s.agents, s.posts)
    && (forall n :: n in s.agents ==> Numbered(s.posts, s.nextPost, n, s.agents[n]))
  }

  /** An orphan has no completion in flight. */
  lemma OrphanHasNoPost(s: State, n: NodeId, p: Assignment, i: nat)
    requires Waiting(s) && n in s.agents && s.agents[n].beat.stage.Orphaning? && p in s.agents[n].beat.stage.orphans
      && i in s.posts
    ensures s.posts[i].job != p.job
  {
    assert OrphansStand(s.rows, n, s.agents[n]) && Seen(s.posts, s.agents[n]);
    assert InFlight(s.rows, s.agents, i, s.posts[i]);
    assert s.posts[i].node == n ==> Alive(s.posts, s.agents[n], s.posts[i].job);
  }

  /** A job has at most one completion in flight. */
  lemma OnePost(s: State, i: nat, k: nat)
    requires Waiting(s) && i in s.posts && k in s.posts && s.posts[i].job == s.posts[k].job
    ensures i == k
  {
    assert InFlight(s.rows, s.agents, i, s.posts[i]) && InFlight(s.rows, s.agents, k, s.posts[k]);
  }

  /**
   Every finishing write lands on the assignment it is about: timely, and a failure write for an
   orphan finds the row still running, on that node, at the assignment that was read.
   */
  ghost predicate Lands(s: State, l: Label) {
    && Timely(s, l)
    && (l.OrphanWrite? && Enabled(s, l) ==>
          var p := s.agents[l.n].beat.stage.orphans[0];
          StillRunning(s.rows, l.n, p.job) && s.rows[p.job].epoch == p.epoch)
  }

  lemma PatientLands(s: State, l: Label)
    requires Waiting(s) && Patient(s, l)
    ensures Lands(s, l)
  {
    match l
    case OrphanWrite(n) =>
      if Enabled(s, l) {
        assert OrphansStand(s.rows, n, s.agents[n]);
        assert s.agents[n].beat.stage.orphans[0] in s.agents[n].beat.stage.orphans;
      }
    case PostWrite(i) =>
      if Enabled(s, l) {
        assert InFlight(s.rows, s.agents, i, s.posts[i]);
      }
    case _ =>
  }

  // ---- one row changes ----

  /** The row change leaves every completion in flight and every orphan standing. */
  predicate Harmless(t: Table, t2: Table, j: JobId) {
    && t2 == t[j := if j in t2 then t2[j] else Row(Deleted, 0, 0, false, 0, 0)] && j in t2
    && (ActiveIn(t, j) ==> t2[j] == t[j] || t2[j] == t[j].(status := Running))
  }

  lemma RowWaits(t: Table, t2: Table, j: JobId, agents: map<NodeId, Agent>, posts: map<nat, Post>)
    requires Harmless(t, t2, j) && Flights(t, agents, posts) && Beats(t, agents, posts)
    ensures Flights(t2, agents, posts) && Beats(t2, agents, posts)
  {
    forall i | i in posts ensures InFlight(t2, agents, i, posts[i]) {
      assert InFlight(t, agents, i, posts[i]);
    }
  }

  /** A row is ended: no completion of the job may remain, and no other orphan entry names it. */
  lemma EndWaits(t: Table, t2: Table, j: JobId, agents: map<NodeId, Agent>, posts: map<nat, Post>)
    requires j in t && j in t2 && t2 == t[j := t2[j]] && Flights(t, agents, posts) && Beats(t, agents, posts)
    requires forall i :: i in posts ==> posts[i].job != j
    requires forall n, p :: n in agents && agents[n].beat.stage.Orphaning? && p in agents[n].beat.stage.orphans ==>
      p.job != j
    ensures Flights(t2, agents, posts) && Beats(t2, agents, posts)
  {
    forall i | i in posts ensures InFlight(t2, agents, i, posts[i]) {
      assert InFlight(t, agents, i, posts[i]);
    }
  }

  // ---- one agent changes ----

  /** The agent keeps its goroutines, up to ones that no completion waits for. */
  lemma AgentWaits(s: State, n: NodeId, a: Agent)
    requires Waiting(s) && n in s.agents
    requires Seen(s.posts, a) && OrphansStand(s.rows, n, a)
    requires Numbered(s.posts, s.nextPost, n, a)
    requires forall j ::
               (&& j in s.agents[n].gor && s.agents[n].gor[j].phase.Posting?
                && s.agents[n].gor[j].phase.post in s.posts) ==>
               j in a.gor && a.gor[j] == s.agents[n].gor[j]
    ensures Waiting(With(s, n, a))
  {
    var s2 := With(s, n, a);
    forall i | i in s2.posts ensures InFlight(s2.rows, s2.agents, i, s2.posts[i]) {
      assert InFlight(s.rows, s.agents, i, s.posts[i]);
    }
  }

  /** The agent keeps its goroutines as they are. */
  lemma SameGoroutines(s: State, n: NodeId, a: Agent)
    requires Waiting(s) && n in s.agents && a.gor == s.agents[n].gor
    requires Seen(s.posts, a) && OrphansStand(s.rows, n, a)
    ensures Waiting(With(s, n, a))
  {
    hide Flights, Beats, Seen, OrphansStand;
    assert Numbered(s.posts, s.nextPost, n, s.agents[n]);
    AgentWaits(s, n, a);
  }

  /** Fewer completions in flight. */
  lemma PostsWait(s: State, posts: map<nat, Post>)
    requires Waiting(s)
    requires forall i :: i in posts ==> i in s.posts && posts[i].(stage := Sent) == s.posts[i].(stage := Sent)
    ensures Waiting(s.(posts := posts))
  {
    forall i | i in posts ensures InFlight(s.rows, s.agents, i, posts[i]) {
      assert InFlight(s.rows, s.agents, i, s.posts[i]);
    }
    forall n | n in s.agents ensures Seen(posts, s.agents[n]) {
      assert Seen(s.posts, s.agents[n]);
      assert forall j :: Alive(posts, s.agents[n], j) ==> Alive(s.posts, s.agents[n], j);
    }
  }

  // ---- the steps ----

  lemma TableWaits(s: State, l: Label)
    requires Waiting(s) && Enabled(s, l) && Patient(s, l)
    requires l.Create? || l.Cancel? || l.ManualRetry? || l.Delete?
    ensures Waiting(Step(s, l))
  {
    hide Flights, Beats;
    RowWaits(s.rows, Step(s, l).rows, l.j, s.agents, s.posts);
  }

  lemma JoinWaits(s: State, n: NodeId, row: Nodes.Row)
    requires Waiting(s) && n !in s.agents
    ensures Waiting(With(s, n, Fresh(row)))
  {
    var s2 := With(s, n, Fresh(row));
    forall i | i in s2.posts ensures InFlight(s2.rows, s2.agents, i, s2.posts[i]) {
      assert InFlight(s.rows, s.agents, i, s.posts[i]);
    }
  }

  lemma SendWaits(posts: map<nat, Post>, t: Table, n: NodeId, a: Agent, report: Nodes.Report, todo: seq<JobId>)
    requires Tracked(a) && CanSend(a, report, todo)
    ensures Seen(posts, AfterSend(a, report, todo)) && OrphansStand(t, n, AfterSend(a, report, todo))
  {
  }

  lemma AliveIsOwned(s: State, n: NodeId, j: JobId)
    requires Inv(s) && Waiting(s) && n in s.agents && Alive(s.posts, s.agents[n], j)
    ensures Acknowledges(s.rows, n, j)
  {
    var a := s.agents[n];
    assert AgentOk(s.rows, n, a) && Numbered(s.posts, s.nextPost, n, a);
    if a.gor[j].phase.Executing? {
      assert Holds(a, Assignment(j, a.gor[j].epoch));
    } else {
      assert InFlight(s.rows, s.agents, a.gor[j].phase.post, s.posts[a.gor[j].phase.post]);
    }
  }

  /** Reading the row of a reported job acknowledges it if it is alive. */
  lemma AckReadSees(posts: map<nat, Post>, t: Table, n: NodeId, a: Agent)
    requires Seen(posts, a) && CanAckRead(a)
    requires forall j :: Alive(posts, a, j) ==> Acknowledges(t, n, j)
    ensures Seen(posts, AfterAckRead(a, t, n))
  {
    var todo := a.beat.stage.todo;
    var a2 := AfterAckRead(a, t, n);
    assert todo == [todo[0]] + todo[1..];
    forall j | Alive(posts, a2, j) ensures j in a2.beat.acked || j in a2.beat.stage.todo {
      assert Alive(posts, a, j);
    }
  }

  lemma WaitingSees(s: State, n: NodeId)
    requires Waiting(s) && n in s.agents
    ensures Seen(s.posts, s.agents[n]) && OrphansStand(s.rows, n, s.agents[n])
  {
  }

  lemma AckReadWaits(s: State, n: NodeId)
    requires Inv(s) && Waiting(s) && n in s.agents && CanAckRead(s.agents[n])
    ensures Waiting(With(s, n, AfterAckRead(s.agents[n], s.rows, n)))
  {
    var a2 := AfterAckRead(s.agents[n], s.rows, n);
    forall j | Alive(s.posts, s.agents[n], j) ensures Acknowledges(s.rows, n, j) {
      AliveIsOwned(s, n, j);
    }
    hide Inv, Flights, Beats, Alive, Acknowledges, Numbered;
    assert Seen(s.posts, s.agents[n]) by { WaitingSees(s, n); }
    AckReadSees(s.posts, s.rows, n, s.agents[n]);
    hide Seen;
    SameGoroutines(s, n, a2);
  }

  lemma AckWriteWaits(s: State, n: NodeId)
    requires Waiting(s) && n in s.agents && CanAckWrite(s.agents[n])
    ensures Waiting(AfterAckWrite(s, n))
  {
    var a := s.agents[n];
    var mid := s.(rows := Acknowledge(s.rows, a.beat.stage.writing.value));
    var a2 := At(a, a.beat.stage.(writing := None));
    assert Waiting(mid) by {
      hide Flights, Beats;
      if ActiveIn(s.rows, a.beat.stage.writing.value) {
        RowWaits(s.rows, mid.rows, a.beat.stage.writing.value, s.agents, s.posts);
      }
    }
    AckWriteSees(mid.posts, a);
    hide Flights, Beats, Seen;
    SameGoroutines(mid, n, a2);
  }

  lemma AckWriteSees(posts: map<nat, Post>, a: Agent)
    requires Seen(posts, a) && CanAckWrite(a)
    ensures Seen(posts, At(a, a.beat.stage.(writing := None)))
  {
    forall j | Alive(posts, At(a, a.beat.stage.(writing := None)), j) ensures Alive(posts, a, j) {
    }
  }

  /** A later stage of the same heartbeat sees what the earlier one saw. */
  lemma StageSees(posts: map<nat, Post>, a: Agent, a2: Agent)
    requires Seen(posts, a) && a2.gor == a.gor && a2.beat.acked == a.beat.acked
    requires !a.beat.stage.Quiet? && (a.beat.stage.Acking? ==> a.beat.stage.todo == [])
    requires !a2.beat.stage.Acking?
    ensures Seen(posts, a2)
  {
    forall j | Alive(posts, a2, j) ensures j in a.beat.acked {
      assert Alive(posts, a, j);
    }
  }

  lemma OrphanReadWaits(s: State, n: NodeId, orphans: seq<Assignment>)
    requires Waiting(s) && n in s.agents && CanOrphanRead(s.agents[n], s.rows, n, orphans)
    ensures Waiting(With(s, n, AfterOrphanRead(s.agents[n], s.rows, n, orphans)))
  {
    var a2 := AfterOrphanRead(s.agents[n], s.rows, n, orphans);
    forall p | p in orphans ensures p.job !in s.agents[n].beat.acked && StillRunning(s.rows, n, p.job) {
      JobsOfMember(orphans, p.job);
    }
    assert OrphansStand(s.rows, n, a2);
    StageSees(s.posts, s.agents[n], a2);
    hide Flights, Beats, Seen, OrphansStand;
    SameGoroutines(s, n, a2);
  }

  lemma DropWaits(s: State, n: NodeId)
    requires Waiting(s) && n in s.agents && CanOrphanWrite(s.agents[n])
    ensures Waiting(With(s, n, Dropping(s.agents[n])))
  {
    var a := s.agents[n];
    assert OrphansStand(s.rows, n, a) && OrphansStand(s.rows, n, Dropping(a));
    StageSees(s.posts, a, Dropping(a));
    hide Flights, Beats, Seen, OrphansStand;
    SameGoroutines(s, n, Dropping(a));
  }

  /** No other heartbeat, and no later entry of the same one, holds the orphan being failed. */
  lemma OrphanOnce(s: State, n: NodeId, m: NodeId, p: Assignment)
    requires Waiting(s) && n in s.agents && CanOrphanWrite(s.agents[n]) && m in s.agents
    requires var a := if m == n then Dropping(s.agents[n]) else s.agents[m];
             a.beat.stage.Orphaning? && p in a.beat.stage.orphans
    ensures p.job != s.agents[n].beat.stage.orphans[0].job
  {
    var q := s.agents[n].beat.stage.orphans[0];
    assert OrphansStand(s.rows, n, s.agents[n]) && OrphansStand(s.rows, m, s.agents[m]);
    assert q in s.agents[n].beat.stage.orphans;
    if m == n {
      var k :| 0 <= k < |s.agents[n].beat.stage.orphans[1..]| && s.agents[n].beat.stage.orphans[1..][k] == p;
      assert s.agents[n].beat.stage.orphans[k + 1] == p;
    }
  }

  lemma OrphanWriteWaits(s: State, n: NodeId)
    requires Waiting(s) && n in s.agents && CanOrphanWrite(s.agents[n])
    ensures Waiting(AfterOrphanWrite(s, n))
  {
    var p := s.agents[n].beat.stage.orphans[0];
    var mid := With(s, n, Dropping(s.agents[n]));
    DropWaits(s, n);
    assert p in s.agents[n].beat.stage.orphans;
    forall i | i in s.posts ensures s.posts[i].job != p.job {
      OrphanHasNoPost(s, n, p, i);
    }
    forall m, q | m in mid.agents && mid.agents[m].beat.stage.Orphaning? && q in mid.agents[m].beat.stage.orphans
      ensures q.job != p.job {
      OrphanOnce(s, n, m, q);
    }
    hide Flights, Beats;
    if Exists(s.rows, p.job) {
      EndWaits(mid.rows, AfterOrphanWrite(s, n).rows, p.job, mid.agents, mid.posts);
    }
  }

  /** A later stage of the same heartbeat, with no orphans left to fail. */
  lemma StageWaits(s: State, n: NodeId, a: Agent)
    requires Waiting(s) && n in s.agents && a.gor == s.agents[n].gor && a.beat.acked == s.agents[n].beat.acked
    requires !s.agents[n].beat.stage.Quiet? && !s.agents[n].beat.stage.Acking?
    requires !a.beat.stage.Acking? && !a.beat.stage.Orphaning?
    ensures Waiting(With(s, n, a))
  {
    WaitingSees(s, n);
    StageSees(s.posts, s.agents[n], a);
    hide Flights, Beats, Seen;
    SameGoroutines(s, n, a);
  }

  /** A new assignment is of a pending row, which no completion and no orphan entry names. */
  lemma GrantWaits(s: State, n: NodeId, j: JobId)
    requires Waiting(s) && n in s.agents && CanGrab(s.agents[n]) && j in s.rows && s.rows[j].status.Pending?
    ensures Waiting(Grant(s, n, j))
  {
    var mid := s.(rows := Assign(s.rows, j, n));
    AssignedWaits(s, n, j);
    hide Waiting, Assign;
    GrantedStage(s.agents[n], Assignment(j, s.rows[j].epoch + 1));
    hide Granted, CanGrab;
    StageWaits(mid, n, Granted(s.agents[n], Assignment(j, s.rows[j].epoch + 1)));
  }

  lemma AssignedWaits(s: State, n: NodeId, j: JobId)
    requires Waiting(s) && j in s.rows && s.rows[j].status.Pending?
    ensures Waiting(s.(rows := Assign(s.rows, j, n)))
  {
    hide Flights, Beats;
    RowWaits(s.rows, Assign(s.rows, j, n), j, s.agents, s.posts);
  }

  lemma GrantedStage(a: Agent, p: Assignment)
    requires CanGrab(a)
    ensures a.beat.stage.Filling? && Granted(a, p).gor == a.gor && Granted(a, p).beat.acked == a.beat.acked
    ensures !Granted(a, p).beat.stage.Acking? && !Granted(a, p).beat.stage.Orphaning?
  {
  }

  lemma GrabWaits(s: State, n: NodeId)
    requires Waiting(s) && n in s.agents && CanGrab(s.agents[n])
    ensures Waiting(AfterGrab(s, n))
  {
    hide Waiting, ActiveOn;
    var a := s.agents[n];
    if Assignable(s.rows, a.beat.stage.candidate.value, n, a.row.enabled, a.row.cap) {
      GrantWaits(s, n, a.beat.stage.candidate.value);
    } else {
      StageWaits(s, n, At(a, Reported(a.beat.stage.got)));
    }
  }

  /** The reply is consumed, or lost: the next heartbeat starts afresh. */
  lemma QuietWaits(s: State, n: NodeId, a: Agent)
    requires Waiting(s) && n in s.agents && a.gor == s.agents[n].gor && a.beat.stage.Quiet?
    ensures Waiting(With(s, n, a))
  {
    hide Flights, Beats;
    SameGoroutines(s, n, a);
  }

  lemma SpawnWaits(s: State, n: NodeId)
    requires Waiting(s) && n in s.agents && Tracked(s.agents[n]) && s.agents[n].spawn != []
    ensures Waiting(With(s, n, AfterSpawn(s.agents[n])))
  {
    var a := s.agents[n];
    assert a.spawn[0] in a.spawn;
    hide Tracked, Flights, Beats;
    assert Numbered(s.posts, s.nextPost, n, a) && Numbered(s.posts, s.nextPost, n, AfterSpawn(a));
    AgentWaits(s, n, AfterSpawn(a));
  }

  lemma SpawnedWaits(s: State, n: NodeId)
    requires Inv(s) && Waiting(s) && n in s.agents && s.agents[n].spawn != []
    ensures Waiting(With(s, n, AfterSpawn(s.agents[n])))
  {
    assert AgentOk(s.rows, n, s.agents[n]);
    hide Inv, Waiting;
    SpawnWaits(s, n);
  }

  /** A goroutine that nobody waits for moves on. */
  lemma GoroutineWaits(s: State, n: NodeId, a: Agent, j: JobId)
    requires Waiting(s) && n in s.agents && a.beat == s.agents[n].beat
    requires InPhase(s.agents[n], j, false, false)
      || (InPhase(s.agents[n], j, false, true) && s.agents[n].gor[j].phase.post !in s.posts)
    requires a.gor == s.agents[n].gor - {j} || a.gor == s.agents[n].gor[j := s.agents[n].gor[j].(phase := Leaving)]
    ensures Waiting(With(s, n, a))
  {
    assert Numbered(s.posts, s.nextPost, n, s.agents[n]);
    WaitingSees(s, n);
    assert forall i :: Alive(s.posts, a, i) ==> Alive(s.posts, s.agents[n], i);
    hide Flights, Beats, Alive;
    AgentWaits(s, n, a);
  }

  lemma CrashWaits(s: State, n: NodeId)
    requires Waiting(s) && n in s.agents && forall i :: i in s.posts ==> s.posts[i].node != n
    ensures Waiting(With(s, n, AfterCrash(s.agents[n])))
  {
    assert Numbered(s.posts, s.nextPost, n, s.agents[n]);
    WaitingSees(s, n);
    assert forall j :: !Alive(s.posts, AfterCrash(s.agents[n]), j);
    hide Flights, Beats, Alive;
    AgentWaits(s, n, AfterCrash(s.agents[n]));
  }

  lemma FinishFlies(s: State, n: NodeId, j: JobId, p: Post, ran: bool, i: nat)
    requires Flights(s.rows, s.agents, s.posts) && n in s.agents && InPhase(s.agents[n], j, true, false)
    requires p.node == n && p.job == j && p.epoch == s.agents[n].gor[j].epoch && Owns(s.rows, n, Assignment(j, p.epoch))
    requires var s2 := Posted(With(s, n, AfterFinish(s.agents[n], j, s.nextPost, ran)), p); i in s2.posts
    ensures var s2 := Posted(With(s, n, AfterFinish(s.agents[n], j, s.nextPost, ran)), p);
            InFlight(s2.rows, s2.agents, i, s2.posts[i])
  {
    if i != s.nextPost {
      assert InFlight(s.rows, s.agents, i, s.posts[i]);
    }
  }

  /** The script ends: its completion is in flight from now on. */
  lemma FinishWaits(s: State, n: NodeId, j: JobId, ok: bool, ran: bool)
    requires Inv(s) && Waiting(s) && n in s.agents && InPhase(s.agents[n], j, true, false)
    ensures Waiting(Posted(With(s, n, AfterFinish(s.agents[n], j, s.nextPost, ran)),
      Post(n, j, s.agents[n].gor[j].epoch, ok, Sent)))
  {
    var a := s.agents[n];
    var p := Post(n, j, a.gor[j].epoch, ok, Sent);
    assert Owns(s.rows, n, Assignment(j, p.epoch)) by {
      assert Holds(a, Assignment(j, p.epoch));
      OneHolder(s, n, Assignment(j, p.epoch));
    }
    NextIsFree(s);
    hide Inv, Owns;
    FinishLists(s, n, j, p, ran);
  }

  lemma FinishLists(s: State, n: NodeId, j: JobId, p: Post, ran: bool)
    requires Waiting(s) && s.nextPost !in s.posts && n in s.agents && InPhase(s.agents[n], j, true, false)
    requires p.node == n && p.job == j && p.epoch == s.agents[n].gor[j].epoch && Owns(s.rows, n, Assignment(j, p.epoch))
    ensures Waiting(Posted(With(s, n, AfterFinish(s.agents[n], j, s.nextPost, ran)), p))
  {
    var s2 := Posted(With(s, n, AfterFinish(s.agents[n], j, s.nextPost, ran)), p);
    assert Flights(s2.rows, s2.agents, s2.posts) by {
      hide InFlight, Owns, Beats, Numbered;
      forall i | i in s2.posts ensures InFlight(s2.rows, s2.agents, i, s2.posts[i]) {
        FinishFlies(s, n, j, p, ran, i);
      }
    }
    hide InFlight, Flights, Seen, OrphansStand, Numbered, Owns;
    forall m | m in s2.agents ensures Seen(s2.posts, s2.agents[m]) && OrphansStand(s2.rows, m, s2.agents[m])
      && Numbered(s2.posts, s2.nextPost, m, s2.agents[m]) {
      FinishSees(s, n, j, p, ran, m);
    }
  }

  lemma NextIsFree(s: State)
    requires Inv(s)
    ensures s.nextPost !in s.posts
  {
  }

  lemma FinishSees(s: State, n: NodeId, j: JobId, p: Post, ran: bool, m: NodeId)
    requires Waiting(s) && s.nextPost !in s.posts && n in s.agents && m in s.agents
      && InPhase(s.agents[n], j, true, false)
    requires p.node == n && p.job == j
    ensures var s2 := Posted(With(s, n, AfterFinish(s.agents[n], j, s.nextPost, ran)), p);
            Seen(s2.posts, s2.agents[m]) && OrphansStand(s2.rows, m, s2.agents[m])
                && Numbered(s2.posts, s2.nextPost, m, s2.agents[m])
  {
    var s2 := Posted(With(s, n, AfterFinish(s.agents[n], j, s.nextPost, ran)), p);
    WaitingSees(s, m);
    assert Numbered(s.posts, s.nextPost, m, s.agents[m]);
    assert forall i :: Alive(s2.posts, s2.agents[m], i) ==> Alive(s.posts, s.agents[m], i);
    hide Alive, Flights, Beats;
  }

  lemma PostReadWaits(s: State, i: nat)
    requires Waiting(s) && i in s.posts
    ensures Waiting(AfterPostRead(s, i))
  {
    hide Flights, Beats, Numbered;
    PostsWait(s, AfterPostRead(s, i).posts);
  }

  lemma PostWriteWaits(s: State, i: nat)
    requires Waiting(s) && i in s.posts && s.posts[i].stage.Read?
    ensures Waiting(AfterPostWrite(s, i))
  {
    var j := s.posts[i].job;
    var mid := s.(posts := s.posts - {i});
    assert Waiting(mid) by {
      hide Flights, Beats, Numbered;
      PostsWait(s, mid.posts);
    }
    if ActiveIn(s.rows, j) {
      forall k | k in mid.posts ensures mid.posts[k].job != j {
        if s.posts[k].job == j {
          OnePost(s, i, k);
        }
      }
      forall n, p | n in s.agents && s.agents[n].beat.stage.Orphaning? && p in s.agents[n].beat.stage.orphans
        ensures p.job != j {
        OrphanHasNoPost(s, n, p, i);
      }
      hide Flights, Beats, Numbered;
      EndWaits(s.rows, AfterPostWrite(s, i).rows, j, s.agents, mid.posts);
    }
  }

  lemma SettleWaits(s: State, e: Ending)
    requires Waiting(s) && e in s.due
    ensures Waiting(AfterSettle(s, e))
  {
    hide Flights, Beats, Numbered;
    var s2 := AfterSettle(s, e);
    if e.of.job in s.rows {
      RowWaits(s.rows, s2.rows, e.of.job, s.agents, s.posts);
    }
  }

  lemma SentWaits(s: State, n: NodeId, report: Nodes.Report, todo: seq<JobId>)
    requires Inv(s) && Waiting(s) && n in s.agents && CanSend(s.agents[n], report, todo)
    ensures Waiting(With(s, n, AfterSend(s.agents[n], report, todo)))
  {
    EachOk(s, n);
    hide Inv, Waiting, CanSend;
    SendWaits(s.posts, s.rows, n, s.agents[n], report, todo);
    SameGoroutines(s, n, AfterSend(s.agents[n], report, todo));
  }

  lemma HeartbeatWaits(s: State, l: Label)
    requires Inv(s) && Waiting(s) && Enabled(s, l)
    requires l.Send? || l.AckRead? || l.AckWrite? || l.OrphanRead? || l.OrphanWrite? || l.Decide?
    ensures Waiting(Step(s, l))
  {
    hide Inv, Waiting, CanSend, CanOrphanRead, AfterSend, AfterAckRead, AfterAckWrite, AfterOrphanRead,
        AfterOrphanWrite, AfterDecide;
    match l
    case Send(n, report, todo) => SentWaits(s, n, report, todo);
    case AckRead(n) => AckReadWaits(s, n);
    case AckWrite(n) => AckWriteWaits(s, n);
    case OrphanRead(n, orphans) => OrphanReadWaits(s, n, orphans);
    case OrphanWrite(n) => OrphanWriteWaits(s, n);
    case Decide(n, env) => DecideWaits(s, n, env);
  }

  lemma DecideWaits(s: State, n: NodeId, env: Nodes.Env)
    requires Waiting(s) && n in s.agents && CanDecide(s.agents[n])
    ensures Waiting(With(s, n, AfterDecide(s.agents[n], env)))
  {
    hide Waiting, Nodes.Decide;
    StageWaits(s, n, AfterDecide(s.agents[n], env));
  }

  lemma PickWaits(s: State, n: NodeId, j: JobId)
    requires Waiting(s) && n in s.agents && CanPick(s.agents[n], s.rows, j)
    ensures Waiting(With(s, n, AfterPick(s.agents[n], j)))
  {
    hide Waiting;
    StageWaits(s, n, AfterPick(s.agents[n], j));
  }

  lemma ReceiveWaits(s: State, n: NodeId, rebooting: bool)
    requires Waiting(s) && n in s.agents && CanReceive(s.agents[n])
    ensures Waiting(With(s, n, AfterReceive(s.agents[n], rebooting)))
  {
    hide Waiting, Accepted, JobsOf;
    QuietWaits(s, n, AfterReceive(s.agents[n], rebooting));
  }

  lemma ReplyWaits(s: State, l: Label)
    requires Inv(s) && Waiting(s) && Enabled(s, l)
    requires l.Pick? || l.Grab? || l.Stop? || l.Lose? || l.Receive? || l.Spawn?
    ensures Waiting(Step(s, l))
  {
    hide Inv, Waiting, CanPick, CanReceive, AfterPick, AfterGrab, AfterReceive, AfterSpawn;
    match l
    case Pick(n, j) => PickWaits(s, n, j);
    case Grab(n) => GrabWaits(s, n);
    case Stop(n) => StageWaits(s, n, At(s.agents[n], Reported(s.agents[n].beat.stage.got)));
    case Lose(n) => QuietWaits(s, n, s.agents[n].(beat := Idle()));
    case Receive(n, rebooting) => ReceiveWaits(s, n, rebooting);
    case Spawn(n) => SpawnedWaits(s, n);
  }

  lemma AgentSideWaits(s: State, l: Label)
    requires Inv(s) && Waiting(s) && Enabled(s, l) && Patient(s, l)
    requires l.Finish? || l.PostReturns? || l.Leave? || l.Sync? || l.Crash?
    ensures Waiting(Step(s, l))
  {
    hide Inv, Waiting;
    match l
    case Finish(n, j, ok, ran) => FinishWaits(s, n, j, ok, ran);
    case PostReturns(n, j) => GoroutineWaits(s, n, AfterReturn(s.agents[n], j), j);
    case Leave(n, j) => GoroutineWaits(s, n, AfterLeave(s.agents[n], j), j);
    case Sync(n, on) => WaitingSees(s, n); SyncWaits(s, n, on);
    case Crash(n) => CrashWaits(s, n);
  }

  lemma SyncWaits(s: State, n: NodeId, on: bool)
    requires Waiting(s) && n in s.agents
    ensures Waiting(With(s, n, s.agents[n].(syncing := on)))
  {
    WaitingSees(s, n);
    assert forall j :: Alive(s.posts, s.agents[n].(syncing := on), j) ==> Alive(s.posts, s.agents[n], j);
    hide Waiting, Alive;
    SameGoroutines(s, n, s.agents[n].(syncing := on));
  }

  lemma DueWaits(s: State, s2: State)
    requires Waiting(s) && s2 == s.(due := s2.due)
    ensures Waiting(s2)
  {
    hide Flights, Beats, Numbered;
  }

  lemma CompletionWaits(s: State, l: Label)
    requires Waiting(s) && Enabled(s, l)
    requires l.PostRead? || l.PostWrite? || l.PostLost? || l.DueRead? || l.Settle? || l.Forget?
    ensures Waiting(Step(s, l))
  {
    hide Waiting, AfterPostRead, AfterPostWrite, AfterSettle;
    match l
    case PostRead(i) => PostReadWaits(s, i);
    case PostWrite(i) => PostWriteWaits(s, i);
    case PostLost(i) => PostsWait(s, s.posts - {i});
    case DueRead(e) => DueWaits(s, AfterDueRead(s, e));
    case Settle(e) => SettleWaits(s, e);
    case Forget(e) => DueWaits(s, s.(due := s.due - {e}));
  }

  lemma WaitingStep(s: State, l: Label)
    requires Inv(s) && Waiting(s) && Enabled(s, l) && Patient(s, l)
    ensures Waiting(Step(s, l))
  {
    hide Inv, Waiting, Enabled, Patient, Timely, Step;
    match l
    case Join(n, row) => JoinedWaits(s, n, row);
    case Create(_, _) | Cancel(_) | ManualRetry(_) | Delete(_) => TableWaits(s, l);
    case Send(_, _, _) | AckRead(_) | AckWrite(_) | OrphanRead(_, _) | OrphanWrite(_)
      | Decide(_, _) => HeartbeatWaits(s, l);
    case Pick(_, _) | Grab(_) | Stop(_) | Lose(_) | Receive(_, _) | Spawn(_) => ReplyWaits(s, l);
    case Finish(_, _, _, _) | PostReturns(_, _) | Leave(_, _) | Sync(_, _) | Crash(_) => AgentSideWaits(s, l);
    case PostRead(_) | PostWrite(_) | PostLost(_) | DueRead(_) | Settle(_) | Forget(_) => CompletionWaits(s, l);
  }

  lemma JoinedWaits(s: State, n: NodeId, row: Nodes.Row)
    requires Waiting(s) && Enabled(s, Join(n, row))
    ensures Waiting(Step(s, Join(n, row)))
  {
    hide Waiting;
    JoinWaits(s, n, row);
  }

  /**
   In every patient run each finishing write lands on the assignment it is about, although the
   orphan failure is guarded by the identifier alone. So every patient run is timely.
   */
  lemma {:induction false} PatientRunLands(s: State, ls: seq<Label>)
    requires Inv(s) && Waiting(s) && IsRun(s, ls, Patient)
    ensures IsRun(s, ls, Lands) && Final(s, ls, Lands) == Final(s, ls, Patient)
    decreases |ls|
  {
    hide Inv, Waiting, Enabled, Patient, Timely, Lands, Step;
    if ls != [] {
      PatientLands(s, ls[0]);
      assert Timely(s, ls[0]) by { LandsIsTimely(s, ls[0]); }
      WaitingStep(s, ls[0]);
      InvStep(s, ls[0]);
      PatientRunLands(Step(s, ls[0]), ls[1..]);
    }
  }

  lemma LandsIsTimely(s: State, l: Label)
    requires Lands(s, l)
    ensures Timely(s, l) && FinishOnce.FinishesLive(s, l)
  {
    hide Timely, Enabled;
  }

  lemma PatientRunIsTimely(s: State, ls: seq<Label>)
    requires Inv(s) && Waiting(s) && IsRun(s, ls, Patient)
    ensures IsRun(s, ls, Timely) && Final(s, ls, Timely) == Final(s, ls, Patient)
  {
    PatientRunLands(s, ls);
    hide Timely, IsRun, Final;
    Weaken(s, ls, Lands, Timely);
  }

  lemma {:induction false} WaitingRun(s: State, ls: seq<Label>)
    requires Inv(s) && Waiting(s) && IsRun(s, ls, Patient)
    ensures Waiting(Final(s, ls, Patient))
    decreases |ls|
  {
    hide Inv, Waiting, Enabled, Patient, Timely, Step;
    if ls != [] {
      assert Timely(s, ls[0]) by { PatientLands(s, ls[0]); LandsIsTimely(s, ls[0]); }
      WaitingStep(s, ls[0]);
      InvStep(s, ls[0]);
      WaitingRun(Step(s, ls[0]), ls[1..]);
    }
  }

  /**
   In patient runs an orphan about to be failed is still running, as read, on its node, and its
   script executes on no node at all.
   */
  lemma PatientOrphanIsDead(ls: seq<Label>, n: NodeId, p: Assignment, m: NodeId)
    requires IsRun(INITIAL, ls, Patient)
    requires var s := Final(INITIAL, ls, Patient);
             n in s.agents && s.agents[n].beat.stage.Orphaning? && p in s.agents[n].beat.stage.orphans && m in s.agents
    ensures var s := Final(INITIAL, ls, Patient);
            StillRunning(s.rows, n, p.job) && s.rows[p.job].epoch == p.epoch && p.job !in Scripts(s.agents[m])
  {
    WaitingRun(INITIAL, ls);
    PatientRunIsTimely(INITIAL, ls);
    hide Enabled, Step, Patient, Timely, IsRun, Final, INITIAL, Scripts;
    WaitingSees(Final(INITIAL, ls, Patient), n);
    OrphanIsDead(ls, n, p, m);
  }

  /** In patient runs each assignment ends once and is followed by one retry or notification at most. */
  lemma PatientFinishesOnce(ls: seq<Label>)
    requires IsRun(INITIAL, ls, Patient)
    ensures FinishOnce.Once(Final(INITIAL, ls, Patient))
  {
    PatientRunLands(INITIAL, ls);
    forall t, l | Lands(t, l) ensures FinishOnce.FinishesLive(t, l) {
      LandsIsTimely(t, l);
    }
    hide IsRun, Final, Lands, FinishOnce.FinishesLive, FinishOnce.Once;
    Weaken(INITIAL, ls, Lands, FinishOnce.FinishesLive);
    FinishOnce.FinishesOnce(ls);
  }
}
