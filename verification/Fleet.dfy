/**
 The dispatch protocol between any number of controllers and agents, as a labelled step system.
 The controllers share the job table and keep nothing else, so they appear as the handlers in
 flight: one heartbeat handler per node (an agent waits for each reply) and one handler per
 posted completion. Reading a row, rendering and writing are separate steps.
 */
module Fleet {
  import opened Wrappers
  import opened Jobs
  import opened Registry
  import Nodes

  /** One job goroutine: it runs the script, posts the completion (numbered `post`), and leaves. */
  datatype Phase = Executing | Posting(post: nat, ran: bool) | Leaving

  datatype Goroutine = Goroutine(epoch: nat, phase: Phase)

  datatype Reply = Nothing | Work(payloads: seq<Assignment>) | RebootNow | UpdateNow

  /** How far a heartbeat handler has got. */
  datatype Stage =
    | Quiet
    | Acking(todo: seq<JobId>, writing: Option<JobId>)
    | Orphaning(orphans: seq<Assignment>, active: nat)
    | Filling(slots: nat, candidate: Option<JobId>, got: seq<Assignment>)
    | Answered(reply: Reply)

  /** A heartbeat in flight: the reported rest, the acknowledged set, and whether the agent died meanwhile. */
  datatype Beat = Beat(stage: Stage, acked: set<JobId>, report: Nodes.Report, deaf: bool)

  /** A node: its row, and the agent on it. */
  datatype Agent = Agent(
    row: Nodes.Row, tasks: nat, syncing: bool,
    reg: set<JobId>, spawn: seq<Assignment>, gor: map<JobId, Goroutine>, beat: Beat)

  datatype PostStage = Sent | Read(retries: int)

  /** A completion on its way. The wire does not carry the epoch. */
  datatype Post = Post(node: NodeId, job: JobId, epoch: nat, ok: bool, stage: PostStage)

  /** One terminal write: the assignment it ended, and how often that had ended before. */
  datatype Ending = Ending(of: Assignment, nth: nat)

  /** What a handler still owes after a terminal write. */
  datatype Due = Announce | Reread | Choose(retries: int)

  /**
   `ended` counts the effective terminal transitions of each assignment and `told` the retry or
   notification decisions taken for it; both only record history.
   */
  datatype State = State(
    rows: Table, agents: map<NodeId, Agent>, posts: map<nat, Post>, nextPost: nat,
    due: map<Ending, Due>, ended: multiset<Assignment>, told: multiset<Assignment>)

  datatype Label =
    | Join(n: NodeId, row: Nodes.Row) | Create(j: JobId, budget: int)
    | Cancel(j: JobId) | ManualRetry(j: JobId) | Delete(j: JobId)
    | Send(n: NodeId, report: Nodes.Report, todo: seq<JobId>) | AckRead(n: NodeId) | AckWrite(n: NodeId)
    | OrphanRead(n: NodeId, orphans: seq<Assignment>) | OrphanWrite(n: NodeId) | Decide(n: NodeId, env: Nodes.Env)
    | Pick(n: NodeId, j: JobId) | Grab(n: NodeId) | Stop(n: NodeId) | Lose(n: NodeId)
    | Receive(n: NodeId, rebooting: bool) | Spawn(n: NodeId)
    | Finish(n: NodeId, j: JobId, ok: bool, ran: bool) | PostReturns(n: NodeId, j: JobId) | Leave(n: NodeId, j: JobId)
    | PostRead(i: nat) | PostWrite(i: nat) | PostLost(i: nat)
    | DueRead(e: Ending) | Settle(e: Ending) | Forget(e: Ending)
    | Sync(n: NodeId, on: bool) | Crash(n: NodeId)

  const INITIAL := State(map[], map[], map[], 0, map[], multiset{}, multiset{})

  function Idle(): Beat {
    Beat(Quiet, {}, Nodes.Report(0, false, "", 0, 0, ""), false)
  }

  /** An agent that just started on a node. */
  function Fresh(row: Nodes.Row): Agent {
    Agent(row, 0, false, {}, [], map[], Idle())
  }

  predicate Script(a: Agent, p: Assignment) {
    p.job in a.gor && a.gor[p.job] == Goroutine(p.epoch, Executing)
  }

  /** The jobs whose script a node is executing. */
  function Scripts(a: Agent): set<JobId> {
    set j | j in a.gor && a.gor[j].phase.Executing?
  }

  /** The payloads assigned by the heartbeat in flight and not yet delivered. */
  function Carried(a: Agent): seq<Assignment> {
    match a.beat.stage
    case Filling(_, _, got) => got
    case Answered(Work(payloads)) => payloads
    case _ => []
  }

  function At(a: Agent, stage: Stage): Agent {
    a.(beat := a.beat.(stage := stage))
  }

  /** The state with one agent replaced. */
  function With(s: State, n: NodeId, a: Agent): State {
    s.(agents := s.agents[n := a])
  }

  // ---- operators ----

  /** The operator's cancel, retry and delete are guarded statements; cancelling an assigned job ends its assignment. */
  function AfterCancel(s: State, j: JobId): State
    requires j in s.rows
  {
    var s2 := s.(rows := Jobs.Cancel(s.rows, j));
    if s.rows[j].status.Assigned? then s2.(ended := s.ended + multiset{Assignment(j, s.rows[j].epoch)}) else s2
  }

  // ---- one heartbeat ----

  ghost predicate CanSend(a: Agent, report: Nodes.Report, todo: seq<JobId>) {
    && a.beat.stage.Quiet? && a.spawn == []
    && report.tasks == a.tasks && report.syncing == a.syncing
    && forall j :: j in todo <==> j in a.reg
  }

  function AfterSend(a: Agent, report: Nodes.Report, todo: seq<JobId>): Agent {
    a.(beat := Beat(Acking(todo, None), {}, report, false))
  }

  predicate CanAckRead(a: Agent) {
    a.beat.stage.Acking? && a.beat.stage.todo != [] && a.beat.stage.writing.None?
  }

  /** A reported job counts when its row is not terminal and the node owns it. */
  predicate Acknowledges(t: Table, n: NodeId, j: JobId) {
    Exists(t, j) && !t[j].status.Terminal() && t[j].node == n
  }

  function AfterAckRead(a: Agent, t: Table, n: NodeId): Agent
    requires CanAckRead(a)
  {
    var j := a.beat.stage.todo[0];
    var rest := a.beat.stage.todo[1..];
    if Acknowledges(t, n, j)
    then a.(beat := a.beat.(stage := Acking(rest, Some(j)), acked := a.beat.acked + {j}))
    else At(a, Acking(rest, None))
  }

  predicate CanAckWrite(a: Agent) {
    a.beat.stage.Acking? && a.beat.stage.writing.Some?
  }

  function AfterAckWrite(s: State, n: NodeId): State
    requires n in s.agents && CanAckWrite(s.agents[n])
  {
    var a := s.agents[n];
    With(s.(rows := Acknowledge(s.rows, a.beat.stage.writing.value)), n, At(a, a.beat.stage.(writing := None)))
  }

  /** The unacknowledged running rows of a node, each with the assignment it was read at. */
  ghost predicate ListsOrphans(orphans: seq<Assignment>, t: Table, n: NodeId, acked: set<JobId>) {
    && DistinctJobs(orphans)
    && (forall j :: j in JobsOf(orphans) <==> (j in t && t[j].node == n && t[j].status.Running? && j !in acked))
    && forall p :: p in orphans ==> p.job in t && p.epoch == t[p.job].epoch
  }

  ghost predicate CanOrphanRead(a: Agent, t: Table, n: NodeId, orphans: seq<Assignment>) {
    && a.beat.stage.Acking? && a.beat.stage.todo == [] && a.beat.stage.writing.None?
    && ListsOrphans(orphans, t, n, a.beat.acked)
  }

  function AfterOrphanRead(a: Agent, t: Table, n: NodeId, orphans: seq<Assignment>): Agent {
    At(a, Orphaning(orphans, |ActiveOn(t, n) - JobsOf(orphans)|))
  }

  predicate CanOrphanWrite(a: Agent) {
    a.beat.stage.Orphaning? && a.beat.stage.orphans != []
  }

  function Dropping(a: Agent): Agent
    requires CanOrphanWrite(a)
  {
    At(a, a.beat.stage.(orphans := a.beat.stage.orphans[1..]))
  }

  /** The unguarded failure of one orphan; it ends whatever assignment the row is at. */
  function AfterOrphanWrite(s: State, n: NodeId): State
    requires n in s.agents && CanOrphanWrite(s.agents[n])
  {
    var j := s.agents[n].beat.stage.orphans[0].job;
    var s2 := With(s, n, Dropping(s.agents[n]));
    if Exists(s.rows, j) then
      var p := Assignment(j, s.rows[j].epoch);
      s2.(rows := FinishAny(s.rows, j), ended := s.ended + multiset{p}, due := s.due[Ending(p, s.ended[p]) := Reread])
    else s2
  }

  predicate CanDecide(a: Agent) {
    a.beat.stage.Orphaning? && a.beat.stage.orphans == []
  }

  /** A heartbeat counts as busy while the agent syncs an update or reported a job of its own. */
  predicate Busy(a: Agent) {
    a.beat.report.syncing || a.beat.acked != {}
  }

  function Verdicts(v: Nodes.Verdict): Stage {
    match v
    case Ack => Answered(Nothing)
    case Reboot => Answered(RebootNow)
    case Update(_) => Answered(UpdateNow)
    case Fill(slots) => Filling(slots, None, [])
  }

  function AfterDecide(a: Agent, env: Nodes.Env): Agent
    requires CanDecide(a)
  {
    var (row, verdict) := Nodes.Decide(a.row, a.beat.report, Busy(a), a.beat.stage.active, env);
    At(a.(row := row), Verdicts(verdict))
  }

  predicate CanPick(a: Agent, t: Table, j: JobId) {
    && a.beat.stage.Filling? && a.beat.stage.candidate.None? && |a.beat.stage.got| < a.beat.stage.slots
    && j in t && t[j].status.Pending?
  }

  function AfterPick(a: Agent, j: JobId): Agent
    requires a.beat.stage.Filling?
  {
    At(a, a.beat.stage.(candidate := Some(j)))
  }

  predicate CanGrab(a: Agent) {
    a.beat.stage.Filling? && a.beat.stage.candidate.Some?
  }

  function Reported(got: seq<Assignment>): Stage {
    Answered(if got == [] then Nothing else Work(got))
  }

  /** AssignJob for the candidate: on success it joins the reply, on failure the loop breaks. */
  function AfterGrab(s: State, n: NodeId): State
    requires n in s.agents && CanGrab(s.agents[n])
  {
    var a := s.agents[n];
    var j := a.beat.stage.candidate.value;
    if Assignable(s.rows, j, n, a.row.enabled, a.row.cap) then
      With(s.(rows := Assign(s.rows, j, n)), n, Granted(a, Assignment(j, s.rows[j].epoch + 1)))
    else With(s, n, At(a, Reported(a.beat.stage.got)))
  }

  function Granted(a: Agent, p: Assignment): Agent
    requires CanGrab(a)
  {
    At(a, a.beat.stage.(candidate := None, got := a.beat.stage.got + [p]))
  }

  predicate CanStop(a: Agent) {
    a.beat.stage.Filling? && a.beat.stage.candidate.None?
  }

  predicate CanReceive(a: Agent) {
    a.beat.stage.Answered? && !a.beat.deaf
  }

  /** The agent acts on the reply: register payloads, or schedule a reboot and reset the counter if it is accepted. */
  function AfterReceive(a: Agent, rebooting: bool): Agent
    requires CanReceive(a)
  {
    var quiet := a.(beat := Idle());
    match a.beat.stage.reply
    case Work(payloads) =>
      var ok := Accepted(a.reg, payloads);
      quiet.(reg := a.reg + JobsOf(ok), spawn := ok)
    case RebootNow => quiet.(tasks := if rebooting then 0 else a.tasks)
    case _ => quiet
  }

  // ---- goroutines ----

  function AfterSpawn(a: Agent): Agent
    requires a.spawn != []
  {
    a.(gor := a.gor[a.spawn[0].job := Goroutine(a.spawn[0].epoch, Executing)], spawn := a.spawn[1..])
  }

  predicate InPhase(a: Agent, j: JobId, executing: bool, posting: bool) {
    j in a.gor && a.gor[j].phase.Executing? == executing && a.gor[j].phase.Posting? == posting
  }

  /** The script ended and the completion is on its way, numbered `i`. */
  function AfterFinish(a: Agent, j: JobId, i: nat, ran: bool): Agent
    requires j in a.gor
  {
    a.(gor := a.gor[j := a.gor[j].(phase := Posting(i, ran))])
  }

  function Posted(s: State, p: Post): State {
    s.(posts := s.posts[s.nextPost := p], nextPost := s.nextPost + 1)
  }

  /** The post returned, answered or not; a script that ran is counted. */
  function AfterReturn(a: Agent, j: JobId): Agent
    requires InPhase(a, j, false, true)
  {
    a.(gor := a.gor[j := a.gor[j].(phase := Leaving)], tasks := a.tasks + if a.gor[j].phase.ran then 1 else 0)
  }

  function AfterLeave(a: Agent, j: JobId): Agent {
    a.(gor := a.gor - {j}, reg := a.reg - {j})
  }

  function AfterCrash(a: Agent): Agent {
    a.(reg := {}, spawn := [], gor := map[], beat := a.beat.(deaf := true))
  }

  // ---- one completion ----

  /** The handler's first read: answered at once unless the row is live and the node its owner. */
  function AfterPostRead(s: State, i: nat): State
    requires i in s.posts
  {
    var p := s.posts[i];
    if Acknowledges(s.rows, p.node, p.job)
    then s.(posts := s.posts[i := p.(stage := Read(s.rows[p.job].retries))])
    else s.(posts := s.posts - {i})
  }

  /** The guarded completion write, and what the handler owes when it took effect. */
  function AfterPostWrite(s: State, i: nat): State
    requires i in s.posts && s.posts[i].stage.Read?
  {
    var p := s.posts[i];
    var s2 := s.(posts := s.posts - {i});
    if ActiveIn(s.rows, p.job) then
      var a := Assignment(p.job, s.rows[p.job].epoch);
      s2.(rows := FinishReport(s.rows, p.job, p.ok), ended := s.ended + multiset{a},
          due := s.due[Ending(a, s.ended[a]) := if p.ok then Announce else Choose(p.stage.retries)])
    else s2
  }

  /** A handler reads back the row it failed as an orphan. */
  function AfterDueRead(s: State, e: Ending): State {
    if Exists(s.rows, e.of.job) then s.(due := s.due[e := Choose(s.rows[e.of.job].retries)])
    else s.(due := s.due - {e})
  }

  /** The retry decision: a requeue while the budget lasts, an outcome notification otherwise. */
  function AfterSettle(s: State, e: Ending): State
    requires e in s.due
  {
    var s2 := s.(due := s.due - {e}, told := s.told + multiset{e.of});
    if s.due[e].Choose? && e.of.job in s.rows && MayRetry(s.rows[e.of.job].budget, s.due[e].retries)
    then s2.(rows := Requeue(s.rows, e.of.job, s.due[e].retries + 1))
    else s2
  }

  // ---- the step relation ----

  /** When a step may happen. A label carries what the step reads nondeterministically. */
  ghost predicate Enabled(s: State, l: Label) {
    match l
    case Join(n, row) => n != 0 && n !in s.agents
    case Create(j, _) => j !in s.rows
    case Cancel(j) => j in s.rows
    case ManualRetry(j) => j in s.rows
    case Delete(j) => j in s.rows
    case Send(n, report, todo) => n in s.agents && CanSend(s.agents[n], report, todo)
    case AckRead(n) => n in s.agents && CanAckRead(s.agents[n])
    case AckWrite(n) => n in s.agents && CanAckWrite(s.agents[n])
    case OrphanRead(n, orphans) => n in s.agents && CanOrphanRead(s.agents[n], s.rows, n, orphans)
    case OrphanWrite(n) => n in s.agents && CanOrphanWrite(s.agents[n])
    case Decide(n, _) => n in s.agents && CanDecide(s.agents[n])
    case Pick(n, j) => n in s.agents && CanPick(s.agents[n], s.rows, j)
    case Grab(n) => n in s.agents && CanGrab(s.agents[n])
    case Stop(n) => n in s.agents && CanStop(s.agents[n])
    case Lose(n) => n in s.agents && !s.agents[n].beat.stage.Quiet?
    case Receive(n, _) => n in s.agents && CanReceive(s.agents[n])
    case Spawn(n) => n in s.agents && s.agents[n].spawn != []
    case Finish(n, j, _, _) => n in s.agents && InPhase(s.agents[n], j, true, false)
    case PostReturns(n, j) => n in s.agents && InPhase(s.agents[n], j, false, true)
    case Leave(n, j) => n in s.agents && InPhase(s.agents[n], j, false, false)
    case PostRead(i) => i in s.posts && s.posts[i].stage.Sent?
    case PostWrite(i) => i in s.posts && s.posts[i].stage.Read?
    case PostLost(i) => i in s.posts
    case DueRead(e) => e in s.due && s.due[e].Reread?
    case Settle(e) => e in s.due && !s.due[e].Reread?
    case Forget(e) => e in s.due
    case Sync(n, _) => n in s.agents
    case Crash(n) => n in s.agents
  }

  function Step(s: State, l: Label): State
    requires Enabled(s, l)
  {
    match l
    case Join(n, row) => With(s, n, Fresh(row))
    case Create(j, budget) => s.(rows := Jobs.Create(s.rows, j, budget))
    case Cancel(j) => AfterCancel(s, j)
    case ManualRetry(j) => s.(rows := Jobs.ManualRetry(s.rows, j))
    case Delete(j) => s.(rows := Jobs.Delete(s.rows, j))
    case Send(n, report, todo) => With(s, n, AfterSend(s.agents[n], report, todo))
    case AckRead(n) => With(s, n, AfterAckRead(s.agents[n], s.rows, n))
    case AckWrite(n) => AfterAckWrite(s, n)
    case OrphanRead(n, orphans) => With(s, n, AfterOrphanRead(s.agents[n], s.rows, n, orphans))
    case OrphanWrite(n) => AfterOrphanWrite(s, n)
    case Decide(n, env) => With(s, n, AfterDecide(s.agents[n], env))
    case Pick(n, j) => With(s, n, AfterPick(s.agents[n], j))
    case Grab(n) => AfterGrab(s, n)
    case Stop(n) => With(s, n, At(s.agents[n], Reported(s.agents[n].beat.stage.got)))
    case Lose(n) => With(s, n, s.agents[n].(beat := Idle()))
    case Receive(n, rebooting) => With(s, n, AfterReceive(s.agents[n], rebooting))
    case Spawn(n) => With(s, n, AfterSpawn(s.agents[n]))
    case Finish(n, j, ok, ran) =>
      Posted(With(s, n, AfterFinish(s.agents[n], j, s.nextPost, ran)), Post(n, j, s.agents[n].gor[j].epoch, ok, Sent))
    case PostReturns(n, j) => With(s, n, AfterReturn(s.agents[n], j))
    case Leave(n, j) => With(s, n, AfterLeave(s.agents[n], j))
    case PostRead(i) => AfterPostRead(s, i)
    case PostWrite(i) => AfterPostWrite(s, i)
    case PostLost(i) => s.(posts := s.posts - {i})
    case DueRead(e) => AfterDueRead(s, e)
    case Settle(e) => AfterSettle(s, e)
    case Forget(e) => s.(due := s.due - {e})
    case Sync(n, on) => With(s, n, s.agents[n].(syncing := on))
    case Crash(n) => With(s, n, AfterCrash(s.agents[n]))
  }

  /** What a step does to the job table. */
  function TableAfter(s: State, l: Label): Table
    requires Enabled(s, l)
  {
    match l
    case Create(j, budget) => Jobs.Create(s.rows, j, budget)
    case Cancel(j) => Jobs.Cancel(s.rows, j)
    case ManualRetry(j) => Jobs.ManualRetry(s.rows, j)
    case Delete(j) => Jobs.Delete(s.rows, j)
    case AckWrite(n) => Acknowledge(s.rows, s.agents[n].beat.stage.writing.value)
    case OrphanWrite(n) => FinishAny(s.rows, s.agents[n].beat.stage.orphans[0].job)
    case Grab(n) => Grabbed(s, n)
    case PostWrite(i) => FinishReport(s.rows, s.posts[i].job, s.posts[i].ok)
    case Settle(e) => Settled(s, e)
    case _ => s.rows
  }

  function Grabbed(s: State, n: NodeId): Table
    requires n in s.agents && CanGrab(s.agents[n])
  {
    var a := s.agents[n];
    if Assignable(s.rows, a.beat.stage.candidate.value, n, a.row.enabled, a.row.cap)
    then Assign(s.rows, a.beat.stage.candidate.value, n) else s.rows
  }

  function Settled(s: State, e: Ending): Table
    requires e in s.due
  {
    if s.due[e].Choose? && e.of.job in s.rows && MayRetry(s.rows[e.of.job].budget, s.due[e].retries)
    then Requeue(s.rows, e.of.job, s.due[e].retries + 1) else s.rows
  }

  lemma AckWriteTable(s: State, n: NodeId)
    requires n in s.agents && CanAckWrite(s.agents[n])
    ensures AfterAckWrite(s, n).rows == Acknowledge(s.rows, s.agents[n].beat.stage.writing.value)
  {
  }

  lemma OrphanWriteTable(s: State, n: NodeId)
    requires n in s.agents && CanOrphanWrite(s.agents[n])
    ensures AfterOrphanWrite(s, n).rows == FinishAny(s.rows, s.agents[n].beat.stage.orphans[0].job)
  {
  }

  lemma GrabTable(s: State, n: NodeId)
    requires n in s.agents && CanGrab(s.agents[n])
    ensures AfterGrab(s, n).rows == Grabbed(s, n)
  {
    hide ActiveOn, Assign;
  }

  lemma PostWriteTable(s: State, i: nat)
    requires i in s.posts && s.posts[i].stage.Read?
    ensures AfterPostWrite(s, i).rows == FinishReport(s.rows, s.posts[i].job, s.posts[i].ok)
  {
  }

  lemma SettleTable(s: State, e: Ending)
    requires e in s.due
    ensures AfterSettle(s, e).rows == Settled(s, e)
  {
  }

  lemma WriteTable(s: State, l: Label)
    requires Enabled(s, l) && (l.AckWrite? || l.OrphanWrite? || l.Grab? || l.PostWrite? || l.Settle?)
    ensures Step(s, l).rows == TableAfter(s, l)
  {
    hide AfterAckWrite, AfterOrphanWrite, AfterGrab, AfterPostWrite, AfterSettle, Grabbed, Settled;
    hide CanAckWrite, CanOrphanWrite, CanGrab, Acknowledge, FinishAny, FinishReport;
    match l
    case AckWrite(n) => AckWriteTable(s, n);
    case OrphanWrite(n) => OrphanWriteTable(s, n);
    case Grab(n) => GrabTable(s, n);
    case PostWrite(i) => PostWriteTable(s, i);
    case Settle(e) => SettleTable(s, e);
  }

  lemma ReadTable(s: State, l: Label)
    requires Enabled(s, l)
      && (l.Send? || l.AckRead? || l.OrphanRead? || l.Decide? || l.Pick? || l.Stop? || l.Lose? || l.Receive?)
    ensures Step(s, l).rows == s.rows
  {
    hide CanSend, CanAckRead, CanOrphanRead, CanDecide, CanPick, CanStop, CanReceive;
    hide AfterSend, AfterAckRead, AfterOrphanRead, AfterDecide, AfterPick, AfterReceive, Reported;
  }

  lemma AgentTable(s: State, l: Label)
    requires Enabled(s, l) && (l.Join? || l.Spawn? || l.Finish? || l.PostReturns? || l.Leave? || l.Sync? || l.Crash?)
    ensures Step(s, l).rows == s.rows
  {
    hide InPhase, AfterSpawn, AfterFinish, AfterReturn, AfterLeave, AfterCrash;
  }

  lemma StepTable(s: State, l: Label)
    requires Enabled(s, l)
    ensures Step(s, l).rows == TableAfter(s, l)
  {
    if l.AckWrite? || l.OrphanWrite? || l.Grab? || l.PostWrite? || l.Settle? {
      hide Step, Enabled, TableAfter;
      WriteTable(s, l);
    } else if l.Send? || l.AckRead? || l.OrphanRead? || l.Decide? || l.Pick? || l.Stop? || l.Lose? || l.Receive? {
      hide Step, Enabled;
      ReadTable(s, l);
    } else if l.Join? || l.Spawn? || l.Finish? || l.PostReturns? || l.Leave? || l.Sync? || l.Crash? {
      hide Step, Enabled;
      AgentTable(s, l);
    } else if l.Create? || l.Cancel? || l.ManualRetry? || l.Delete? {
      hide Step, Enabled, TableAfter;
      RowTable(s, l);
    } else {
      hide Step, Enabled;
      RestTable(s, l);
    }
  }

  lemma RestTable(s: State, l: Label)
    requires Enabled(s, l) && (l.PostRead? || l.PostLost? || l.DueRead? || l.Forget?)
    ensures Step(s, l).rows == s.rows
  {
  }

  lemma RowTable(s: State, l: Label)
    requires Enabled(s, l) && (l.Create? || l.Cancel? || l.ManualRetry? || l.Delete?)
    ensures Step(s, l).rows == TableAfter(s, l)
  {
    hide Jobs.Create, Jobs.Cancel, Jobs.ManualRetry, Jobs.Delete;
  }

  /** The labels can be taken one after the other from `s`, each allowed by `ok` where it is taken. */
  ghost predicate IsRun(s: State, ls: seq<Label>, ok: (State, Label) -> bool)
    decreases |ls|
  {
    ls == [] || (Enabled(s, ls[0]) && ok(s, ls[0]) && IsRun(Step(s, ls[0]), ls[1..], ok))
  }

  ghost function Final(s: State, ls: seq<Label>, ok: (State, Label) -> bool): State
    requires IsRun(s, ls, ok)
    decreases |ls|
  {
    if ls == [] then s else Final(Step(s, ls[0]), ls[1..], ok)
  }

  /** A run allowed by a condition is allowed by any weaker one. */
  lemma {:induction false} Weaken(s: State, ls: seq<Label>, ok: (State, Label) -> bool, ok2: (State, Label) -> bool)
    requires IsRun(s, ls, ok) && forall t, l :: ok(t, l) ==> ok2(t, l)
    ensures IsRun(s, ls, ok2) && Final(s, ls, ok2) == Final(s, ls, ok)
    decreases |ls|
  {
    hide Enabled, Step;
    if ls != [] {
      Weaken(Step(s, ls[0]), ls[1..], ok, ok2);
    }
  }

  /** Two runs, one from where the other ends, are one run. */
  lemma {:induction false} Chain(s: State, ls: seq<Label>, more: seq<Label>, ok: (State, Label) -> bool)
    requires IsRun(s, ls, ok) && IsRun(Final(s, ls, ok), more, ok)
    ensures IsRun(s, ls + more, ok) && Final(s, ls + more, ok) == Final(Final(s, ls, ok), more, ok)
    decreases |ls|
  {
    hide Enabled, Step;
    if ls == [] {
      assert ls + more == more;
    } else {
      Chain(Step(s, ls[0]), ls[1..], more, ok);
      assert (ls + more)[1..] == ls[1..] + more;
    }
  }

  /** No step is ruled out. */
  ghost predicate Any(s: State, l: Label) {
    true
  }
}
