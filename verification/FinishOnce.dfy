/**
 Finishing once: how often an assignment can end, and how often a retry or a notification can
 follow, under every interleaving of completions, orphan recovery, cancels and deletes.
 */
module FinishOnce {
  import opened Wrappers
  import opened Jobs
  import opened Registry
  import opened Fleet
  import Nodes

  /** The guard that the design notes describe for every finishing write: the row is still active. */
  ghost predicate FinishesLive(s: State, l: Label) {
    l.OrphanWrite? && Enabled(s, l) ==> var j := s.agents[l.n].beat.stage.orphans[0].job;
        Exists(s.rows, j) ==> ActiveIn(s.rows, j)
  }

  /** Each assignment ends at most once, and is followed by at most one retry or notification. */
  ghost predicate Once(s: State) {
    forall a :: s.ended[a] <= 1 && s.told[a] <= s.ended[a]
  }

  /** The last assignment of a row has ended exactly when the row is not active; later ones do not exist. */
  predicate RowTallies(ended: multiset<Assignment>, j: JobId, r: Row) {
    && (r.status.Active() ==> r.epoch >= 1)
    && (r.epoch >= 1 ==> ended[Assignment(j, r.epoch)] == if r.status.Active() then 0 else 1)
  }

  ghost predicate Bounded(t: Table, ended: multiset<Assignment>) {
    forall a :: a in ended ==> a.job in t && 1 <= a.epoch <= t[a.job].epoch
  }

  ghost predicate Tallied(s: State) {
    && Once(s)
    && (forall j :: j in s.rows ==> RowTallies(s.ended, j, s.rows[j]))
    && Bounded(s.rows, s.ended)
    && (forall e :: e in s.due ==> e.nth == 0 && s.ended[e.of] == 1 && s.told[e.of] == 0)
  }

  /** Rows read as orphans have been assigned before. */
  ghost predicate OrphansKnown(t: Table, agents: map<NodeId, Agent>) {
    forall n, p :: n in agents && agents[n].beat.stage.Orphaning? && p in agents[n].beat.stage.orphans ==>
      p.job in t && t[p.job].epoch >= 1
  }

  ghost predicate Inv(s: State) {
    Tallied(s) && OrphansKnown(s.rows, s.agents)
  }

  /** One row changed without ending or starting an assignment. */
  lemma RowTallied(s: State, s2: State, j: JobId)
    requires Tallied(s) && j in s2.rows && s2.rows == s.rows[j := s2.rows[j]] && s2.ended == s.ended
      && s2.told == s.told
    requires forall e :: e in s2.due ==> e in s.due
    requires if j in s.rows then s2.rows[j].epoch == s.rows[j].epoch
      && s2.rows[j].status.Active() == s.rows[j].status.Active()
             else s2.rows[j].epoch == 0 && !s2.rows[j].status.Active()
    ensures Tallied(s2)
  {
  }

  /** An active row stops being active, and that ends its assignment. */
  lemma EndTallied(s: State, s2: State, j: JobId)
    requires Tallied(s) && ActiveIn(s.rows, j) && j in s2.rows && s2.rows == s.rows[j := s2.rows[j]]
    requires s2.rows[j].epoch == s.rows[j].epoch && !s2.rows[j].status.Active()
    requires s2.ended == s.ended + multiset{Assignment(j, s.rows[j].epoch)} && s2.told == s.told
    requires forall e :: e in s2.due ==> e in s.due || e == Ending(Assignment(j, s.rows[j].epoch), 0)
    ensures Tallied(s2)
  {
    var a := Assignment(j, s.rows[j].epoch);
    assert RowTallies(s.ended, j, s.rows[j]);
    forall i | i in s2.rows ensures RowTallies(s2.ended, i, s2.rows[i]) {
      assert i != j ==> RowTallies(s.ended, i, s.rows[i]);
    }
  }

  lemma AssignTallied(s: State, s2: State, j: JobId)
    requires Tallied(s) && j in s.rows && !s.rows[j].status.Active() && j in s2.rows
      && s2.rows == s.rows[j := s2.rows[j]]
    requires s2.rows[j].epoch == s.rows[j].epoch + 1 && s2.rows[j].status.Active()
    requires s2.ended == s.ended && s2.told == s.told && s2.due == s.due
    ensures Tallied(s2)
  {
    forall i | i in s2.rows ensures RowTallies(s2.ended, i, s2.rows[i]) {
      assert i != j ==> RowTallies(s.ended, i, s.rows[i]);
      assert Assignment(j, s.rows[j].epoch + 1) !in s.ended;
    }
  }

  lemma SettleTallied(s: State, e: Ending)
    requires Tallied(s) && e in s.due
    ensures Tallied(AfterSettle(s, e))
  {
    var s2 := AfterSettle(s, e);
    var mid := s.(due := s.due - {e}, told := s.told + multiset{e.of});
    assert Tallied(mid);
    if s2.rows != s.rows {
      hide Once, Bounded;
      RowTallied(mid, s2, e.of.job);
    }
  }

  lemma CancelTallied(s: State, j: JobId)
    requires Tallied(s) && j in s.rows
    ensures Tallied(AfterCancel(s, j))
  {
    hide Tallied;
    if s.rows[j].status.Assigned? {
      EndTallied(s, AfterCancel(s, j), j);
    } else {
      RowTallied(s, AfterCancel(s, j), j);
    }
  }

  lemma TableTallied(s: State, l: Label)
    requires Tallied(s) && Enabled(s, l) && (l.Create? || l.ManualRetry? || l.Delete? || l.Cancel?)
    ensures Tallied(Step(s, l))
  {
    hide Tallied, AfterCancel;
    match l
    case Create(j, budget) => RowTallied(s, s.(rows := Jobs.Create(s.rows, j, budget)), j);
    case Cancel(j) => CancelTallied(s, j);
    case ManualRetry(j) => RowTallied(s, s.(rows := Jobs.ManualRetry(s.rows, j)), j);
    case Delete(j) => RowTallied(s, s.(rows := Jobs.Delete(s.rows, j)), j);
  }

  lemma NotYetEnded(s: State, j: JobId)
    requires Tallied(s) && ActiveIn(s.rows, j)
    ensures s.ended[Assignment(j, s.rows[j].epoch)] == 0
  {
    assert RowTallies(s.ended, j, s.rows[j]);
  }

  lemma PostWriteTallied(s: State, i: nat)
    requires Tallied(s) && i in s.posts && s.posts[i].stage.Read?
    ensures Tallied(AfterPostWrite(s, i))
  {
    if ActiveIn(s.rows, s.posts[i].job) {
      NotYetEnded(s, s.posts[i].job);
      hide Tallied;
      EndTallied(s, AfterPostWrite(s, i), s.posts[i].job);
    } else {
      hide Tallied;
      SameTallied(s, AfterPostWrite(s, i));
    }
  }

  lemma DueTallied(s: State, s2: State)
    requires Tallied(s) && s2 == s.(due := s2.due) && forall e :: e in s2.due ==> e in s.due
    ensures Tallied(s2)
  {
    hide Bounded, RowTallies;
  }

  lemma HandlerTallied(s: State, l: Label)
    requires Tallied(s) && Enabled(s, l) && (l.PostWrite? || l.DueRead? || l.Forget? || l.Settle?)
    ensures Tallied(Step(s, l))
  {
    hide Tallied, AfterPostWrite, AfterSettle;
    match l
    case PostWrite(i) => PostWriteTallied(s, i);
    case DueRead(e) => DueTallied(s, AfterDueRead(s, e));
    case Forget(e) => DueTallied(s, s.(due := s.due - {e}));
    case Settle(e) => SettleTallied(s, e);
  }

  lemma SameTallied(s: State, s2: State)
    requires Tallied(s) && s2.rows == s.rows && s2.ended == s.ended && s2.told == s.told && s2.due == s.due
    ensures Tallied(s2)
  {
    hide RowTallies, Bounded;
  }

  lemma AckWriteTallied(s: State, n: NodeId)
    requires Tallied(s) && n in s.agents && CanAckWrite(s.agents[n])
    ensures Tallied(AfterAckWrite(s, n))
  {
    var j := s.agents[n].beat.stage.writing.value;
    hide Tallied;
    if ActiveIn(s.rows, j) {
      RowTallied(s, AfterAckWrite(s, n), j);
    } else {
      SameTallied(s, AfterAckWrite(s, n));
    }
  }

  lemma OrphanWriteTallied(s: State, n: NodeId)
    requires Tallied(s) && n in s.agents && CanOrphanWrite(s.agents[n])
    requires var j := s.agents[n].beat.stage.orphans[0].job; Exists(s.rows, j) ==> ActiveIn(s.rows, j)
    ensures Tallied(AfterOrphanWrite(s, n))
  {
    var j := s.agents[n].beat.stage.orphans[0].job;
    if Exists(s.rows, j) {
      NotYetEnded(s, j);
      hide Tallied, Dropping;
      EndTallied(s, AfterOrphanWrite(s, n), j);
    } else {
      hide Tallied, Dropping;
      SameTallied(s, AfterOrphanWrite(s, n));
    }
  }

  lemma GrabTallied(s: State, n: NodeId)
    requires Tallied(s) && n in s.agents && CanGrab(s.agents[n])
    ensures Tallied(AfterGrab(s, n))
  {
    var a := s.agents[n];
    hide Tallied, ActiveOn, Granted, Reported;
    if Assignable(s.rows, a.beat.stage.candidate.value, n, a.row.enabled, a.row.cap) {
      AssignTallied(s, AfterGrab(s, n), a.beat.stage.candidate.value);
    } else {
      SameTallied(s, AfterGrab(s, n));
    }
  }

  lemma BeatTallied(s: State, l: Label)
    requires Tallied(s) && Enabled(s, l) && FinishesLive(s, l) && (l.AckWrite? || l.OrphanWrite? || l.Grab?)
    ensures Tallied(Step(s, l))
  {
    hide Tallied, AfterAckWrite, AfterOrphanWrite, AfterGrab;
    match l
    case AckWrite(n) => AckWriteTallied(s, n);
    case OrphanWrite(n) => OrphanWriteTallied(s, n);
    case Grab(n) => GrabTallied(s, n);
  }

  /** No other step touches the table, the tallies or what is due. */
  lemma OthersTallied(s: State, l: Label)
    requires Tallied(s) && Enabled(s, l)
    requires !l.Create? && !l.ManualRetry? && !l.Delete? && !l.Cancel? && !l.PostWrite? && !l.DueRead? && !l.Forget?
      && !l.Settle?
    requires !l.AckWrite? && !l.OrphanWrite? && !l.Grab?
    ensures Tallied(Step(s, l))
  {
    hide Tallied, CanSend, CanOrphanRead, AfterDecide, AfterReceive, AfterSpawn;
    SameTallied(s, Step(s, l));
  }

  /** Rows are never removed and their assignment count never falls. */
  ghost predicate Grows(t: Table, t2: Table) {
    forall j :: j in t ==> j in t2 && t2[j].epoch >= t[j].epoch
  }

  lemma RowsGrow(s: State, l: Label)
    requires Enabled(s, l)
    ensures Grows(s.rows, Step(s, l).rows)
  {
    StepTable(s, l);
    hide Step, Grows, Enabled;
    if l.Create? || l.Cancel? || l.ManualRetry? || l.Delete? {
      hide TableAfter;
      OperatorsGrow(s, l);
    } else if l.AckWrite? || l.OrphanWrite? || l.Grab? || l.PostWrite? || l.Settle? {
      hide TableAfter;
      HandlersGrow(s, l);
    } else {
      SameGrows(s.rows);
    }
  }

  lemma SameGrows(t: Table)
    ensures Grows(t, t)
  {
  }

  lemma OperatorsGrow(s: State, l: Label)
    requires Enabled(s, l) && (l.Create? || l.Cancel? || l.ManualRetry? || l.Delete?)
    ensures Grows(s.rows, TableAfter(s, l))
  {
  }

  lemma HandlersGrow(s: State, l: Label)
    requires Enabled(s, l) && (l.AckWrite? || l.OrphanWrite? || l.Grab? || l.PostWrite? || l.Settle?)
    ensures Grows(s.rows, TableAfter(s, l))
  {
    hide ActiveOn;
  }

  lemma DuesApart(s: State, l: Label)
    requires Enabled(s, l) && (l.DueRead? || l.Settle? || l.Forget?)
    ensures Step(s, l).agents == s.agents && Step(s, l).posts == s.posts
  {
    hide Requeue, MayRetry;
  }

  lemma TableApart(s: State, l: Label)
    requires Enabled(s, l)
    requires l.Create? || l.Cancel? || l.ManualRetry? || l.Delete?
    ensures Step(s, l).agents == s.agents && Step(s, l).posts == s.posts
  {
    hide Jobs.Create, Jobs.Cancel, Jobs.ManualRetry, Jobs.Delete;
  }

  /** The operators' statements and the retry decisions touch neither agents nor completions. */
  lemma OthersStay(s: State, l: Label)
    requires Enabled(s, l)
    requires l.Create? || l.Cancel? || l.ManualRetry? || l.Delete? || l.DueRead? || l.Settle? || l.Forget?
    ensures Step(s, l).agents == s.agents && Step(s, l).posts == s.posts
  {
    hide Step, Enabled;
    if l.DueRead? || l.Settle? || l.Forget? {
      DuesApart(s, l);
    } else {
      TableApart(s, l);
    }
  }

  ghost predicate Inherits(s: State, s2: State) {
    forall n, p :: n in s2.agents && s2.agents[n].beat.stage.Orphaning? && p in s2.agents[n].beat.stage.orphans ==>
      n in s.agents && s.agents[n].beat.stage.Orphaning? && p in s.agents[n].beat.stage.orphans
  }

  lemma PostInherits(s: State, l: Label)
    requires Enabled(s, l) && (l.PostRead? || l.PostWrite? || l.PostLost?)
    ensures Step(s, l).agents == s.agents
  {
    hide FinishReport;
  }

  lemma BeatInherits(s: State, l: Label)
    requires Enabled(s, l)
      && (l.Send? || l.AckRead? || l.AckWrite? || l.OrphanWrite? || l.Decide? || l.Pick? || l.Grab? || l.Stop?
      || l.Lose?)
    ensures Inherits(s, Step(s, l))
  {
    hide CanSend, ActiveOn, Nodes.Decide, Acknowledges, Assign, Assignable, FinishAny;
  }

  lemma AgentInherits(s: State, l: Label)
    requires Enabled(s, l)
      && (l.Join? || l.Receive? || l.Spawn? || l.Finish? || l.PostReturns? || l.Leave? || l.Sync? || l.Crash?)
    ensures Inherits(s, Step(s, l))
  {
    hide Accepted, JobsOf;
  }

  lemma OrphansInherited(s: State, l: Label)
    requires Enabled(s, l) && !l.OrphanRead?
    ensures Inherits(s, Step(s, l))
  {
    if l.Send? || l.AckRead? || l.AckWrite? || l.OrphanWrite? || l.Decide? || l.Pick? || l.Grab? || l.Stop? || l.Lose? {
      hide Step, Enabled, Inherits;
      BeatInherits(s, l);
    } else if l.Join? || l.Receive? || l.Spawn? || l.Finish? || l.PostReturns? || l.Leave? || l.Sync? || l.Crash? {
      hide Step, Enabled, Inherits;
      AgentInherits(s, l);
    } else if l.PostRead? || l.PostWrite? || l.PostLost? {
      hide Step, Enabled;
      PostInherits(s, l);
    } else if l.DueRead? || l.Settle? || l.Forget? {
      hide Step, Enabled;
      DuesApart(s, l);
    } else {
      hide Step, Enabled;
      TableApart(s, l);
    }
  }

  lemma OrphansReadKnown(s: State, n: NodeId, orphans: seq<Assignment>)
    requires Inv(s) && n in s.agents && CanOrphanRead(s.agents[n], s.rows, n, orphans)
    ensures OrphansKnown(s.rows, With(s, n, AfterOrphanRead(s.agents[n], s.rows, n, orphans)).agents)
  {
    forall p | p in orphans ensures p.job in s.rows && s.rows[p.job].epoch >= 1 {
      JobsOfMember(orphans, p.job);
      assert RowTallies(s.ended, p.job, s.rows[p.job]);
    }
  }

  lemma TalliedStep(s: State, l: Label)
    requires Inv(s) && Enabled(s, l) && FinishesLive(s, l)
    ensures Tallied(Step(s, l))
  {
    assert Tallied(s);
    hide Tallied, OrphansKnown, Enabled, Step, FinishesLive;
    match l
    case Create(_, _) | ManualRetry(_) | Delete(_) | Cancel(_) => TableTallied(s, l);
    case PostWrite(_) | DueRead(_) | Forget(_) | Settle(_) => HandlerTallied(s, l);
    case AckWrite(_) | OrphanWrite(_) | Grab(_) => BeatTallied(s, l);
    case _ => OthersTallied(s, l);
  }

  lemma KnownInherited(s: State, s2: State)
    requires OrphansKnown(s.rows, s.agents) && Inherits(s, s2) && Grows(s.rows, s2.rows)
    ensures OrphansKnown(s2.rows, s2.agents)
  {
  }

  lemma OrphanReadStep(s: State, l: Label)
    requires Inv(s) && l.OrphanRead? && Enabled(s, l)
    ensures OrphansKnown(Step(s, l).rows, Step(s, l).agents)
  {
    hide Tallied, OrphansKnown, CanOrphanRead;
    OrphansReadKnown(s, l.n, l.orphans);
  }

  lemma InvStep(s: State, l: Label)
    requires Inv(s) && Enabled(s, l) && FinishesLive(s, l)
    ensures Inv(Step(s, l))
  {
    TalliedStep(s, l);
    hide Tallied, OrphansKnown, Inherits, Grows, Enabled, Step, FinishesLive;
    if l.OrphanRead? {
      OrphanReadStep(s, l);
    } else {
      OrphansInherited(s, l);
      RowsGrow(s, l);
      KnownInherited(s, Step(s, l));
    }
  }

  lemma {:induction false} InvRun(s: State, ls: seq<Label>)
    requires Inv(s) && IsRun(s, ls, FinishesLive)
    ensures Inv(Final(s, ls, FinishesLive))
    decreases |ls|
  {
    hide Inv, Enabled, Step, FinishesLive;
    if ls != [] {
      InvStep(s, ls[0]);
      InvRun(Step(s, ls[0]), ls[1..]);
    }
  }

  /** Over every run in which orphan failures find active rows, each assignment ends once and is told of once. */
  lemma FinishesOnce(ls: seq<Label>)
    requires IsRun(INITIAL, ls, FinishesLive)
    ensures Once(Final(INITIAL, ls, FinishesLive))
  {
    InvRun(INITIAL, ls);
  }

  /**
   The condition is exact: after such a run, the next orphan failure keeps "once" if and only if
   the row it hits is active or gone.
   */
  lemma FinishesOnceIff(ls: seq<Label>, n: NodeId)
    requires IsRun(INITIAL, ls, FinishesLive)
    requires var s := Final(INITIAL, ls, FinishesLive); n in s.agents && CanOrphanWrite(s.agents[n])
    ensures var s := Final(INITIAL, ls, FinishesLive); var j := s.agents[n].beat.stage.orphans[0].job;
            Once(AfterOrphanWrite(s, n)) <==> (ActiveIn(s.rows, j) || !Exists(s.rows, j))
  {
    InvRun(INITIAL, ls);
    hide Enabled, Step, FinishesLive;
    OrphanWriteIff(Final(INITIAL, ls, FinishesLive), n);
  }

  lemma OrphanWriteIff(s: State, n: NodeId)
    requires Inv(s) && n in s.agents && CanOrphanWrite(s.agents[n])
    ensures var j := s.agents[n].beat.stage.orphans[0].job;
            Once(AfterOrphanWrite(s, n)) <==> (ActiveIn(s.rows, j) || !Exists(s.rows, j))
  {
    var p := s.agents[n].beat.stage.orphans[0];
    var s2 := AfterOrphanWrite(s, n);
    assert p in s.agents[n].beat.stage.orphans;
    if !Exists(s.rows, p.job) {
      assert Once(s2);
    } else if ActiveIn(s.rows, p.job) {
      NotYetEnded(s, p.job);
      EndTallied(s, s2, p.job);
    } else {
      assert RowTallies(s.ended, p.job, s.rows[p.job]);
      assert s2.ended[Assignment(p.job, s.rows[p.job].epoch)] == 2;
    }
  }

  // ---- whole runs ----

  /** What has ended has ended. */
  ghost predicate Later(s: State, s2: State) {
    forall a :: s.ended[a] <= s2.ended[a]
  }

  lemma EndsStay(s: State, l: Label)
    requires Enabled(s, l)
    ensures Later(s, Step(s, l))
  {
    hide ActiveOn, CanSend, CanOrphanRead, Nodes.Decide, Accepted, JobsOf;
  }

  lemma {:induction false} EndsStayRun(s: State, ls: seq<Label>)
    requires IsRun(s, ls, Any)
    ensures Later(s, Final(s, ls, Any))
    decreases |ls|
  {
    hide Enabled, Step;
    if ls != [] {
      EndsStay(s, ls[0]);
      EndsStayRun(Step(s, ls[0]), ls[1..]);
    }
  }

  lemma DeadFinishShows(s: State, l: Label)
    requires Inv(s) && Enabled(s, l) && !FinishesLive(s, l)
    ensures exists a :: Step(s, l).ended[a] == 2
  {
    var j := s.agents[l.n].beat.stage.orphans[0].job;
    var p := s.agents[l.n].beat.stage.orphans[0];
    assert p in s.agents[l.n].beat.stage.orphans;
    assert RowTallies(s.ended, j, s.rows[j]);
    assert Step(s, l).ended[Assignment(j, s.rows[j].epoch)] == 2;
  }

  lemma {:induction false} OnceNeedsLive(s: State, ls: seq<Label>)
    requires Inv(s) && IsRun(s, ls, Any) && Once(Final(s, ls, Any))
    ensures IsRun(s, ls, FinishesLive)
    decreases |ls|
  {
    hide Inv, Enabled, Step, FinishesLive;
    if ls != [] {
      var s2 := Step(s, ls[0]);
      if FinishesLive(s, ls[0]) {
        InvStep(s, ls[0]);
        OnceNeedsLive(s2, ls[1..]);
      } else {
        DeadFinishShows(s, ls[0]);
        EndsStayRun(s2, ls[1..]);
      }
    }
  }

  /**
   Exactly: a run ends every assignment at most once, and tells of each end at most once, if and
   only if all its orphan failures hit rows that are active or gone.
   */
  lemma OnceIffLive(ls: seq<Label>)
    requires IsRun(INITIAL, ls, Any)
    ensures Once(Final(INITIAL, ls, Any)) <==> IsRun(INITIAL, ls, FinishesLive)
  {
    assert Inv(INITIAL);
    hide Enabled, Step, FinishesLive, Once, Inv;
    if IsRun(INITIAL, ls, FinishesLive) {
      FinishesOnce(ls);
      Weaken(INITIAL, ls, FinishesLive, Any);
    }
    if Once(Final(INITIAL, ls, Any)) {
      OnceNeedsLive(INITIAL, ls);
    }
  }

  /**
   Whatever happens, a terminal row is left alone by every step but a retry, a delete, the requeue
   of a failed row, and the unguarded orphan failure, which leaves it failed.
   */
  lemma TerminalStays(s: State, l: Label, j: JobId)
    requires Enabled(s, l) && j in s.rows && s.rows[j].status.Terminal()
    ensures j in Step(s, l).rows
    ensures || Step(s, l).rows[j] == s.rows[j] || l == ManualRetry(j) || l == Delete(j)
            || (l.Settle? && l.e.of.job == j && s.rows[j].status.Failed? && Step(s, l).rows[j].status.Pending?)
            || (l.OrphanWrite? && !FinishesLive(s, l) && Step(s, l).rows[j] == s.rows[j].(status := Failed))
  {
    StepTable(s, l);
    hide Step, ActiveOn, CanSend, CanOrphanRead;
  }
}
