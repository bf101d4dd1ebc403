/**
 AssignJob as the transaction it is: lock the node row, count, flip the job if it is pending,
 commit. Any number of transactions of any number of controllers interleave, each started with a
 candidate that may be stale, while jobs finish and operators change caps.
 */
module Assignment {
  import opened Wrappers
  import opened Jobs

  type TxId = nat

  /** What a transaction has done so far; `Flipped` holds the job row's lock until it ends. */
  datatype Progress = Begun | Locked(enabled: bool, cap: int) | Counted(cap: int, active: nat)
      | Flipped(cap: int, active: nat)

  datatype Tx = Tx(node: NodeId, job: JobId, progress: Progress)

  /** A node row; FOR UPDATE lets one transaction at a time hold it, and updates of the row wait for it. */
  datatype Node = Node(enabled: bool, cap: int, holder: Option<TxId>)

  datatype Event = Given(job: JobId, node: NodeId) | Left(job: JobId)

  /** The committed tables, the open transactions, and the history of active states. */
  datatype State = State(rows: Table, nodes: map<NodeId, Node>, txs: map<TxId, Tx>, log: seq<Event>)

  datatype Label =
    | Begin(t: TxId, n: NodeId, j: JobId) | Lock(t: TxId) | Count(t: TxId) | Flip(t: TxId) | Commit(t: TxId)
        | Rollback(t: TxId)
    | Create(j: JobId) | Ack(j: JobId) | End(j: JobId, ok: bool) | Orphan(j: JobId)
    | CancelJob(j: JobId) | Requeue(j: JobId) | Delete(j: JobId)
    | SetCap(n: NodeId, cap: int) | SetEnabled(n: NodeId, on: bool) | AddNode(n: NodeId, cap: int)

  predicate NodeFree(s: State, n: NodeId) {
    n in s.nodes && s.nodes[n].holder.None?
  }

  /** No transaction holds the row lock of job `j`. */
  predicate JobFree(s: State, j: JobId) {
    forall t :: t in s.txs && s.txs[t].progress.Flipped? ==> s.txs[t].job != j
  }

  predicate Enabled(s: State, l: Label) {
    match l
    case Begin(t, _, _) => t !in s.txs
    case Lock(t) => t in s.txs && s.txs[t].progress.Begun? && NodeFree(s, s.txs[t].node)
    case Count(t) => t in s.txs && s.txs[t].progress.Locked?
    case Flip(t) => t in s.txs && s.txs[t].progress.Counted? && JobFree(s, s.txs[t].job)
    case Commit(t) => t in s.txs && s.txs[t].progress.Flipped?
    case Rollback(t) => t in s.txs
    case Create(j) => j !in s.rows
    case Ack(j) => JobFree(s, j)
    case End(j, _) => JobFree(s, j)
    case Orphan(j) => JobFree(s, j)
    case CancelJob(j) => JobFree(s, j)
    case Requeue(j) => JobFree(s, j)
    case Delete(j) => JobFree(s, j)
    case SetCap(n, _) => NodeFree(s, n)
    case SetEnabled(n, _) => NodeFree(s, n)
    case AddNode(n, cap) => n !in s.nodes && cap <= 8
  }

  /** The transaction ends; its locks go with it. */
  function Release(s: State, t: TxId): State
    requires t in s.txs
  {
    var n := s.txs[t].node;
    var s2 := s.(txs := s.txs - {t});
    if n in s.nodes && s.nodes[n].holder == Some(t) then s2.(nodes := s.nodes[n := s.nodes[n].(holder := None)]) else s2
  }

  function Progressed(s: State, t: TxId, p: Progress): State
    requires t in s.txs
  {
    s.(txs := s.txs[t := s.txs[t].(progress := p)])
  }

  /** The job leaves the active states if it was in them. */
  function Ended(s: State, j: JobId, t: Table): State {
    s.(rows := t, log := if ActiveIn(s.rows, j) && !ActiveIn(t, j) then s.log + [Left(j)] else s.log)
  }

  function AfterCount(s: State, t: TxId): State
    requires Enabled(s, Count(t))
  {
    var tx := s.txs[t];
    var active := |ActiveOn(s.rows, tx.node)|;
    if !tx.progress.enabled || active >= Capacity(tx.progress.cap) then Release(s, t)
    else Progressed(s, t, Counted(tx.progress.cap, active))
  }

  function AfterFlip(s: State, t: TxId): State
    requires Enabled(s, Flip(t))
  {
    var tx := s.txs[t];
    if tx.job in s.rows && s.rows[tx.job].status.Pending?
      then Progressed(s, t, Flipped(tx.progress.cap, tx.progress.active))
    else Release(s, t)
  }

  function AfterCommit(s: State, t: TxId): State
    requires t in s.txs && s.txs[t].job in s.rows
  {
    var tx := s.txs[t];
    Release(s.(rows := Assign(s.rows, tx.job, tx.node), log := s.log + [Given(tx.job, tx.node)]), t)
  }

  /** The operator's cap is clamped to 1..8. */
  function Clamped(cap: int): (r: int)
    ensures 1 <= r <= 8 && (1 <= cap <= 8 ==> r == cap)
    ensures cap < 1 ==> r == 1
  {
    if cap < 1 then 1 else if cap > 8 then 8 else cap
  }

  predicate Possible(s: State, l: Label) {
    Enabled(s, l) && (l.Commit? ==> s.txs[l.t].job in s.rows)
  }

  function Step(s: State, l: Label): State
    requires Possible(s, l)
  {
    match l
    case Begin(t, n, j) => s.(txs := s.txs[t := Tx(n, j, Begun)])
    case Lock(t) =>
      var n := s.txs[t].node;
      Progressed(s.(nodes := s.nodes[n := s.nodes[n].(holder := Some(t))]), t,
          Locked(s.nodes[n].enabled, s.nodes[n].cap))
    case Count(t) => AfterCount(s, t)
    case Flip(t) => AfterFlip(s, t)
    case Commit(t) => AfterCommit(s, t)
    case Rollback(t) => Release(s, t)
    case Create(j) => s.(rows := Jobs.Create(s.rows, j, 0))
    case Ack(j) => s.(rows := Acknowledge(s.rows, j))
    case End(j, ok) => Ended(s, j, FinishReport(s.rows, j, ok))
    case Orphan(j) => Ended(s, j, FinishAny(s.rows, j))
    case CancelJob(j) => Ended(s, j, Jobs.Cancel(s.rows, j))
    case Requeue(j) => s.(rows := ManualRetry(s.rows, j))
    case Delete(j) => s.(rows := Jobs.Delete(s.rows, j))
    case SetCap(n, cap) => s.(nodes := s.nodes[n := s.nodes[n].(cap := Clamped(cap))])
    case SetEnabled(n, on) => s.(nodes := s.nodes[n := s.nodes[n].(enabled := on)])
    case AddNode(n, cap) => s.(nodes := s.nodes[n := Node(true, cap, None)])
  }

  const INITIAL := State(map[], map[], map[], [])

  ghost predicate IsRun(s: State, ls: seq<Label>)
    decreases |ls|
  {
    ls == [] || (Possible(s, ls[0]) && IsRun(Step(s, ls[0]), ls[1..]))
  }

  ghost function Final(s: State, ls: seq<Label>): State
    requires IsRun(s, ls)
    decreases |ls|
  {
    if ls == [] then s else Final(Step(s, ls[0]), ls[1..])
  }

  // ---- the invariant ----

  /** A transaction past the lock holds its node row, and what it read there still stands. */
  ghost predicate Holding(s: State, t: TxId, tx: Tx) {
    tx.progress.Begun? ||
    (&& tx.node in s.nodes && s.nodes[tx.node].holder == Some(t)
     && s.nodes[tx.node].cap == tx.progress.cap
     && (tx.progress.Locked? ==> s.nodes[tx.node].enabled == tx.progress.enabled)
     && (tx.progress.Counted? || tx.progress.Flipped? ==>
           s.nodes[tx.node].enabled && |ActiveOn(s.rows, tx.node)| <= tx.progress.active < Capacity(tx.progress.cap))
     && (tx.progress.Flipped? ==> tx.job in s.rows && s.rows[tx.job].status.Pending?))
  }

  ghost predicate Holdings(s: State) {
    forall t :: t in s.txs ==> Holding(s, t, s.txs[t])
  }

  /** No two open transactions have flipped the same job. */
  ghost predicate Apart(txs: map<TxId, Tx>) {
    forall t, u :: t in txs && u in txs && t != u && txs[t].progress.Flipped? && txs[u].progress.Flipped? ==>
      txs[t].job != txs[u].job
  }

  ghost predicate Small(t: Table, n: NodeId) {
    |ActiveOn(t, n)| <= 8
  }

  ghost predicate Caps(s: State) {
    && (forall n :: n in s.nodes ==> s.nodes[n].cap <= 8)
    && (forall n :: Small(s.rows, n))
  }

  /** The job was given out at `i` and has not left since. */
  ghost predicate OutSince(log: seq<Event>, j: JobId, i: nat) {
    i < |log| && log[i].Given? && log[i].job == j && forall k :: i < k < |log| ==> log[k] != Left(j)
  }

  /** Between two assignments of a job it left the active states. */
  ghost predicate Alternates(log: seq<Event>) {
    forall i, k :: 0 <= i < k < |log| && log[i].Given? && log[k].Given? && log[i].job == log[k].job ==>
      exists m :: i < m < k && log[m] == Left(log[i].job)
  }

  /** A job that is out is active. */
  ghost predicate LogOk(t: Table, log: seq<Event>) {
    Alternates(log) && forall j, i :: OutSince(log, j, i) ==> ActiveIn(t, j)
  }

  ghost predicate Inv(s: State) {
    Holdings(s) && Apart(s.txs) && Caps(s) && LogOk(s.rows, s.log)
  }

  // ---- counting ----

  lemma AssignCounts(t: Table, j: JobId, n: NodeId, m: NodeId)
    requires j in t && t[j].status.Pending?
    ensures ActiveOn(Assign(t, j, n), m) == if m == n then ActiveOn(t, m) + {j} else ActiveOn(t, m)
    ensures j !in ActiveOn(t, m)
  {
  }

  lemma FewerActive(t: Table, t2: Table, n: NodeId)
    requires forall j :: ActiveIn(t2, j) ==> ActiveIn(t, j) && t2[j].node == t[j].node
    ensures |ActiveOn(t2, n)| <= |ActiveOn(t, n)|
  {
    assert ActiveOn(t2, n) <= ActiveOn(t, n);
    assert ActiveOn(t, n) == ActiveOn(t2, n) + (ActiveOn(t, n) - ActiveOn(t2, n));
  }

  // ---- the history ----

  lemma LogGiven(t: Table, log: seq<Event>, j: JobId, n: NodeId)
    requires LogOk(t, log) && j in t && !t[j].status.Active()
    ensures LogOk(Assign(t, j, n), log + [Given(j, n)])
  {
    var log2 := log + [Given(j, n)];
    forall i, k | 0 <= i < k < |log2| && log2[i].Given? && log2[k].Given? && log2[i].job == log2[k].job
      ensures exists m :: i < m < k && log2[m] == Left(log2[i].job)
    {
      if k < |log| {
        var m :| i < m < k && log[m] == Left(log[i].job);
        assert log2[m] == log[m];
      } else {
        assert !OutSince(log, j, i);
        var m :| i < m < |log| && log[m] == Left(j);
        assert log2[m] == log[m];
      }
    }
    forall i: nat, c | OutSince(log2, c, i) ensures ActiveIn(Assign(t, j, n), c) {
      if i < |log| {
        assert forall k :: i < k < |log| ==> log2[k] == log[k];
        assert OutSince(log, c, i);
      }
    }
  }

  lemma LogLeft(t: Table, t2: Table, log: seq<Event>, j: JobId)
    requires LogOk(t, log) && forall c :: c != j && ActiveIn(t, c) ==> ActiveIn(t2, c)
    ensures LogOk(t2, log + [Left(j)])
  {
    var log2 := log + [Left(j)];
    forall i, k | 0 <= i < k < |log2| && log2[i].Given? && log2[k].Given? && log2[i].job == log2[k].job
      ensures exists m :: i < m < k && log2[m] == Left(log2[i].job)
    {
      var m :| i < m < k && log[m] == Left(log[i].job);
      assert log2[m] == log[m];
    }
    forall i: nat, c | OutSince(log2, c, i) ensures ActiveIn(t2, c) {
      assert i < |log| && log2[|log|] == Left(j);
      assert forall k :: i < k < |log| ==> log2[k] == log[k];
      assert OutSince(log, c, i);
    }
  }

  // ---- the steps ----

  /** The tables stay and locks are only given up: what other transactions rely on still stands. */
  lemma ReleaseStep(s: State, t: TxId)
    requires Inv(s) && t in s.txs
    ensures Inv(Release(s, t))
  {
    hide LogOk, Small;
    var s2 := Release(s, t);
    forall u | u in s2.txs ensures Holding(s2, u, s2.txs[u]) {
      assert Holding(s, u, s.txs[u]);
    }
  }

  /** A transaction moves on by itself. */
  lemma ProgressStep(s: State, t: TxId, p: Progress)
    requires Inv(s) && t in s.txs && Holding(s, t, s.txs[t].(progress := p))
    requires p.Flipped? ==> JobFree(s, s.txs[t].job)
    ensures Inv(Progressed(s, t, p))
  {
    hide LogOk, Small;
    var s2 := Progressed(s, t, p);
    forall u | u in s2.txs ensures Holding(s2, u, s2.txs[u]) {
      assert u != t ==> Holding(s, u, s.txs[u]);
    }
  }

  lemma BeginStep(s: State, t: TxId, n: NodeId, j: JobId)
    requires Inv(s) && t !in s.txs
    ensures Inv(s.(txs := s.txs[t := Tx(n, j, Begun)]))
  {
    hide LogOk, Small;
    var s2 := s.(txs := s.txs[t := Tx(n, j, Begun)]);
    forall u | u in s2.txs ensures Holding(s2, u, s2.txs[u]) {
      assert u != t ==> Holding(s, u, s.txs[u]);
    }
  }

  /** A node row that no transaction holds may change. */
  lemma NodeStep(s: State, n: NodeId, node: Node)
    requires Inv(s) && (n in s.nodes ==> s.nodes[n].holder.None?) && node.cap <= 8
    ensures Inv(s.(nodes := s.nodes[n := node]))
  {
    hide LogOk, Small;
    var s2 := s.(nodes := s.nodes[n := node]);
    forall u | u in s2.txs ensures Holding(s2, u, s2.txs[u]) {
      assert Holding(s, u, s.txs[u]);
    }
  }

  lemma LockStep(s: State, t: TxId)
    requires Inv(s) && Enabled(s, Lock(t))
    ensures Inv(Step(s, Lock(t)))
  {
    var n := s.txs[t].node;
    assert Holding(s, t, s.txs[t]) && s.nodes[n].cap <= 8;
    hide Inv;
    NodeStep(s, n, s.nodes[n].(holder := Some(t)));
    ProgressStep(s.(nodes := s.nodes[n := s.nodes[n].(holder := Some(t))]), t,
        Locked(s.nodes[n].enabled, s.nodes[n].cap));
  }

  lemma CountStep(s: State, t: TxId)
    requires Inv(s) && Enabled(s, Count(t))
    ensures Inv(AfterCount(s, t))
  {
    var tx := s.txs[t];
    assert Holding(s, t, tx);
    hide Inv, ActiveOn;
    if !tx.progress.enabled || |ActiveOn(s.rows, tx.node)| >= Capacity(tx.progress.cap) {
      ReleaseStep(s, t);
    } else {
      ProgressStep(s, t, Counted(tx.progress.cap, |ActiveOn(s.rows, tx.node)|));
    }
  }

  lemma FlipStep(s: State, t: TxId)
    requires Inv(s) && Enabled(s, Flip(t))
    ensures Inv(AfterFlip(s, t))
  {
    var tx := s.txs[t];
    assert Holding(s, t, tx);
    hide Inv, ActiveOn, JobFree;
    if tx.job in s.rows && s.rows[tx.job].status.Pending? {
      ProgressStep(s, t, Flipped(tx.progress.cap, tx.progress.active));
    } else {
      ReleaseStep(s, t);
    }
  }

  /** Fewer jobs are active, none of them one that a transaction has flipped. */
  lemma RowStep(s: State, s2: State, j: JobId)
    requires Inv(s) && s2.nodes == s.nodes && s2.txs == s.txs && JobFree(s, j)
    requires j in s2.rows && s2.rows == s.rows[j := s2.rows[j]]
    requires ActiveIn(s2.rows, j) ==> ActiveIn(s.rows, j) && s2.rows[j].node == s.rows[j].node
    requires LogOk(s2.rows, s2.log)
    ensures Inv(s2)
  {
    hide LogOk;
    forall n ensures |ActiveOn(s2.rows, n)| <= |ActiveOn(s.rows, n)| {
      FewerActive(s.rows, s2.rows, n);
    }
    forall n ensures Small(s2.rows, n) {
      assert Small(s.rows, n);
    }
    hide ActiveOn;
    forall u | u in s2.txs ensures Holding(s2, u, s2.txs[u]) {
      assert Holding(s, u, s.txs[u]);
    }
  }

  /** What each statement on one job does to its row. */
  predicate OneRow(t: Table, t2: Table, j: JobId) {
    t2 == t || (j in t2 && t2 == t[j := t2[j]] && (ActiveIn(t2, j) ==> ActiveIn(t, j) && t2[j].node == t[j].node))
  }

  lemma EndIsOneRow(s: State, l: Label)
    requires Enabled(s, l) && (l.Ack? || l.End? || l.Orphan? || l.CancelJob?)
    ensures OneRow(s.rows, Step(s, l).rows, l.j)
    ensures ActiveIn(s.rows, l.j) && !ActiveIn(Step(s, l).rows, l.j) ==> Step(s, l).log == s.log + [Left(l.j)]
    ensures !(ActiveIn(s.rows, l.j) && !ActiveIn(Step(s, l).rows, l.j)) ==> Step(s, l).log == s.log
    ensures Step(s, l).nodes == s.nodes && Step(s, l).txs == s.txs
  {
    hide JobFree;
  }

  lemma RestIsOneRow(s: State, l: Label)
    requires Enabled(s, l) && (l.Create? || l.Requeue? || l.Delete?)
    ensures OneRow(s.rows, Step(s, l).rows, l.j) && Step(s, l).log == s.log
    ensures ActiveIn(s.rows, l.j) ==> Step(s, l).rows == s.rows
    ensures Step(s, l).nodes == s.nodes && Step(s, l).txs == s.txs
  {
    hide JobFree;
  }

  /** A job row may be locked by a transaction that flips it; a new row is not. */
  lemma NewIsFree(s: State, j: JobId)
    requires Inv(s) && j !in s.rows
    ensures JobFree(s, j)
  {
    hide LogOk, Caps, Apart;
    forall t | t in s.txs && s.txs[t].progress.Flipped? ensures s.txs[t].job != j {
      assert Holding(s, t, s.txs[t]);
    }
  }

  lemma JobStep(s: State, l: Label)
    requires Inv(s) && Enabled(s, l)
    requires l.Create? || l.Ack? || l.End? || l.Orphan? || l.CancelJob? || l.Requeue? || l.Delete?
    ensures Inv(Step(s, l))
  {
    var s2 := Step(s, l);
    var j := l.j;
    if l.Create? {
      NewIsFree(s, j);
    }
    assert JobFree(s, j);
    if l.Ack? || l.End? || l.Orphan? || l.CancelJob? {
      EndIsOneRow(s, l);
    } else {
      RestIsOneRow(s, l);
    }
    hide Step, Enabled, JobFree;
    RowInv(s, s2, j);
  }

  lemma RowInv(s: State, s2: State, j: JobId)
    requires Inv(s) && s2.nodes == s.nodes && s2.txs == s.txs && JobFree(s, j) && OneRow(s.rows, s2.rows, j)
    requires if ActiveIn(s.rows, j) && !ActiveIn(s2.rows, j) then s2.log == s.log + [Left(j)] else s2.log == s.log
    ensures Inv(s2)
  {
    if s2.rows == s.rows {
      assert s2 == s;
    } else {
      assert LogOk(s2.rows, s2.log) by {
        if ActiveIn(s.rows, j) && !ActiveIn(s2.rows, j) {
          LogLeft(s.rows, s2.rows, s.log, j);
        } else {
          LogSame(s.rows, s2.rows, s.log, j);
        }
      }
      hide Inv, LogOk, JobFree;
      RowStep(s, s2, j);
    }
  }

  lemma LogSame(t: Table, t2: Table, log: seq<Event>, j: JobId)
    requires LogOk(t, log) && forall c :: ActiveIn(t, c) ==> ActiveIn(t2, c)
    ensures LogOk(t2, log)
  {
    hide Alternates;
  }

  /**
   The commit point: from there on the node's active jobs are still within its cap, and the whole
   transaction has been one atomic assignment of a pending job to an enabled node with a free slot.
   */
  lemma CommitIsAtomic(s: State, t: TxId)
    requires Inv(s) && Enabled(s, Commit(t))
    ensures var tx := s.txs[t]; var node := s.nodes[tx.node];
            && Assignable(s.rows, tx.job, tx.node, node.enabled, node.cap)
            && AfterCommit(s, t).rows == Assign(s.rows, tx.job, tx.node)
            && |ActiveOn(AfterCommit(s, t).rows, tx.node)| <= Capacity(node.cap)
  {
    var tx := s.txs[t];
    assert Holding(s, t, tx);
    AssignCounts(s.rows, tx.job, tx.node, tx.node);
  }

  lemma CommitStep(s: State, t: TxId)
    requires Inv(s) && Enabled(s, Commit(t))
    ensures Inv(AfterCommit(s, t))
  {
    var tx := s.txs[t];
    var mid := s.(rows := Assign(s.rows, tx.job, tx.node), log := s.log + [Given(tx.job, tx.node)]);
    CommitIsAtomic(s, t);
    LogGiven(s.rows, s.log, tx.job, tx.node);
    var s2 := Release(mid, t);
    forall n ensures Small(s2.rows, n) {
      AssignCounts(s.rows, tx.job, tx.node, n);
      assert Small(s.rows, n) && s.nodes[tx.node].cap <= 8;
    }
    hide LogOk, Small;
    forall u | u in s2.txs ensures Holding(s2, u, s2.txs[u]) {
      CommitHolds(s, t, u);
    }
  }

  /** Another transaction past the lock is on another node, and flipped another job. */
  lemma CommitHolds(s: State, t: TxId, u: TxId)
    requires Inv(s) && Enabled(s, Commit(t)) && u in s.txs && u != t
    ensures Holding(AfterCommit(s, t), u, s.txs[u])
  {
    assert Holding(s, t, s.txs[t]) && Holding(s, u, s.txs[u]);
    AssignCounts(s.rows, s.txs[t].job, s.txs[t].node, s.txs[u].node);
    hide LogOk, Caps, ActiveOn;
  }

  lemma InvStep(s: State, l: Label)
    requires Inv(s) && Possible(s, l)
    ensures Inv(Step(s, l))
  {
    hide Inv, AfterCount, AfterFlip, AfterCommit, JobFree;
    match l
    case Begin(t, n, j) => BeginStep(s, t, n, j);
    case Lock(t) => LockStep(s, t);
    case Count(t) => CountStep(s, t);
    case Flip(t) => FlipStep(s, t);
    case Commit(t) => CommitStep(s, t);
    case Rollback(t) => ReleaseStep(s, t);
    case Create(_) | Ack(_) | End(_, _) | Orphan(_) | CancelJob(_) | Requeue(_) | Delete(_) => JobStep(s, l);
    case SetCap(n, cap) => NodeStep(s, n, s.nodes[n].(cap := Clamped(cap)));
    case SetEnabled(n, on) => SetEnabledStep(s, n, on);
    case AddNode(n, cap) => NodeStep(s, n, Node(true, cap, None));
  }

  lemma SetEnabledStep(s: State, n: NodeId, on: bool)
    requires Inv(s) && NodeFree(s, n)
    ensures Inv(s.(nodes := s.nodes[n := s.nodes[n].(enabled := on)]))
  {
    assert s.nodes[n].cap <= 8;
    hide Inv;
    NodeStep(s, n, s.nodes[n].(enabled := on));
  }

  lemma {:induction false} InvRun(s: State, ls: seq<Label>)
    requires Inv(s) && IsRun(s, ls)
    ensures Inv(Final(s, ls))
    decreases |ls|
  {
    hide Inv, Possible, Step;
    if ls != [] {
      InvStep(s, ls[0]);
      InvRun(Step(s, ls[0]), ls[1..]);
    }
  }

  lemma InitialOk()
    ensures Inv(INITIAL)
  {
    forall n ensures Small(INITIAL.rows, n) {
      assert ActiveOn(INITIAL.rows, n) == {};
    }
  }

  /**
   No job is assigned twice without leaving the active states in between, and no node ever has more
   than eight active jobs.
   */
  lemma NeverAssignedTwice(ls: seq<Label>, n: NodeId)
    requires IsRun(INITIAL, ls)
    ensures Alternates(Final(INITIAL, ls).log) && |ActiveOn(Final(INITIAL, ls).rows, n)| <= 8
  {
    InitialOk();
    InvRun(INITIAL, ls);
    assert Small(Final(INITIAL, ls).rows, n);
  }

  /**
   Refinement: in every run, the only transaction step that changes the job table is the commit,
   and it is the atomic assignment; it leaves the node within its current cap.
   */
  lemma TransactionIsAtomic(ls: seq<Label>, l: Label)
    requires IsRun(INITIAL, ls) && Possible(Final(INITIAL, ls), l)
    requires l.Begin? || l.Lock? || l.Count? || l.Flip? || l.Commit? || l.Rollback?
    ensures var s := Final(INITIAL, ls); var s2 := Step(s, l);
            if l.Commit? then
              var tx := s.txs[l.t];
              && tx.node in s.nodes
                && Assignable(s.rows, tx.job, tx.node, s.nodes[tx.node].enabled, s.nodes[tx.node].cap)
              && s2.rows == Assign(s.rows, tx.job, tx.node)
              && |ActiveOn(s2.rows, tx.node)| <= Capacity(s2.nodes[tx.node].cap)
            else s2.rows == s.rows
  {
    InitialOk();
    InvRun(INITIAL, ls);
    var s := Final(INITIAL, ls);
    if l.Commit? {
      assert Holding(s, l.t, s.txs[l.t]);
      CommitIsAtomic(s, l.t);
    }
    hide Inv, IsRun, Final, INITIAL, ActiveOn;
  }

  /**
   A transaction left alone succeeds: if its node is free and enabled with a slot, and its job pending
   and free, then lock, count, flip and commit can follow each other, and the job is assigned.
   */
  lemma GoesThrough(s: State, t: TxId)
    requires Enabled(s, Lock(t)) && JobFree(s, s.txs[t].job)
    requires var tx := s.txs[t]; var node := s.nodes[tx.node];
             && tx.job in s.rows && s.rows[tx.job].status.Pending? && node.enabled
             && (|ActiveOn(s.rows, tx.node)| == 0 || |ActiveOn(s.rows, tx.node)| < node.cap)
    ensures var ls := [Lock(t), Count(t), Flip(t), Commit(t)]; var tx := s.txs[t];
            && IsRun(s, ls) && tx.job in Final(s, ls).rows
            && Final(s, ls).rows[tx.job].status.Assigned? && Final(s, ls).rows[tx.job].node == tx.node
            && t !in Final(s, ls).txs && NodeFree(Final(s, ls), tx.node)
  {
    var tx := s.txs[t];
    var s1 := Step(s, Lock(t));
    assert s1.rows == s.rows;
    var s2 := Step(s1, Count(t));
    assert s2.txs[t].progress.Counted? && s2.rows == s.rows;
    assert JobFree(s2, tx.job);
    var s3 := Step(s2, Flip(t));
    assert s3.txs[t].progress.Flipped? && s3.rows == s.rows;
    var s4 := Step(s3, Commit(t));
    var ls := [Lock(t), Count(t), Flip(t), Commit(t)];
    assert ls[1..] == [Count(t), Flip(t), Commit(t)] && ls[1..][1..] == [Flip(t), Commit(t)];
    assert [Flip(t), Commit(t)][1..] == [Commit(t)] && [Commit(t)][1..] == [];
    hide Enabled, Step, JobFree;
    assert IsRun(s4, []) && Final(s4, []) == s4;
    assert IsRun(s3, [Commit(t)]) && Final(s3, [Commit(t)]) == s4;
    assert IsRun(s2, [Flip(t), Commit(t)]) && Final(s2, [Flip(t), Commit(t)]) == s4;
    assert IsRun(s1, ls[1..]) && Final(s1, ls[1..]) == s4;
  }
}
