/**
 The job table shared by all controllers, as the store's guarded statements change it. Each
 function is one committed statement.
 */
module Jobs {
  import opened Wrappers

  type JobId = nat
  type NodeId = nat

  /** `Deleted` stands for a row that is gone: identifiers are never reused. */
  datatype Status = Pending | Assigned | Running | Done | Failed | Cancelled | Deleted {
    predicate Active() {
      Assigned? || Running?
    }

    predicate Terminal() {
      Done? || Failed? || Cancelled?
    }
  }

  /**
   A job row. `node` is 0 when the job is on no node, `gated` says that a retry gate is stamped,
   `budget` is the flow's MaxRetries. `epoch` numbers the assignments of the job; no column holds
   it, it only serves to state properties.
   */
  datatype Row = Row(status: Status, node: NodeId, retries: int, gated: bool, budget: int, epoch: nat)

  /** One assignment of a job: what a payload hands to an agent. */
  datatype Assignment = Assignment(job: JobId, epoch: nat)

  type Table = map<JobId, Row>

  predicate Exists(t: Table, j: JobId) {
    j in t && !t[j].status.Deleted?
  }

  predicate ActiveIn(t: Table, j: JobId) {
    j in t && t[j].status.Active()
  }

  /** The assigned and running jobs of a node. */
  function ActiveOn(t: Table, n: NodeId): set<JobId> {
    set j | j in t && t[j].node == n && t[j].status.Active()
  }

  function Capacity(cap: int): int {
    if cap < 1 then 1 else cap
  }

  function Create(t: Table, j: JobId, budget: int): Table {
    t[j := Row(Pending, 0, 0, false, budget, 0)]
  }

  /** AssignJob: enabled node, free slot, and the row still pending; otherwise nothing changes. */
  predicate Assignable(t: Table, j: JobId, n: NodeId, enabled: bool, cap: int) {
    enabled && |ActiveOn(t, n)| < Capacity(cap) && j in t && t[j].status.Pending?
  }

  function Assign(t: Table, j: JobId, n: NodeId): Table
    requires j in t
  {
    t[j := t[j].(status := Assigned, node := n, epoch := t[j].epoch + 1)]
  }

  /** UpdateJobStatus with a report of "running": guarded by the active states, not by the node. */
  function Acknowledge(t: Table, j: JobId): Table {
    if ActiveIn(t, j) then t[j := t[j].(status := Running)] else t
  }

  /** FinishJobWithReport: guarded by the active states. */
  function FinishReport(t: Table, j: JobId, ok: bool): Table {
    if ActiveIn(t, j) then t[j := t[j].(status := if ok then Done else Failed)] else t
  }

  /** FinishJob with "failed": the statement is guarded by the identifier alone. */
  function FinishAny(t: Table, j: JobId): Table {
    if Exists(t, j) then t[j := t[j].(status := Failed)] else t
  }

  /** ScheduleJobRetry: guarded by the failed state. */
  function Requeue(t: Table, j: JobId, retries: int): Table {
    if j in t && t[j].status.Failed?
      then t[j := t[j].(status := Pending, node := 0, retries := retries, gated := true)] else t
  }

  /** RetryJob, the operator's retry: any terminal row, or a pending one behind its gate. */
  function ManualRetry(t: Table, j: JobId): Table {
    if j in t && (t[j].status.Terminal() || (t[j].status.Pending? && t[j].gated))
    then t[j := t[j].(status := Pending, node := 0, retries := 0, gated := false)] else t
  }

  /** CancelJob: guarded by pending and assigned. */
  function Cancel(t: Table, j: JobId): Table {
    if j in t && (t[j].status.Pending? || t[j].status.Assigned?) then t[j := t[j].(status := Cancelled)] else t
  }

  /** DeleteJob: guarded by the terminal states. */
  function Delete(t: Table, j: JobId): Table {
    if j in t && t[j].status.Terminal() then t[j := t[j].(status := Deleted)] else t
  }

  /** The shared retry decision: a positive budget that the read retry count has not used up. */
  predicate MayRetry(budget: int, retries: int) {
    budget > 0 && retries < budget
  }
}
