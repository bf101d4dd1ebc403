/** The automatic retry budget: how often one job can be assigned, and when a retry becomes due. */
module RetryBudget {
  import opened Jobs
  import opened Fleet
  import opened Runs
  import Epochs

  // ---- the backoff gate ----

  const MINUTE: int := 60_000_000_000
  const DAY: int := 1440 * MINUTE

  /** The product of two signed 64-bit values, as the hardware computes it. */
  function Mul64(a: int, b: int): int {
    var m := (a * b) % 0x1_0000_0000_0000_0000;
    if m >= 0x8000_0000_0000_0000 then m - 0x1_0000_0000_0000_0000 else m
  }

  /** The delay before a failed job is assignable again, in nanoseconds: clamp the minutes, then multiply. */
  method Backoff(configured: int) returns (delay: int)
    ensures MINUTE <= delay <= DAY && delay % MINUTE == 0
    ensures 1 <= configured <= 1440 ==> delay == configured * MINUTE
    ensures delay == Mul64(delay / MINUTE, MINUTE)
  {
    var minutes := configured;
    if minutes <= 0 {
      minutes := 1;
    }
    if minutes > 1440 {
      minutes := 1440;
    }
    delay := Mul64(minutes, MINUTE);
  }

  /** Without the clamp the product can be negative: the gate would lie in the past. */
  lemma UnclampedOverflows()
    ensures Mul64(999_999_999_999, MINUTE) < 0
  {
  }

  // ---- the number of assignments ----

  function Budget(r: Row): int {
    if r.budget > 0 then r.budget else 0
  }

  /** A handler still owes a retry decision for the job. */
  predicate Owes(due: map<Ending, Due>, j: JobId, e: Ending) {
    e in due && e.of.job == j && !due[e].Announce?
  }

  ghost predicate Owing(due: map<Ending, Due>, j: JobId) {
    exists e :: Owes(due, j, e)
  }

  /** An orphan failure, when it comes, hits no row for which a decision is owed. */
  ghost predicate Spares(s: State, l: Label) {
    l.OrphanWrite? && Enabled(s, l) ==> var j := s.agents[l.n].beat.stage.orphans[0].job;
        Exists(s.rows, j) ==> !Owing(s.due, j)
  }

  /**
   No operator's retry, completions that end the assignment they report, and orphan failures that
   hit no row for which a decision is owed.
   */
  ghost predicate Frugal(s: State, l: Label) {
    Matches(s, l) && !l.ManualRetry? && Spares(s, l)
  }

  /** The assignments that automatic retries can still give the row, counting one that is pending. */
  function Ahead(r: Row): int {
    Budget(r) - r.retries + if r.status.Pending? then 1 else 0
  }

  /** The assignments that one decision can still lead to; a decision not yet read will read the row's count. */
  function Cost(r: Row, d: Due): int {
    var count := if d.Choose? then d.retries else r.retries;
    if count < Budget(r) then Budget(r) - count else 0
  }

  /**
   A decision owed fits the budget; with `once`, the row has failed or is gone and the decision
   knows its retry count.
   */
  predicate Fits(r: Row, d: Due, once: bool) {
    && (d.Choose? ==> 0 <= d.retries)
    && (r.status.Failed? ==> r.epoch + Cost(r, d) <= Budget(r) + 1)
    && (r.status.Pending? || r.status.Active() ==> r.epoch + Ahead(r) + Cost(r, d) <= Budget(r) + 1)
    && (once ==> r.status.Failed? || r.status.Deleted?)
    && (once && d.Choose? && r.status.Failed? ==> d.retries == r.retries)
  }

  /** Two decisions owed for one row fit the budget together. */
  predicate FitTogether(r: Row, d: Due, d2: Due) {
    || r.status.Deleted?
    || (&& r.status.Failed? && r.epoch + Cost(r, d) + Cost(r, d2) <= Budget(r) + 1
        && (!d.Choose? && d2.Choose? ==> d2.retries >= r.retries))
  }

  ghost predicate Singly(r: Row, due: map<Ending, Due>, j: JobId, once: bool) {
    forall e :: Owes(due, j, e) ==> Fits(r, due[e], once)
  }

  ghost predicate Pairwise(r: Row, due: map<Ending, Due>, j: JobId, once: bool) {
    forall e, f :: Owes(due, j, e) && Owes(due, j, f) && e != f ==> !once && FitTogether(r, due[e], due[f])
  }

  /** No three decisions. */
  ghost predicate AtMostTwo(due: map<Ending, Due>, j: JobId) {
    forall e, f, g :: Owes(due, j, e) && Owes(due, j, f) && Owes(due, j, g) ==> e == f || f == g || e == g
  }

  /**
   What was assigned and what can still come fits the budget, whichever decisions are taken. With
   `once` there is at most one decision.
   */
  ghost predicate Sound(r: Row, due: map<Ending, Due>, j: JobId, once: bool) {
    && 0 <= r.retries <= Budget(r) && r.epoch + Ahead(r) <= Budget(r) + 1
    && Singly(r, due, j, once) && Pairwise(r, due, j, once)
    && (!r.status.Deleted? ==> AtMostTwo(due, j))
  }

  ghost predicate Account(t: Table, due: map<Ending, Due>, j: JobId, once: bool) {
    if j in t then Sound(t[j], due, j, once) else !Owing(due, j)
  }

  /** A completion handler that read the row of a live assignment read its retry count. */
  predicate Counted(t: Table, p: Post) {
    p.job in t && p.stage.Read? && t[p.job].status.Active() && t[p.job].epoch == p.epoch ==>
        p.stage.retries == t[p.job].retries
  }

  ghost predicate Accounts(t: Table, due: map<Ending, Due>, once: bool) {
    forall j :: Account(t, due, j, once)
  }

  predicate Posts(t: Table, posts: map<nat, Post>) {
    forall i :: i in posts ==> Counted(t, posts[i])
  }

  ghost predicate Inv(s: State, once: bool) {
    Accounts(s.rows, s.due, once) && Posts(s.rows, s.posts)
  }

  // ---- one row and its decisions ----

  /** The row changes and no decision is added; what it may still cost does not grow. */
  lemma RowSound(r: Row, r2: Row, due: map<Ending, Due>, j: JobId, once: bool)
    requires Sound(r, due, j, once) && r2.budget == r.budget && r2.retries == r.retries
    requires r2.epoch + Ahead(r2) <= r.epoch + Ahead(r)
    requires if r2.status.Pending? || r2.status.Active() then r.status.Pending? || r.status.Active()
             else r2.status.Deleted? || (r2.status.Cancelled? && !r.status.Failed? && !r.status.Deleted?)
    ensures Sound(r2, due, j, once)
  {
    forall e | Owes(due, j, e) ensures Fits(r2, due[e], once) {
      assert Fits(r, due[e], once);
    }
    assert !r2.status.Deleted? ==> !r.status.Failed? && !r.status.Deleted?;
    hide AtMostTwo;
  }

  /** The row fails: by its completion, or as an orphan for which nothing is owed. */
  lemma FailSound(r: Row, due: map<Ending, Due>, j: JobId, once: bool, e: Ending, d: Due)
    requires Sound(r, due, j, once) && e.of.job == j && !r.status.Deleted?
    requires (d.Reread? && !Owing(due, j)) || (d == Choose(r.retries) && r.status.Active())
    ensures Sound(r.(status := Failed), due[e := d], j, once)
  {
    var r2, due2 := r.(status := Failed), due[e := d];
    assert forall f :: Owes(due2, j, f) && f != e ==> Owes(due, j, f) && due2[f] == due[f];
    forall f | Owes(due2, j, f) ensures Fits(r2, due2[f], once) {
      if f != e {
        assert Owes(due, j, f) && Fits(r, due[f], once);
      }
    }
    forall f, g | Owes(due2, j, f) && Owes(due2, j, g) && f != g
      ensures !once && FitTogether(r2, due2[f], due2[g]) {
      var h := if f == e then g else f;
      assert Owes(due, j, h) && Fits(r, due[h], once);
      assert r.status.Active() && (f != e && g != e ==> !FitTogether(r, due[f], due[g]));
    }
    OneMore(r, due, j, once, e, d);
  }

  lemma OneMore(r: Row, due: map<Ending, Due>, j: JobId, once: bool, e: Ending, d: Due)
    requires Pairwise(r, due, j, once)
    requires !Owing(due, j) || (!r.status.Deleted? && !r.status.Failed?) || once
    ensures AtMostTwo(due[e := d], j)
  {
    var due2 := due[e := d];
    forall f, g, h | Owes(due2, j, f) && Owes(due2, j, g) && Owes(due2, j, h) ensures f == g || g == h || f == h {
      assert f != e ==> Owes(due, j, f);
      assert g != e ==> Owes(due, j, g);
      assert h != e ==> Owes(due, j, h);
    }
  }

  /** The row is done, and its handler has no retry to decide. */
  lemma DoneSound(r: Row, due: map<Ending, Due>, j: JobId, once: bool, e: Ending)
    requires Sound(r, due, j, once) && r.status.Active()
    ensures Sound(r.(status := Done), due[e := Announce], j, once)
  {
    var r2, due2 := r.(status := Done), due[e := Announce];
    assert forall f :: Owes(due2, j, f) ==> Owes(due, j, f) && due2[f] == due[f];
    forall f | Owes(due2, j, f) ensures Fits(r2, due2[f], once) {
      assert Fits(r, due[f], once);
    }
    forall f, g | Owes(due2, j, f) && Owes(due2, j, g) ensures f == g {
      assert f != g ==> FitTogether(r, due[f], due[g]);
    }
  }

  /** A decision is dropped. */
  lemma DropSound(r: Row, due: map<Ending, Due>, j: JobId, once: bool, e: Ending)
    requires Sound(r, due, j, once)
    ensures Sound(r, due - {e}, j, once)
  {
    var due2 := due - {e};
    assert forall f :: Owes(due2, j, f) ==> Owes(due, j, f) && due2[f] == due[f];
    hide Fits, FitTogether;
  }

  /** A decision learns the row's retry count. */
  lemma ReadSound(r: Row, due: map<Ending, Due>, j: JobId, once: bool, e: Ending)
    requires Sound(r, due, j, once) && Owes(due, j, e) && due[e].Reread? && !r.status.Deleted?
    ensures Sound(r, due[e := Choose(r.retries)], j, once)
  {
    var due2 := due[e := Choose(r.retries)];
    assert forall f :: Owes(due2, j, f) ==> Owes(due, j, f) && Cost(r, due2[f]) == Cost(r, due[f]);
    forall f | Owes(due2, j, f) ensures Fits(r, due2[f], once) {
      assert Fits(r, due[f], once);
    }
    forall f, g | Owes(due2, j, f) && Owes(due2, j, g) && f != g
      ensures !once && FitTogether(r, due2[f], due2[g]) {
      assert FitTogether(r, due[f], due[g]);
    }
  }

  /** A decision to retry: the failed row is requeued with the count the decision read, and one more. */
  lemma RequeueSound(r: Row, due: map<Ending, Due>, j: JobId, once: bool, e: Ending)
    requires Sound(r, due, j, once) && Owes(due, j, e) && due[e].Choose? && r.status.Failed?
    requires MayRetry(r.budget, due[e].retries)
    ensures Sound(r.(status := Pending, node := 0, retries := due[e].retries + 1, gated := true), due - {e}, j, once)
  {
    var r2 := r.(status := Pending, node := 0, retries := due[e].retries + 1, gated := true);
    var due2 := due - {e};
    assert Fits(r, due[e], once);
    forall f | Owes(due2, j, f) ensures Fits(r2, due2[f], once) {
      assert Owes(due, j, f) && f != e;
      assert Fits(r, due[f], once) && FitTogether(r, due[e], due[f]) && FitTogether(r, due[f], due[e]);
    }
    forall f, g | Owes(due2, j, f) && Owes(due2, j, g) ensures f == g {
      assert Owes(due, j, f) && Owes(due, j, g) && f != e && g != e;
    }
  }

  // ---- the steps ----

  /** What is said of a job depends on its row and its decisions alone; fewer decisions are fine. */
  lemma AccountSame(t: Table, t2: Table, due: map<Ending, Due>, due2: map<Ending, Due>, j: JobId, once: bool)
    requires Account(t, due, j, once) && (j in t2 <==> j in t) && (j in t ==> t2[j] == t[j])
    requires forall e :: e in due2 && e.of.job == j ==> e in due && due2[e] == due[e]
    ensures Account(t2, due2, j, once)
  {
    assert forall e :: Owes(due2, j, e) ==> Owes(due, j, e) && due2[e] == due[e];
    hide Fits, FitTogether;
  }

  /** One row changed; the decisions owed and the completions read for that job have to be looked at. */
  lemma JobStep(s: State, s2: State, j: JobId, once: bool)
    requires Inv(s, once) && j in s2.rows && s2.rows == s.rows[j := s2.rows[j]] && Sound(s2.rows[j], s2.due, j, once)
    requires forall e :: e in s2.due && e.of.job != j ==> e in s.due && s2.due[e] == s.due[e]
    requires forall i :: i in s2.posts ==> i in s.posts && s2.posts[i] == s.posts[i]
    requires forall i :: i in s2.posts && s2.posts[i].job == j ==> Counted(s2.rows, s2.posts[i])
    ensures Inv(s2, once)
  {
    hide Sound;
    forall k ensures Account(s2.rows, s2.due, k, once) {
      if k != j {
        assert Account(s.rows, s.due, k, once);
        hide Account;
        AccountSame(s.rows, s2.rows, s.due, s2.due, k, once);
      }
    }
    forall i | i in s2.posts ensures Counted(s2.rows, s2.posts[i]) {
      assert Counted(s.rows, s.posts[i]);
    }
  }

  lemma SoundOf(s: State, j: JobId, once: bool)
    requires Inv(s, once) && j in s.rows
    ensures Sound(s.rows[j], s.due, j, once)
    ensures forall i :: i in s.posts ==> Counted(s.rows, s.posts[i])
  {
    hide Sound;
    assert Account(s.rows, s.due, j, once);
  }

  lemma CreateStep(s: State, j: JobId, budget: int, once: bool)
    requires Inv(s, once) && j !in s.rows
    ensures Inv(s.(rows := Jobs.Create(s.rows, j, budget)), once)
  {
    assert Account(s.rows, s.due, j, once);
    assert forall e :: !Owes(s.due, j, e);
    var s2 := s.(rows := Jobs.Create(s.rows, j, budget));
    assert Sound(s2.rows[j], s2.due, j, once);
    hide Inv, Sound;
    JobStep(s, s2, j, once);
  }

  /** A statement that touches one row and no decision. */
  lemma RowStep(s: State, s2: State, j: JobId, once: bool)
    requires Inv(s, once) && j in s.rows && j in s2.rows
      && s2 == s.(rows := s.rows[j := s2.rows[j]], agents := s2.agents, ended := s2.ended)
    requires var r, r2 := s.rows[j], s2.rows[j];
             && r2.budget == r.budget && r2.retries == r.retries && r2.epoch + Ahead(r2) <= r.epoch + Ahead(r)
             && if r2.status.Pending? || r2.status.Active() then r.status.Pending? || r.status.Active()
                else r2.status.Deleted? || (r2.status.Cancelled? && !r.status.Failed? && !r.status.Deleted?)
    requires forall i :: i in s2.posts && s2.posts[i].job == j ==> Counted(s2.rows, s2.posts[i])
    ensures Inv(s2, once)
  {
    SoundOf(s, j, once);
    hide Inv, Sound;
    RowSound(s.rows[j], s2.rows[j], s.due, j, once);
    JobStep(s, s2, j, once);
  }

  lemma CancelStep(s: State, j: JobId, once: bool)
    requires Inv(s, once) && j in s.rows
    ensures Inv(AfterCancel(s, j), once)
  {
    if s.rows[j].status.Pending? || s.rows[j].status.Assigned? {
      hide Inv;
      RowStep(s, AfterCancel(s, j), j, once);
    }
  }

  lemma DeleteStep(s: State, j: JobId, once: bool)
    requires Inv(s, once) && j in s.rows
    ensures Inv(s.(rows := Jobs.Delete(s.rows, j)), once)
  {
    if s.rows[j].status.Terminal() {
      hide Inv;
      RowStep(s, s.(rows := Jobs.Delete(s.rows, j)), j, once);
    }
  }

  lemma AckWriteStep(s: State, n: NodeId, once: bool)
    requires Inv(s, once) && n in s.agents && CanAckWrite(s.agents[n])
    ensures Inv(AfterAckWrite(s, n), once)
  {
    var j := s.agents[n].beat.stage.writing.value;
    if ActiveIn(s.rows, j) {
      SoundOf(s, j, once);
      hide Inv, Sound;
      RowStep(s, AfterAckWrite(s, n), j, once);
    }
  }

  /** The state after a successful assignment. */
  function Given(s: State, n: NodeId, j: JobId): State
    requires n in s.agents && CanGrab(s.agents[n]) && j in s.rows
  {
    With(s.(rows := Assign(s.rows, j, n)), n, Granted(s.agents[n], Assignment(j, s.rows[j].epoch + 1)))
  }

  lemma GiveStep(s: State, n: NodeId, j: JobId, once: bool)
    requires Inv(s, once) && n in s.agents && CanGrab(s.agents[n]) && j in s.rows && s.rows[j].status.Pending?
    requires forall i :: i in s.posts && s.posts[i].job == j ==> s.posts[i].epoch <= s.rows[j].epoch
    ensures Inv(Given(s, n, j), once)
  {
    hide Inv, Granted;
    RowStep(s, Given(s, n, j), j, once);
  }

  lemma GrabStep(s: State, n: NodeId, once: bool)
    requires Inv(s, once) && Epochs.Inv(s) && n in s.agents && CanGrab(s.agents[n])
    ensures Inv(AfterGrab(s, n), once)
  {
    var a := s.agents[n];
    hide Epochs.AgentOld, ActiveOn;
    if Assignable(s.rows, a.beat.stage.candidate.value, n, a.row.enabled, a.row.cap) {
      assert Epochs.PostsOld(s.rows, s.posts);
      hide Inv;
      GiveStep(s, n, a.beat.stage.candidate.value, once);
    }
  }

  lemma OrphanWriteStep(s: State, n: NodeId, once: bool)
    requires Inv(s, once) && n in s.agents && CanOrphanWrite(s.agents[n])
    requires var j := s.agents[n].beat.stage.orphans[0].job; Exists(s.rows, j) ==> !Owing(s.due, j)
    ensures Inv(AfterOrphanWrite(s, n), once)
  {
    var j := s.agents[n].beat.stage.orphans[0].job;
    if Exists(s.rows, j) {
      SoundOf(s, j, once);
      var p := Assignment(j, s.rows[j].epoch);
      hide Inv, Sound, Dropping, Owing;
      FailSound(s.rows[j], s.due, j, once, Ending(p, s.ended[p]), Reread);
      JobStep(s, AfterOrphanWrite(s, n), j, once);
    }
  }

  lemma PostWriteStep(s: State, i: nat, once: bool)
    requires Inv(s, once) && i in s.posts && s.posts[i].stage.Read? && Matches(s, PostWrite(i))
    ensures Inv(AfterPostWrite(s, i), once)
  {
    var j := s.posts[i].job;
    if ActiveIn(s.rows, j) {
      SoundOf(s, j, once);
      assert Counted(s.rows, s.posts[i]);
      var p := Assignment(j, s.rows[j].epoch);
      hide Inv, Sound;
      if s.posts[i].ok {
        DoneSound(s.rows[j], s.due, j, once, Ending(p, s.ended[p]));
      } else {
        FailSound(s.rows[j], s.due, j, once, Ending(p, s.ended[p]), Choose(s.posts[i].stage.retries));
      }
      JobStep(s, AfterPostWrite(s, i), j, once);
    }
  }

  /** Decisions are dropped, and nothing else changes that matters here. */
  lemma DropStep(s: State, s2: State, once: bool)
    requires Inv(s, once) && s2.rows == s.rows && s2.posts == s.posts
    requires forall e :: e in s2.due ==> e in s.due && s2.due[e] == s.due[e]
    ensures Inv(s2, once)
  {
    forall k ensures Account(s2.rows, s2.due, k, once) {
      assert Account(s.rows, s.due, k, once);
      hide Account, Accounts, Posts;
      AccountSame(s.rows, s2.rows, s.due, s2.due, k, once);
    }
    hide Account;
  }

  lemma SettleStep(s: State, e: Ending, once: bool)
    requires Inv(s, once) && e in s.due && !s.due[e].Reread?
    ensures Inv(AfterSettle(s, e), once)
  {
    var s2 := AfterSettle(s, e);
    var j := e.of.job;
    if s2.rows == s.rows {
      hide Inv;
      DropStep(s, s2, once);
    } else {
      SoundOf(s, j, once);
      assert Owes(s.due, j, e);
      hide Inv, Sound, Owes;
      RequeueSound(s.rows[j], s.due, j, once, e);
      JobStep(s, s2, j, once);
    }
  }

  lemma DueReadStep(s: State, e: Ending, once: bool)
    requires Inv(s, once) && e in s.due && s.due[e].Reread?
    ensures Inv(AfterDueRead(s, e), once)
  {
    var s2 := AfterDueRead(s, e);
    var j := e.of.job;
    if Exists(s.rows, j) {
      SoundOf(s, j, once);
      assert Owes(s.due, j, e);
      hide Inv, Sound, Owes;
      ReadSound(s.rows[j], s.due, j, once, e);
      JobStep(s, s2, j, once);
    } else {
      hide Inv;
      DropStep(s, s2, once);
    }
  }

  lemma PostReadStep(s: State, i: nat, once: bool)
    requires Inv(s, once) && i in s.posts
    ensures Inv(AfterPostRead(s, i), once)
  {
    hide Accounts;
  }

  lemma PostStep(s: State, s2: State, once: bool)
    requires Inv(s, once) && s2.rows == s.rows && s2.due == s.due
    requires forall i :: i in s2.posts ==> s2.posts[i].stage.Sent? || (i in s.posts && s2.posts[i] == s.posts[i])
    ensures Inv(s2, once)
  {
    hide Accounts;
  }

  lemma WriteStep(s: State, l: Label, once: bool)
    requires Inv(s, once) && Epochs.Inv(s) && Enabled(s, l) && Frugal(s, l)
    requires l.Create? || l.Cancel? || l.Delete? || l.AckWrite? || l.OrphanWrite? || l.Grab?
    ensures Inv(Step(s, l), once)
  {
    hide Inv, Epochs.Inv, AfterAckWrite, AfterOrphanWrite, AfterGrab, AfterCancel, Owing;
    match l
    case Create(j, budget) => CreateStep(s, j, budget, once);
    case Cancel(j) => CancelStep(s, j, once);
    case Delete(j) => DeleteStep(s, j, once);
    case AckWrite(n) => AckWriteStep(s, n, once);
    case OrphanWrite(n) => OrphanWriteStep(s, n, once);
    case Grab(n) => GrabStep(s, n, once);
  }

  lemma HandlerStep(s: State, l: Label, once: bool)
    requires Inv(s, once) && Enabled(s, l) && Frugal(s, l)
    requires l.PostRead? || l.PostWrite? || l.PostLost? || l.DueRead? || l.Settle? || l.Forget?
    ensures Inv(Step(s, l), once)
  {
    hide Inv, AfterPostRead, AfterPostWrite, AfterSettle, AfterDueRead;
    match l
    case PostRead(i) => PostReadStep(s, i, once);
    case PostWrite(i) => PostWriteStep(s, i, once);
    case PostLost(i) => PostStep(s, s.(posts := s.posts - {i}), once);
    case DueRead(e) => DueReadStep(s, e, once);
    case Settle(e) => SettleStep(s, e, once);
    case Forget(e) => DropStep(s, s.(due := s.due - {e}), once);
  }

  lemma BeatStep(s: State, l: Label, once: bool)
    requires Inv(s, once) && Enabled(s, l)
    requires l.Send? || l.AckRead? || l.OrphanRead? || l.Decide? || l.Pick? || l.Stop? || l.Lose? || l.Receive?
    ensures Inv(Step(s, l), once)
  {
    hide Inv, CanSend, CanAckRead, CanOrphanRead, CanDecide, CanPick, CanStop, CanReceive;
    hide AfterSend, AfterAckRead, AfterOrphanRead, AfterDecide, AfterPick, AfterReceive, Reported;
    PostStep(s, Step(s, l), once);
  }

  lemma AgentStep(s: State, l: Label, once: bool)
    requires Inv(s, once) && Enabled(s, l)
    requires l.Join? || l.Spawn? || l.Finish? || l.PostReturns? || l.Leave? || l.Sync? || l.Crash?
    ensures Inv(Step(s, l), once)
  {
    hide Inv, InPhase, AfterSpawn, AfterFinish, AfterReturn, AfterLeave, AfterCrash;
    PostStep(s, Step(s, l), once);
  }

  lemma InvStep(s: State, l: Label, once: bool)
    requires Inv(s, once) && Epochs.Inv(s) && Enabled(s, l) && Frugal(s, l)
    ensures Inv(Step(s, l), once)
  {
    hide Inv, Epochs.Inv, Enabled, Step, Matches, Spares;
    match l
    case Create(_, _) | Cancel(_) | Delete(_) | AckWrite(_) | OrphanWrite(_) | Grab(_) => WriteStep(s, l, once);
    case PostRead(_) | PostWrite(_) | PostLost(_) | DueRead(_) | Settle(_) | Forget(_) => HandlerStep(s, l, once);
    case Send(_, _, _) | AckRead(_) | OrphanRead(_, _) | Decide(_, _) | Pick(_, _) | Stop(_) | Lose(_)
      | Receive(_, _) => BeatStep(s, l, once);
    case Join(_, _) | Spawn(_) | Finish(_, _, _, _) | PostReturns(_, _) | Leave(_, _) | Sync(_, _)
      | Crash(_) => AgentStep(s, l, once);
    case ManualRetry(_) =>
  }

  lemma {:induction false} InvRun(s: State, ls: seq<Label>, once: bool)
    requires Inv(s, once) && Epochs.Inv(s) && IsRun(s, ls, Frugal)
    ensures Inv(Final(s, ls, Frugal), once) && Epochs.Inv(Final(s, ls, Frugal))
    decreases |ls|
  {
    hide Inv, Epochs.Inv, Enabled, Step, Frugal;
    if ls != [] {
      InvStep(s, ls[0], once);
      Epochs.InvStep(s, ls[0]);
      InvRun(Step(s, ls[0]), ls[1..], once);
    }
  }

  /**
   A job is assigned at most one time more than its budget, also when assigned jobs are cancelled and
   rows at rest are failed as orphans: every assignment after the first cost one retry, and retries
   never exceed the budget.
   */
  lemma AssignedWithinBudget(ls: seq<Label>, j: JobId)
    requires IsRun(INITIAL, ls, Frugal) && j in Final(INITIAL, ls, Frugal).rows
    ensures var r := Final(INITIAL, ls, Frugal).rows[j];
            0 <= r.retries <= Budget(r) && r.epoch <= r.retries + 1 <= Budget(r) + 1
  {
    InvRun(INITIAL, ls, true);
    hide Enabled, Step, IsRun, Final, Epochs.Inv, Singly, Pairwise;
    SoundOf(Final(INITIAL, ls, Frugal), j, true);
  }

  /** In such runs a decision is owed only for a row that has failed or is gone. */
  lemma OwedIsFailed(ls: seq<Label>, j: JobId)
    requires IsRun(INITIAL, ls, Frugal) && Owing(Final(INITIAL, ls, Frugal).due, j)
    ensures var t := Final(INITIAL, ls, Frugal).rows; j in t && (t[j].status.Failed? || t[j].status.Deleted?)
  {
    InvRun(INITIAL, ls, true);
    var s := Final(INITIAL, ls, Frugal);
    hide Enabled, Step, IsRun, Final, Epochs.Inv, Pairwise;
    assert Account(s.rows, s.due, j, true);
    var e :| Owes(s.due, j, e);
  }

  // ---- the exact condition on the orphan failure ----

  /** No decision is owed for the failed row, or two chains of retries from its count fit the budget. */
  ghost predicate Affordable(s: State, j: JobId) {
    j in s.rows && s.rows[j].status.Failed? && Owing(s.due, j) ==>
      var r := s.rows[j]; r.epoch + 2 * (Budget(r) - r.retries) <= Budget(r) + 1
  }

  ghost predicate WithinBudget(t: Table) {
    forall j :: j in t ==> t[j].epoch <= Budget(t[j]) + 1
  }

  /** Whatever frugal steps follow, no job exceeds its budget. */
  ghost predicate Safe(s: State) {
    forall ls :: IsRun(s, ls, Frugal) ==> WithinBudget(Final(s, ls, Frugal).rows)
  }

  lemma InvIsWithin(s: State)
    requires Inv(s, false)
    ensures WithinBudget(s.rows)
  {
    forall j | j in s.rows ensures s.rows[j].epoch <= Budget(s.rows[j]) + 1 {
      SoundOf(s, j, false);
    }
  }

  lemma InvIsSafe(s: State)
    requires Inv(s, false) && Epochs.Inv(s)
    ensures Safe(s)
  {
    hide Inv, Epochs.Inv, WithinBudget;
    forall ls | IsRun(s, ls, Frugal) ensures WithinBudget(Final(s, ls, Frugal).rows) {
      InvRun(s, ls, false);
      InvIsWithin(Final(s, ls, Frugal));
    }
  }

  lemma OnceIsMore(s: State)
    requires Inv(s, true)
    ensures Inv(s, false)
  {
    forall j ensures Account(s.rows, s.due, j, false) {
      assert Account(s.rows, s.due, j, true);
      hide AtMostTwo, Accounts;
    }
  }

  /** A second decision for a failed row that can pay for both. */
  lemma SecondSound(r: Row, due: map<Ending, Due>, j: JobId, e: Ending)
    requires Sound(r, due, j, true) && e.of.job == j && r.status.Failed?
    requires r.epoch + 2 * (Budget(r) - r.retries) <= Budget(r) + 1
    ensures Sound(r, due[e := Reread], j, false)
  {
    var due2 := due[e := Reread];
    assert forall f :: Owes(due2, j, f) && f != e ==> Owes(due, j, f) && due2[f] == due[f];
    forall f | Owes(due2, j, f) ensures Fits(r, due2[f], false) && Cost(r, due2[f]) <= Budget(r) - r.retries {
      if f != e {
        assert Owes(due, j, f) && Fits(r, due[f], true);
      }
    }
    forall f, g | Owes(due2, j, f) && Owes(due2, j, g) && f != g ensures FitTogether(r, due2[f], due2[g]) {
      assert f != e ==> Fits(r, due[f], true);
      assert g != e ==> Fits(r, due[g], true);
    }
    OneMore(r, due, j, true, e, Reread);
  }

  lemma AffordableKeeps(s: State, n: NodeId)
    requires Inv(s, true) && n in s.agents && CanOrphanWrite(s.agents[n])
    requires Affordable(s, s.agents[n].beat.stage.orphans[0].job)
    ensures Inv(AfterOrphanWrite(s, n), false)
  {
    var j := s.agents[n].beat.stage.orphans[0].job;
    OnceIsMore(s);
    if Exists(s.rows, j) && Owing(s.due, j) {
      SoundOf(s, j, true);
      OwedRow(s.rows[j], s.due, j);
      var p := Assignment(j, s.rows[j].epoch);
      hide Inv, Sound, Dropping, Owing;
      SecondSound(s.rows[j], s.due, j, Ending(p, s.ended[p]));
      SoundOf(s, j, false);
      JobStep(s, AfterOrphanWrite(s, n), j, false);
    } else {
      hide Inv;
      OrphanWriteStep(s, n, false);
    }
  }

  lemma OwedRow(r: Row, due: map<Ending, Due>, j: JobId)
    requires Sound(r, due, j, true) && Owing(due, j)
    ensures r.status.Failed? || r.status.Deleted?
  {
    var e :| Owes(due, j, e);
    hide Pairwise, AtMostTwo;
  }

  // ---- both decisions taken ----

  /** The decision reads its row if it has not done so. */
  lemma Learn(from: State, ls: seq<Label>, s: State, e: Ending) returns (longer: seq<Label>)
    requires LeadsTo(from, ls, s) && Exists(s.rows, e.of.job) && e in s.due
    requires s.due[e].Reread? || s.due[e] == Choose(s.rows[e.of.job].retries)
    ensures LeadsTo(from, longer, s.(due := s.due[e := Choose(s.rows[e.of.job].retries)]))
  {
    if s.due[e].Reread? {
      hide LeadsTo;
      longer := Then(from, ls, s, DueRead(e));
    } else {
      longer := ls;
      assert s.due == s.due[e := Choose(s.rows[e.of.job].retries)];
    }
  }

  /** The decision requeues its row. */
  lemma Retry(from: State, ls: seq<Label>, s: State, e: Ending) returns (longer: seq<Label>, s2: State)
    requires LeadsTo(from, ls, s) && e in s.due && s.due[e].Choose? && e.of.job in s.rows
    requires var r := s.rows[e.of.job]; r.status.Failed? && 0 <= s.due[e].retries < Budget(r)
    ensures LeadsTo(from, longer, s2) && e.of.job in s2.rows && s2.due == s.due - {e}
    ensures var r := s.rows[e.of.job];
            s2.rows[e.of.job] == r.(status := Pending, node := 0, retries := s.due[e].retries + 1, gated := true)
  {
    hide LeadsTo;
    longer := Then(from, ls, s, Settle(e));
    s2 := AfterSettle(s, e);
  }

  /** The job failed for good: its retries are used up. Decisions owed for its earlier assignments still are. */
  ghost predicate Climbed(s: State, j: JobId, s2: State)
    requires j in s.rows
  {
    && j in s2.rows && s2.rows[j].status.Failed? && s2.rows[j].budget == s.rows[j].budget
    && s2.rows[j].epoch == s.rows[j].epoch + Ahead(s.rows[j])
    && forall e :: e in s.due && e.of.epoch <= s.rows[j].epoch ==> e in s2.due && s2.due[e] == s.due[e]
  }

  /** A pending job fails on one node after the other until its retries are used up. */
  lemma {:induction false} Climb(from: State, ls: seq<Label>, s: State, j: JobId)
      returns (longer: seq<Label>, s2: State)
    requires LeadsTo(from, ls, s) && j in s.rows && s.rows[j].status.Pending?
    requires 0 <= s.rows[j].retries <= Budget(s.rows[j])
    ensures LeadsTo(from, longer, s2) && Climbed(s, j, s2)
    decreases Budget(s.rows[j]) - s.rows[j].retries
  {
    hide LeadsTo;
    longer, s2 := Round(from, ls, s, j);
    var p := NextOf(s, j);
    if s.rows[j].retries < Budget(s.rows[j]) {
      var failed := s2;
      longer, s2 := Retry(from, longer, failed, Ending(p, s.ended[p]));
      var pending := s2;
      longer, s2 := Climb(from, longer, pending, j);
    }
  }

  /** Two decisions that both start from the row's count lead to twice the assignments that are left. */
  lemma Spend(s: State, j: JobId, e: Ending, f: Ending) returns (ls: seq<Label>, s2: State)
    requires j in s.rows && s.rows[j].status.Failed? && 0 <= s.rows[j].retries < Budget(s.rows[j])
    requires Starts(s, j, e) && Starts(s, j, f) && e != f
    ensures LeadsTo(s, ls, s2) && j in s2.rows && s2.rows[j].budget == s.rows[j].budget
    ensures s2.rows[j].epoch == s.rows[j].epoch + 2 * (Budget(s.rows[j]) - s.rows[j].retries)
  {
    hide LeadsTo;
    var c := Choose(s.rows[j].retries);
    ls := Stay(s);
    ls := Learn(s, ls, s, e);
    ls := Learn(s, ls, s.(due := s.due[e := c]), f);
    ls, s2 := Retry(s, ls, s.(due := s.due[e := c][f := c]), f);
    ls, s2 := Climb(s, ls, s2, j);
    ls, s2 := Retry(s, ls, s2, e);
    ls, s2 := Climb(s, ls, s2, j);
  }

  /** A decision about one of the job's assignments that has its count from the row, or will. */
  predicate Starts(s: State, j: JobId, e: Ending) {
    && j in s.rows && e in s.due && e.of.job == j && e.of.epoch <= s.rows[j].epoch
    && (s.due[e].Reread? || s.due[e] == Choose(s.rows[j].retries))
  }

  /** A failure that cannot be paid for is followed by a frugal run that exceeds the budget. */
  lemma Overspends(s: State, n: NodeId) returns (ls: seq<Label>)
    requires Inv(s, true) && Epochs.DuesOld(s) && n in s.agents && CanOrphanWrite(s.agents[n])
    requires !Affordable(s, s.agents[n].beat.stage.orphans[0].job)
    ensures IsRun(AfterOrphanWrite(s, n), ls, Calm)
    ensures var j := s.agents[n].beat.stage.orphans[0].job; var r := s.rows[j];
            var t := Final(AfterOrphanWrite(s, n), ls, Calm).rows;
            && j in t && t[j].budget == r.budget && t[j].epoch == r.epoch + 2 * (Budget(r) - r.retries) > Budget(r) + 1
  {
    var j := s.agents[n].beat.stage.orphans[0].job;
    var s2 := AfterOrphanWrite(s, n);
    var p := Assignment(j, s.rows[j].epoch);
    var f := Ending(p, s.ended[p]);
    SoundOf(s, j, true);
    var e :| Owes(s.due, j, e);
    assert Fits(s.rows[j], s.due[e], true) && Epochs.Old(s.rows, e.of) && e.nth < s.ended[e.of];
    assert s2.rows == s.rows && s2.due == s.due[f := Reread] && Starts(s2, j, e) && Starts(s2, j, f);
    hide Inv, Sound, AfterOrphanWrite, Starts, Epochs.DuesOld;
    var s3;
    ls, s3 := Spend(s2, j, e, f);
  }

  lemma AffordableIsNeeded(s: State, n: NodeId)
    requires Inv(s, true) && Epochs.DuesOld(s) && n in s.agents && CanOrphanWrite(s.agents[n])
    requires Safe(AfterOrphanWrite(s, n))
    ensures Affordable(s, s.agents[n].beat.stage.orphans[0].job)
  {
    if !Affordable(s, s.agents[n].beat.stage.orphans[0].job) {
      var ls := Overspends(s, n);
      hide Inv, Epochs.DuesOld, Affordable, AfterOrphanWrite, IsRun, Final, Matches;
      Weaken(AfterOrphanWrite(s, n), ls, Calm, Frugal);
    }
  }

  /**
   Exactly: after a frugal run, all jobs stay within their budgets through an orphan failure and all
   frugal runs from there, if and only if the failure is affordable: no decision is owed for the
   failed row it hits, or two chains of retries from the row's count fit the budget.
   */
  lemma OrphanFailureIff(ls: seq<Label>, n: NodeId)
    requires IsRun(INITIAL, ls, Frugal)
    requires var s := Final(INITIAL, ls, Frugal); n in s.agents && CanOrphanWrite(s.agents[n])
    ensures var s := Final(INITIAL, ls, Frugal);
            Safe(AfterOrphanWrite(s, n)) <==> Affordable(s, s.agents[n].beat.stage.orphans[0].job)
  {
    InvRun(INITIAL, ls, true);
    var s := Final(INITIAL, ls, Frugal);
    assert Epochs.DuesOld(s) by {
      Weaken(INITIAL, ls, Frugal, Any);
      Epochs.DuesRun(INITIAL, ls);
    }
    hide IsRun, Final, Inv, Epochs.Inv, Epochs.DuesOld, Safe, Affordable, AfterOrphanWrite;
    if Affordable(s, s.agents[n].beat.stage.orphans[0].job) {
      AffordableKeeps(s, n);
      Epochs.OrphanWriteStep(s, n);
      InvIsSafe(AfterOrphanWrite(s, n));
    }
    if Safe(AfterOrphanWrite(s, n)) {
      AffordableIsNeeded(s, n);
    }
  }
}
