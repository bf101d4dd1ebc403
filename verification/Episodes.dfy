/**
 Job discovery by the scanner as a supervised loop body: for each episode folder it first asks
 whether a job exists and then creates one, as two separate statements.
 */
module Episodes {
  import opened Wrappers
  import S = Supervisor

  type JobId = nat
  type Episode = nat

  datatype Job = Job(episode: Episode, cancelled: bool)

  /** The supervisors, the job rows, and the folder each running body is about to create a job for. */
  datatype State = State(sup: S.State, jobs: map<JobId, Job>, found: map<S.Session, Episode>)

  datatype Label =
    | Loop(step: S.Label)
    | Check(c: S.Session, episode: Episode) | Create(c: S.Session, j: JobId) | Skip(c: S.Session)
    | Cancel(j: JobId) | Delete(j: JobId) | Fail(j: JobId)
    | OperatorCreate(j: JobId, episode: Episode) | OperatorRetry(j: JobId)

  /** Some job that is not cancelled covers the folder. */
  predicate Covered(jobs: map<JobId, Job>, e: Episode) {
    exists j :: j in jobs && jobs[j].episode == e && !jobs[j].cancelled
  }

  predicate Runs(s: S.State, c: S.Session) {
    c in s.handles && s.handles[c].running
  }

  /** A body returns only between two folders. */
  predicate Enabled(s: State, l: Label) {
    match l
    case Loop(step) => S.Enabled(s.sup, step) && (step.BodyReturns? ==> step.c !in s.found)
    case Check(c, _) => Runs(s.sup, c) && c !in s.found
    case Create(c, j) => c in s.found && j !in s.jobs
    case Skip(c) => c in s.found
    case Cancel(j) => j in s.jobs
    case Delete(j) => j in s.jobs
    case Fail(j) => true
    case OperatorCreate(j, _) => j !in s.jobs
    case OperatorRetry(j) => j in s.jobs
  }

  /**
   The failure write of orphan recovery and of a render that failed: the statement is guarded by the
   identifier alone.
   */
  function Failed(s: State, j: JobId): State {
    if j in s.jobs then s.(jobs := s.jobs[j := s.jobs[j].(cancelled := false)]) else s
  }

  function Step(s: State, l: Label): State
    requires Enabled(s, l)
  {
    match l
    case Loop(step) => s.(sup := S.Step(s.sup, step))
    case Check(c, e) => if Covered(s.jobs, e) then s else s.(found := s.found[c := e])
    case Create(c, j) => s.(jobs := s.jobs[j := Job(s.found[c], false)], found := s.found - {c})
    case Skip(c) => s.(found := s.found - {c})
    case Cancel(j) => s.(jobs := s.jobs[j := s.jobs[j].(cancelled := true)])
    case Delete(j) => s.(jobs := s.jobs - {j})
    case Fail(j) => Failed(s, j)
    case OperatorCreate(j, e) => s.(jobs := s.jobs[j := Job(e, false)])
    case OperatorRetry(j) => s.(jobs := s.jobs[j := s.jobs[j].(cancelled := false)])
  }

  const INITIAL := State(S.INITIAL, map[], map[])

  /** At most one scanner body runs. */
  ghost predicate Solo(s: S.State) {
    forall c, d :: Runs(s, c) && Runs(s, d) ==> c == d
  }

  /** No operator creates or retries jobs. */
  predicate Unattended(l: Label) {
    !l.OperatorCreate? && !l.OperatorRetry?
  }

  /** The failure write, when it comes, does not hit a cancelled row. */
  predicate Spares(s: State, l: Label) {
    l.Fail? && l.j in s.jobs ==> !s.jobs[l.j].cancelled
  }

  ghost predicate IsRun(s: State, ls: seq<Label>)
    decreases |ls|
  {
    ls == [] || (Enabled(s, ls[0]) && Unattended(ls[0]) && IsRun(Step(s, ls[0]), ls[1..]))
  }

  ghost function Final(s: State, ls: seq<Label>): State
    requires IsRun(s, ls)
    decreases |ls|
  {
    if ls == [] then s else Final(Step(s, ls[0]), ls[1..])
  }

  /** No state of the run has two scanner bodies running. */
  ghost predicate AlwaysSolo(s: State, ls: seq<Label>)
    requires IsRun(s, ls)
    decreases |ls|
  {
    Solo(s.sup) && (ls == [] || AlwaysSolo(Step(s, ls[0]), ls[1..]))
  }

  /** No failure write of the run hits a cancelled row. */
  ghost predicate AlwaysSpares(s: State, ls: seq<Label>)
    requires IsRun(s, ls)
    decreases |ls|
  {
    ls == [] || (Spares(s, ls[0]) && AlwaysSpares(Step(s, ls[0]), ls[1..]))
  }

  /** At most one job per episode folder that is not cancelled. */
  ghost predicate OnePerEpisode(jobs: map<JobId, Job>) {
    forall i, j ::
      i in jobs && j in jobs && !jobs[i].cancelled && !jobs[j].cancelled && jobs[i].episode == jobs[j].episode ==>
        i == j
  }

  /** What a body found missing is still missing, and the body still runs. */
  ghost predicate Inv(s: State) {
    && OnePerEpisode(s.jobs)
    && forall c :: c in s.found ==> Runs(s.sup, c) && !Covered(s.jobs, s.found[c])
  }

  /** Only the return of a body ends it. */
  lemma BodiesStay(s: S.State, l: S.Label, c: S.Session)
    requires S.Enabled(s, l) && Runs(s, c) && l != S.BodyReturns(c)
    ensures Runs(S.Step(s, l), c)
  {
    match l
    case TryLock(_, _) =>
    case React(_, _) =>
    case Release(_, _) =>
    case _ =>
  }

  lemma LoopStep(s: State, step: S.Label)
    requires Inv(s) && Enabled(s, Loop(step))
    ensures Inv(Step(s, Loop(step)))
  {
    forall c | c in s.found ensures Runs(S.Step(s.sup, step), c) {
      BodiesStay(s.sup, step, c);
    }
    hide S.Step, S.Enabled;
  }

  lemma CreateStep(s: State, c: S.Session, j: JobId)
    requires Inv(s) && Solo(s.sup) && Enabled(s, Create(c, j))
    ensures Inv(Step(s, Create(c, j)))
  {
    assert Runs(s.sup, c) && !Covered(s.jobs, s.found[c]);
    var s2 := Step(s, Create(c, j));
    assert forall d :: d in s.found ==> d == c;
    assert s2.found == map[];
  }

  lemma RowStep(s: State, l: Label)
    requires Inv(s) && Enabled(s, l) && Spares(s, l) && (l.Cancel? || l.Delete? || l.Fail?)
    ensures Inv(Step(s, l))
  {
    var s2 := Step(s, l);
    forall c | c in s2.found ensures Runs(s2.sup, c) && !Covered(s2.jobs, s2.found[c]) {
      assert !Covered(s.jobs, s.found[c]);
    }
  }

  lemma InvStep(s: State, l: Label)
    requires Inv(s) && Solo(s.sup) && Enabled(s, l) && Unattended(l) && Spares(s, l)
    ensures Inv(Step(s, l))
  {
    hide S.Step, S.Enabled, Solo;
    match l
    case Loop(step) => LoopStep(s, step);
    case Create(c, j) => CreateStep(s, c, j);
    case Cancel(_) | Delete(_) | Fail(_) => RowStep(s, l);
    case Check(_, _) | Skip(_) =>
  }

  lemma {:induction false} InvRun(s: State, ls: seq<Label>)
    requires Inv(s) && IsRun(s, ls) && AlwaysSolo(s, ls) && AlwaysSpares(s, ls)
    ensures Inv(Final(s, ls))
    decreases |ls|
  {
    hide Inv, Enabled, Step, Solo, Spares;
    if ls != [] {
      InvStep(s, ls[0]);
      InvRun(Step(s, ls[0]), ls[1..]);
    }
  }

  /**
   In every run without operator creations and retries, in which scanner bodies never overlap and no
   failure write hits a cancelled row, each episode folder has at most one job that is not cancelled.
   */
  lemma OneJobPerEpisode(ls: seq<Label>)
    requires IsRun(INITIAL, ls) && AlwaysSolo(INITIAL, ls) && AlwaysSpares(INITIAL, ls)
    ensures OnePerEpisode(Final(INITIAL, ls).jobs)
  {
    InvRun(INITIAL, ls);
  }

  // ---- the exact condition on the failure write ----

  /** The row is not cancelled, or nothing else covers its folder and no body has found that folder missing. */
  predicate Harmless(s: State, j: JobId) {
    j in s.jobs && s.jobs[j].cancelled ==>
      && !Covered(s.jobs, s.jobs[j].episode)
      && forall c :: c in s.found ==> s.found[c] != s.jobs[j].episode
  }

  /** Whatever careful steps follow, folders keep one job each. */
  ghost predicate Safe(s: State) {
    forall ls :: IsRun(s, ls) && AlwaysSolo(s, ls) && AlwaysSpares(s, ls) ==> OnePerEpisode(Final(s, ls).jobs)
  }

  lemma HarmlessKeeps(s: State, j: JobId)
    requires Inv(s) && Harmless(s, j)
    ensures Inv(Failed(s, j))
  {
    var s2 := Failed(s, j);
    if j in s.jobs {
      assert forall k :: k in s2.jobs && k != j ==> k in s.jobs && s2.jobs[k] == s.jobs[k];
      forall c | c in s2.found ensures Runs(s2.sup, c) && !Covered(s2.jobs, s2.found[c]) {
        assert !Covered(s.jobs, s.found[c]);
        assert s.jobs[j].cancelled ==> s.found[c] != s.jobs[j].episode;
      }
    }
  }

  lemma InvIsSafe(s: State)
    requires Inv(s)
    ensures Safe(s)
  {
    hide Inv, OnePerEpisode;
    forall ls | IsRun(s, ls) && AlwaysSolo(s, ls) && AlwaysSpares(s, ls) ensures OnePerEpisode(Final(s, ls).jobs) {
      InvRun(s, ls);
      InvOne(Final(s, ls));
    }
  }

  lemma InvOne(s: State)
    requires Inv(s)
    ensures OnePerEpisode(s.jobs)
  {
  }

  /** An identifier above all others. */
  lemma FreshJob(keys: set<JobId>) returns (k: JobId)
    ensures forall i :: i in keys ==> i < k
    decreases |keys|
  {
    if keys == {} {
      k := 0;
    } else {
      var i :| i in keys;
      var rest := FreshJob(keys - {i});
      assert forall x :: x in keys ==> x == i || x in keys - {i};
      k := if i < rest then rest else i + 1;
    }
  }

  /** The creation that a body is about to make shows the second job. */
  lemma CreateShows(s: State, c: S.Session, j: JobId)
    requires Solo(s.sup) && Safe(s) && c in s.found && j in s.jobs && !s.jobs[j].cancelled
    ensures s.jobs[j].episode != s.found[c]
  {
    var k := FreshJob(s.jobs.Keys);
    var l := Create(c, k);
    var s2 := Step(s, l);
    assert [l][1..] == [];
    assert IsRun(s2, []) && AlwaysSolo(s2, []) && AlwaysSpares(s2, []) && Final(s2, []) == s2;
    assert IsRun(s, [l]) && AlwaysSolo(s, [l]) && AlwaysSpares(s, [l]) && Final(s, [l]) == s2;
    assert OnePerEpisode(s2.jobs);
    assert j in s2.jobs && k in s2.jobs && j != k;
  }

  lemma NowShows(s: State)
    requires Solo(s.sup) && Safe(s)
    ensures OnePerEpisode(s.jobs)
  {
    assert IsRun(s, []) && AlwaysSolo(s, []) && AlwaysSpares(s, []) && Final(s, []) == s;
  }

  lemma {:induction false} EndsSolo(s: State, ls: seq<Label>)
    requires IsRun(s, ls) && AlwaysSolo(s, ls)
    ensures Solo(Final(s, ls).sup)
    decreases |ls|
  {
    hide Enabled, Step, Solo;
    if ls != [] {
      EndsSolo(Step(s, ls[0]), ls[1..]);
    }
  }

  lemma HarmlessIsNeeded(s: State, j: JobId)
    requires Inv(s) && Solo(s.sup) && Safe(Failed(s, j))
    ensures Harmless(s, j)
  {
    var s2 := Failed(s, j);
    if j in s.jobs && s.jobs[j].cancelled {
      NowShows(s2);
      forall c | c in s.found ensures s.found[c] != s.jobs[j].episode {
        CreateShows(s2, c, j);
      }
      hide Safe;
      forall k | k in s.jobs && !s.jobs[k].cancelled ensures s.jobs[k].episode != s.jobs[j].episode {
        assert k in s2.jobs && s2.jobs[k] == s.jobs[k] && j in s2.jobs;
      }
    }
  }

  /**
   Exactly: after such a run, folders stay with one job each through a failure write and all careful
   runs from there, if and only if the write is harmless.
   */
  lemma FailureIff(ls: seq<Label>, j: JobId)
    requires IsRun(INITIAL, ls) && AlwaysSolo(INITIAL, ls) && AlwaysSpares(INITIAL, ls)
    ensures Safe(Failed(Final(INITIAL, ls), j)) <==> Harmless(Final(INITIAL, ls), j)
  {
    InvRun(INITIAL, ls);
    EndsSolo(INITIAL, ls);
    var s := Final(INITIAL, ls);
    hide IsRun, Final, Inv, Safe, Harmless, Solo, AlwaysSolo, AlwaysSpares;
    if Harmless(s, j) {
      HarmlessKeeps(s, j);
      InvIsSafe(Failed(s, j));
    }
    if Safe(Failed(s, j)) {
      HarmlessIsNeeded(s, j);
    }
  }

  ghost predicate Lives(s: S.State) {
    S.Inv(s) && forall c :: c in s.handles ==> s.handles[c].death.None?
  }

  lemma LivesSolo(s: S.State)
    requires Lives(s)
    ensures Solo(s)
  {
    forall c, d | Runs(s, c) && Runs(s, d) && c != d ensures false {
      S.ExclusionOf(s, c, d);
    }
  }

  lemma {:induction false} SoloWhileAlive(s: State, ls: seq<Label>)
    requires Lives(s.sup) && IsRun(s, ls) && forall l :: l in ls ==> !(l.Loop? && l.step.Die?)
    ensures AlwaysSolo(s, ls)
    decreases |ls|
  {
    LivesSolo(s.sup);
    if ls != [] {
      var l := ls[0];
      assert Lives(Step(s, l).sup) by {
        if l.Loop? {
          assert l in ls;
          S.NoDeathStep(s.sup, l.step);
          S.InvStep(s.sup, l.step);
        }
        hide S.Step, S.Enabled, S.Inv, IsRun, AlwaysSolo, Solo;
      }
      hide Enabled, Step, Lives, Solo;
      SoloWhileAlive(Step(s, l), ls[1..]);
    }
  }

  /**
   The supervisor gives what the scanner needs: while no session dies, only a failure write can give
   a folder a second job.
   */
  lemma OneJobWhileSessionsLive(ls: seq<Label>)
    requires IsRun(INITIAL, ls) && AlwaysSpares(INITIAL, ls) && forall l :: l in ls ==> !(l.Loop? && l.step.Die?)
    ensures OnePerEpisode(Final(INITIAL, ls).jobs)
  {
    assert Lives(INITIAL.sup);
    hide IsRun, Final, OnePerEpisode, Lives, AlwaysSolo, AlwaysSpares;
    SoloWhileAlive(INITIAL, ls);
    OneJobPerEpisode(ls);
  }

  // ---- why the conditions matter ----

  ghost predicate LeadsTo(ls: seq<Label>, s: State) {
    IsRun(INITIAL, ls) && Final(INITIAL, ls) == s
  }

  lemma {:induction false} RunExtends(s: State, ls: seq<Label>, l: Label)
    requires IsRun(s, ls) && Enabled(Final(s, ls), l) && Unattended(l)
    ensures IsRun(s, ls + [l]) && Final(s, ls + [l]) == Step(Final(s, ls), l)
    decreases |ls|
  {
    hide Enabled, Step;
    if ls == [] {
      assert ls + [l] == [l];
      assert IsRun(Step(s, l), []);
    } else {
      RunExtends(Step(s, ls[0]), ls[1..], l);
      assert (ls + [l])[1..] == ls[1..] + [l];
    }
  }

  lemma Then(ls: seq<Label>, s: State, l: Label, s2: State) returns (longer: seq<Label>)
    requires LeadsTo(ls, s) && Enabled(s, l) && Unattended(l) && Step(s, l) == s2
    ensures LeadsTo(longer, s2) && longer == ls + [l]
  {
    hide Enabled, Step;
    RunExtends(INITIAL, ls, l);
    longer := ls + [l];
  }

  /** A run of the supervisors is a run of the whole system. */
  lemma {:induction false} Lift(s: State, steps: seq<S.Label>) returns (ls: seq<Label>)
    requires s.found == map[] && S.IsRun(s.sup, steps)
    ensures IsRun(s, ls) && Final(s, ls) == s.(sup := S.Final(s.sup, steps))
    decreases |steps|
  {
    if steps == [] {
      ls := [];
    } else {
      var rest := Lift(s.(sup := S.Step(s.sup, steps[0])), steps[1..]);
      hide S.Enabled, S.Step;
      ls := [Loop(steps[0])] + rest;
      assert ls[0] == Loop(steps[0]) && ls[1..] == rest;
    }
  }

  /** The gap between check and create is real: two overlapping bodies give one folder two jobs. */
  lemma OverlapDuplicates() returns (ls: seq<Label>)
    ensures IsRun(INITIAL, ls) && !OnePerEpisode(Final(INITIAL, ls).jobs)
  {
    var steps, sup := Overlap();
    ls := Lift(INITIAL, steps);
    var s := INITIAL.(sup := sup);
    ls := Duplicate(ls, s);
  }

  lemma Overlap() returns (steps: seq<S.Label>, sup: S.State)
    ensures S.IsRun(S.INITIAL, steps) && S.Final(S.INITIAL, steps) == sup && Runs(sup, 0) && Runs(sup, 1)
  {
    steps := S.OverlapHappens();
    sup := S.Final(S.INITIAL, steps);
  }

  lemma Duplicate(ls: seq<Label>, s: State) returns (longer: seq<Label>)
    requires LeadsTo(ls, s) && Runs(s.sup, 0) && Runs(s.sup, 1) && s.jobs == map[] && s.found == map[]
    ensures IsRun(INITIAL, longer) && !OnePerEpisode(Final(INITIAL, longer).jobs)
  {
    hide LeadsTo;
    var j0, j1 := Job(7, false), Job(7, false);
    longer := Then(ls, s, Check(0, 7), s.(found := map[0 := 7]));
    longer := Then(longer, s.(found := map[0 := 7]), Check(1, 7), s.(found := map[0 := 7, 1 := 7]));
    longer := Then(longer, s.(found := map[0 := 7, 1 := 7]), Create(0, 0),
        s.(found := map[1 := 7], jobs := map[0 := j0]));
    longer := Then(longer, s.(found := map[1 := 7], jobs := map[0 := j0]), Create(1, 1),
        s.(jobs := map[0 := j0, 1 := j1]));
    Doubled(longer, s.(jobs := map[0 := j0, 1 := j1]));
  }

  lemma Doubled(ls: seq<Label>, s: State)
    requires LeadsTo(ls, s) && 0 in s.jobs && 1 in s.jobs && s.jobs[0] == s.jobs[1] == Job(7, false)
    ensures IsRun(INITIAL, ls) && !OnePerEpisode(Final(INITIAL, ls).jobs)
  {
    hide IsRun, Final;
  }

  // ---- a cancelled job that comes back ----

  /** One replica, and the body of its scanner running. */
  const ONE := S.State(0, map[0 := S.Selecting(0)], {}, map[0 := S.Handle(0, None, S.Waiting(10), true, false, 0)],
      Some(0))

  lemma OneBody() returns (ls: seq<Label>)
    ensures LeadsTo(ls, INITIAL.(sup := ONE)) && Deathless(ls)
  {
    var top := S.INITIAL.(stages := map[0 := S.Top]);
    ls := Then([], INITIAL, Loop(S.Start(0)), INITIAL.(sup := top));
    ls := Then(ls, INITIAL.(sup := top), Loop(S.TryLock(0, 0)), INITIAL.(sup := ONE));
  }

  predicate Deathless(ls: seq<Label>) {
    forall l :: l in ls ==> !(l.Loop? && l.step.Die?)
  }

  /** The body finds the folder missing and creates a job. */
  lemma Discover(ls: seq<Label>, jobs: map<JobId, Job>, j: JobId) returns (longer: seq<Label>)
    requires LeadsTo(ls, INITIAL.(sup := ONE, jobs := jobs)) && Deathless(ls) && !Covered(jobs, 7) && j !in jobs
    ensures LeadsTo(longer, INITIAL.(sup := ONE, jobs := jobs[j := Job(7, false)])) && Deathless(longer)
  {
    hide LeadsTo;
    var s := INITIAL.(sup := ONE, jobs := jobs);
    var empty: map<S.Session, Episode> := map[];
    assert empty[0 := 7] - {0} == empty;
    longer := Then(ls, s, Check(0, 7), s.(found := empty[0 := 7]));
    longer := Then(longer, s.(found := empty[0 := 7]), Create(0, j), s.(jobs := jobs[j := Job(7, false)]));
  }

  /**
   A run with one body, so without any overlap, and without any operator's creation or retry, that
   gives one folder two jobs: the first is cancelled, the scanner creates the second, and a failure
   write brings the first one back.
   */
  lemma FailureDuplicates() returns (ls: seq<Label>)
    ensures IsRun(INITIAL, ls) && AlwaysSolo(INITIAL, ls) && !OnePerEpisode(Final(INITIAL, ls).jobs)
  {
    hide LeadsTo;
    ls := OneBody();
    ls := Discover(ls, map[], 0);
    var live, gone := Job(7, false), Job(7, true);
    var s := INITIAL.(sup := ONE);
    ls := Then(ls, s.(jobs := map[0 := live]), Cancel(0), s.(jobs := map[0 := gone]));
    ls := Discover(ls, map[0 := gone], 1);
    ls := Then(ls, s.(jobs := map[0 := gone, 1 := live]), Fail(0), s.(jobs := map[0 := live, 1 := live]));
    Doubled(ls, s.(jobs := map[0 := live, 1 := live]));
    assert Lives(INITIAL.sup);
    hide Lives, IsRun, AlwaysSolo, Final, OnePerEpisode;
    SoloWhileAlive(INITIAL, ls);
  }
}
