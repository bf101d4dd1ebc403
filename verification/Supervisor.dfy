/**
 The supervisor of the singleton loops on PostgreSQL: replicas compete for one session-scoped
 advisory lock; a winner runs the loop body in a goroutine while a keepalive probes the session.
 Time is in seconds. A due timer or a closed channel is acted on before time moves on.
 */
module Supervisor {
  import opened Wrappers

  type Replica = nat

  /** Every acquired handle is a fresh database session. */
  type Session = nat

  const KEEPALIVE := 10
  const PROBE := 10
  const REACQUIRE := 15

  /** The ticker waits for `next`; a probe runs; the lost channel is closed; the handle is released. */
  datatype Keepalive = Waiting(next: nat) | Probing(start: nat) | Lost | Halted

  /** What follows the release: another round, a pause first, or the end. */
  datatype After = Again | Pause | Quit

  datatype Stage = Top | Asleep(wake: nat) | Selecting(c: Session) | Draining(c: Session, after: After) | Returned

  /** A handle: its session, keepalive and body, and how often it was released. */
  datatype Handle = Handle(owner: Replica, death: Option<nat>, keep: Keepalive, running: bool, cancelled: bool,
      released: nat)

  datatype State = State(now: nat, stages: map<Replica, Stage>, stopped: set<Replica>, handles: map<Session, Handle>,
      holder: Option<Session>)

  datatype Label =
    | Tick(secs: nat) | Start(r: Replica) | Sigterm(r: Replica)
    | TryLock(r: Replica, c: Session) | TryFails(r: Replica) | Wake(r: Replica) | GiveUp(r: Replica)
    | BodyReturns(c: Session) | React(r: Replica, after: After) | Release(r: Replica, reached: bool)
    | ProbeStart(c: Session) | ProbeOk(c: Session) | ProbeFails(c: Session) | Die(c: Session)

  const INITIAL := State(0, map[], {}, map[], None)

  /** Nothing that a handle waits for becomes overdue when time moves on to `to`. */
  predicate InTime(h: Handle, to: nat) {
    h.released == 0 ==>
      match h.keep
      case Waiting(next) => to <= next
      case Probing(start) => to <= start + PROBE
      case Lost => h.cancelled
      case Halted => true
  }

  predicate HoldsAt(s: State, r: Replica) {
    r in s.stages && s.stages[r].Selecting? && s.stages[r].c in s.handles
  }

  /** The three exits of the select: the body returned, the lock is lost, or the replica stops. */
  predicate Triggered(s: State, r: Replica, after: After)
    requires HoldsAt(s, r)
  {
    match after
    case Again => !s.handles[s.stages[r].c].running
    case Pause => s.handles[s.stages[r].c].keep.Lost?
    case Quit => r in s.stopped
  }

  predicate Enabled(s: State, l: Label) {
    match l
    case Tick(secs) => forall c :: c in s.handles ==> InTime(s.handles[c], s.now + secs)
    case Start(r) => r !in s.stages
    case Sigterm(r) => r in s.stages
    case TryLock(r, c) => r in s.stages && s.stages[r].Top? && r !in s.stopped && c !in s.handles
    case TryFails(r) => r in s.stages && s.stages[r].Top? && r !in s.stopped
    case Wake(r) => r in s.stages && s.stages[r].Asleep? && s.stages[r].wake <= s.now
    case GiveUp(r) => r in s.stages && r in s.stopped && (s.stages[r].Top? || s.stages[r].Asleep?)
    case BodyReturns(c) => c in s.handles && s.handles[c].running
    case React(r, after) => HoldsAt(s, r) && Triggered(s, r, after)
    case Release(r, _) => r in s.stages && s.stages[r].Draining? && s.stages[r].c in s.handles
      && !s.handles[s.stages[r].c].running
    case ProbeStart(c) => c in s.handles && s.handles[c].keep.Waiting? && s.handles[c].keep.next <= s.now
    case ProbeOk(c) => c in s.handles && s.handles[c].keep.Probing?
      && (s.handles[c].death.None? || s.handles[c].keep.start <= s.handles[c].death.value)
    case ProbeFails(c) => c in s.handles && s.handles[c].keep.Probing?
    case Die(c) => c in s.handles && s.handles[c].death.None?
  }

  function At(s: State, r: Replica, stage: Stage): State {
    s.(stages := s.stages[r := stage])
  }

  function With(s: State, c: Session, h: Handle): State {
    s.(handles := s.handles[c := h])
  }

  function Freed(holder: Option<Session>, c: Session): Option<Session> {
    if holder == Some(c) then None else holder
  }

  function AfterTryLock(s: State, r: Replica, c: Session): State {
    if s.holder.None?
    then With(At(s, r, Selecting(c)), c,
        Handle(r, None, Waiting(s.now + KEEPALIVE), true, false, 0)).(holder := Some(c))
    else At(s, r, Asleep(s.now + REACQUIRE))
  }

  function AfterReact(s: State, r: Replica, after: After): State
    requires HoldsAt(s, r)
  {
    var c := s.stages[r].c;
    With(At(s, r, Draining(c, after)), c, s.handles[c].(cancelled := true))
  }

  /** The unlock may fail to reach a session; the lock then stays until the session dies. */
  function AfterRelease(s: State, r: Replica, reached: bool): State
    requires Enabled(s, Release(r, reached))
  {
    var c := s.stages[r].c;
    var h := s.handles[c];
    var after := s.stages[r].after;
    var stage :=
      if r in s.stopped || after.Quit? then Returned
      else if after.Pause? then Asleep(s.now + REACQUIRE)
      else Top;
    var holder := if reached then Freed(s.holder, c) else s.holder;
    With(At(s, r, stage), c, h.(keep := Halted, released := h.released + 1)).(holder := holder)
  }

  function Step(s: State, l: Label): State
    requires Enabled(s, l)
  {
    match l
    case Tick(secs) => s.(now := s.now + secs)
    case Start(r) => At(s, r, Top)
    case Sigterm(r) => s.(stopped := s.stopped + {r})
    case TryLock(r, c) => AfterTryLock(s, r, c)
    case TryFails(r) => At(s, r, Asleep(s.now + REACQUIRE))
    case Wake(r) => At(s, r, Top)
    case GiveUp(r) => At(s, r, Returned)
    case BodyReturns(c) => With(s, c, s.handles[c].(running := false))
    case React(r, after) => AfterReact(s, r, after)
    case Release(r, reached) => AfterRelease(s, r, reached)
    case ProbeStart(c) => With(s, c, s.handles[c].(keep := Probing(s.now)))
    case ProbeOk(c) => With(s, c, s.handles[c].(keep := Waiting(s.handles[c].keep.start + KEEPALIVE)))
    case ProbeFails(c) => With(s, c, s.handles[c].(keep := Lost))
    case Die(c) => With(s, c, s.handles[c].(death := Some(s.now))).(holder := Freed(s.holder, c))
  }

  ghost predicate IsRun(s: State, ls: seq<Label>)
    decreases |ls|
  {
    ls == [] || (Enabled(s, ls[0]) && IsRun(Step(s, ls[0]), ls[1..]))
  }

  ghost function Final(s: State, ls: seq<Label>): State
    requires IsRun(s, ls)
    decreases |ls|
  {
    if ls == [] then s else Final(Step(s, ls[0]), ls[1..])
  }

  // ---- the invariant ----

  predicate Supervises(s: State, c: Session)
    requires c in s.handles
  {
    var r := s.handles[c].owner;
    r in s.stages && (s.stages[r].Selecting? || s.stages[r].Draining?) && s.stages[r].c == c
  }

  /** Where the handle is in its life: held, drained, released. */
  predicate Ordered(s: State, c: Session)
    requires c in s.handles
  {
    var h := s.handles[c];
    && h.released == (if Supervises(s, c) then 0 else 1)
    && (h.running ==> h.released == 0)
    && (h.released == 0 ==> h.cancelled == s.stages[h.owner].Draining?)
    && (h.keep.Halted? <==> h.released != 0)
  }

  /** A held session that lives has the lock. */
  predicate Locked(s: State, c: Session)
    requires c in s.handles
  {
    var h := s.handles[c];
    && (h.death.None? && h.released == 0 ==> s.holder == Some(c))
    && (s.holder == Some(c) ==> h.death.None?)
  }

  /** How late the keepalive can be, relative to the last moment the session was known to live. */
  predicate Punctual(now: nat, h: Handle) {
    var last := if h.death.Some? then h.death.value else now;
    && last <= now
    && match h.keep
       case Waiting(next) => now <= next <= last + KEEPALIVE
       case Probing(start) => start <= now <= start + PROBE && start <= last + KEEPALIVE
       case Lost => h.cancelled || now <= last + KEEPALIVE + PROBE
       case Halted => true
  }

  ghost predicate Inv(s: State) {
    && (forall c :: c in s.handles ==> Ordered(s, c) && Locked(s, c) && Punctual(s.now, s.handles[c]))
    && (forall r :: r in s.stages && (s.stages[r].Selecting? || s.stages[r].Draining?) ==>
          s.stages[r].c in s.handles && s.handles[s.stages[r].c].owner == r)
    && (s.holder.Some? ==> s.holder.value in s.handles)
  }

  /** One handle changes, and nothing the others depend on. */
  lemma HandleStep(s: State, c: Session, h: Handle)
    requires Inv(s) && c in s.handles && h.owner == s.handles[c].owner
    requires Ordered(With(s, c, h), c) && Locked(With(s, c, h), c) && Punctual(s.now, h)
    ensures Inv(With(s, c, h))
  {
    var s2 := With(s, c, h);
    forall d | d in s2.handles ensures Ordered(s2, d) && Locked(s2, d) && Punctual(s2.now, s2.handles[d]) {
      assert d != c ==> Ordered(s, d) && Locked(s, d) && Punctual(s.now, s.handles[d]);
    }
  }

  /** A replica that holds nothing moves to a stage that holds nothing. */
  lemma StageStep(s: State, r: Replica, stage: Stage)
    requires Inv(s) && (r in s.stages ==> !s.stages[r].Selecting? && !s.stages[r].Draining?)
    requires !stage.Selecting? && !stage.Draining?
    ensures Inv(At(s, r, stage))
  {
    var s2 := At(s, r, stage);
    forall d | d in s2.handles ensures Ordered(s2, d) && Locked(s2, d) && Punctual(s2.now, s2.handles[d]) {
      assert Ordered(s, d) && Locked(s, d) && Punctual(s.now, s.handles[d]);
    }
  }

  lemma TickStep(s: State, secs: nat)
    requires Inv(s) && Enabled(s, Tick(secs))
    ensures Inv(s.(now := s.now + secs))
  {
    var s2 := s.(now := s.now + secs);
    forall d | d in s2.handles ensures Ordered(s2, d) && Locked(s2, d) && Punctual(s2.now, s2.handles[d]) {
      assert Ordered(s, d) && Locked(s, d) && Punctual(s.now, s.handles[d]) && InTime(s.handles[d], s2.now);
    }
  }

  lemma TryLockStep(s: State, r: Replica, c: Session)
    requires Inv(s) && Enabled(s, TryLock(r, c))
    ensures Inv(AfterTryLock(s, r, c))
  {
    if s.holder.None? {
      var s2 := AfterTryLock(s, r, c);
      forall d | d in s2.handles ensures Ordered(s2, d) && Locked(s2, d) && Punctual(s2.now, s2.handles[d]) {
        assert d != c ==> Ordered(s, d) && Locked(s, d) && Punctual(s.now, s.handles[d]);
      }
    } else {
      StageStep(s, r, Asleep(s.now + REACQUIRE));
    }
  }

  lemma ReactStep(s: State, r: Replica, after: After)
    requires Inv(s) && Enabled(s, React(r, after))
    ensures Inv(AfterReact(s, r, after))
  {
    var s2 := AfterReact(s, r, after);
    forall d | d in s2.handles ensures Ordered(s2, d) && Locked(s2, d) && Punctual(s2.now, s2.handles[d]) {
      assert Ordered(s, d) && Locked(s, d) && Punctual(s.now, s.handles[d]);
    }
  }

  lemma ReleaseStep(s: State, r: Replica, reached: bool)
    requires Inv(s) && Enabled(s, Release(r, reached))
    ensures Inv(AfterRelease(s, r, reached))
  {
    var s2 := AfterRelease(s, r, reached);
    forall d | d in s2.handles ensures Ordered(s2, d) && Locked(s2, d) && Punctual(s2.now, s2.handles[d]) {
      assert Ordered(s, d) && Locked(s, d) && Punctual(s.now, s.handles[d]);
    }
  }

  lemma DieStep(s: State, c: Session)
    requires Inv(s) && Enabled(s, Die(c))
    ensures Inv(Step(s, Die(c)))
  {
    var s2 := Step(s, Die(c));
    forall d | d in s2.handles ensures Ordered(s2, d) && Locked(s2, d) && Punctual(s2.now, s2.handles[d]) {
      assert Ordered(s, d) && Locked(s, d) && Punctual(s.now, s.handles[d]);
    }
  }

  lemma SigtermStep(s: State, r: Replica)
    requires Inv(s)
    ensures Inv(s.(stopped := s.stopped + {r}))
  {
    var s2 := s.(stopped := s.stopped + {r});
    forall d | d in s2.handles ensures Ordered(s2, d) && Locked(s2, d) && Punctual(s2.now, s2.handles[d]) {
      assert Ordered(s, d) && Locked(s, d) && Punctual(s.now, s.handles[d]);
    }
  }

  lemma ProbeStep(s: State, l: Label)
    requires Inv(s) && Enabled(s, l) && (l.ProbeStart? || l.ProbeOk? || l.ProbeFails? || l.BodyReturns?)
    ensures Inv(Step(s, l))
  {
    assert Ordered(s, l.c) && Locked(s, l.c) && Punctual(s.now, s.handles[l.c]);
    hide Inv;
    HandleStep(s, l.c, Step(s, l).handles[l.c]);
  }

  lemma InvStep(s: State, l: Label)
    requires Inv(s) && Enabled(s, l)
    ensures Inv(Step(s, l))
  {
    hide Inv, AfterTryLock, AfterReact, AfterRelease;
    match l
    case Tick(secs) => TickStep(s, secs);
    case Start(r) => StageStep(s, r, Top);
    case Sigterm(r) => SigtermStep(s, r);
    case TryLock(r, c) => TryLockStep(s, r, c);
    case TryFails(r) => StageStep(s, r, Asleep(s.now + REACQUIRE));
    case Wake(r) => StageStep(s, r, Top);
    case GiveUp(r) => StageStep(s, r, Returned);
    case React(r, after) => ReactStep(s, r, after);
    case Release(r, reached) => ReleaseStep(s, r, reached);
    case Die(c) => DieStep(s, c);
    case BodyReturns(_) | ProbeStart(_) | ProbeOk(_) | ProbeFails(_) => ProbeStep(s, l);
  }

  lemma {:induction false} InvRun(s: State, ls: seq<Label>)
    requires Inv(s) && IsRun(s, ls)
    ensures Inv(Final(s, ls))
    decreases |ls|
  {
    hide Inv, Enabled, Step;
    if ls != [] {
      InvStep(s, ls[0]);
      InvRun(Step(s, ls[0]), ls[1..]);
    }
  }

  // ---- the theorems ----

  /**
   A handle's life, in every run: the body runs only while the handle is held, the handle is
   released at most once, and it has been released exactly when its supervisor has moved on from
   it, after the body drained.
   */
  lemma HandleLife(ls: seq<Label>, c: Session)
    requires IsRun(INITIAL, ls) && c in Final(INITIAL, ls).handles
    ensures var s := Final(INITIAL, ls); var h := s.handles[c];
            && h.released <= 1
            && (h.released == 0 <==> Supervises(s, c))
            && (h.running ==> h.released == 0)
            && (h.owner in s.stages && s.stages[h.owner].Returned? ==> h.released == 1 && !h.running)
  {
    InvRun(INITIAL, ls);
    hide IsRun, Final;
    assert Ordered(Final(INITIAL, ls), c);
  }

  lemma ExclusionOf(s: State, c: Session, d: Session)
    requires Inv(s) && c != d && c in s.handles && d in s.handles && s.handles[c].running && s.handles[d].running
    ensures s.handles[c].owner != s.handles[d].owner && (s.handles[c].death.Some? || s.handles[d].death.Some?)
  {
    assert Ordered(s, c) && Ordered(s, d) && Locked(s, c) && Locked(s, d);
  }

  /**
   Exclusion, in every run: two bodies never run on one replica, and when two run on different
   replicas, one of their sessions is dead.
   */
  lemma Exclusion(ls: seq<Label>, c: Session, d: Session)
    requires IsRun(INITIAL, ls)
    requires var hs := Final(INITIAL, ls).handles; c != d && c in hs && d in hs && hs[c].running && hs[d].running
    ensures var s := Final(INITIAL, ls);
            && s.handles[c].owner != s.handles[d].owner
            && (s.handles[c].death.Some? || s.handles[d].death.Some?)
  {
    InvRun(INITIAL, ls);
    hide IsRun, Final;
    ExclusionOf(Final(INITIAL, ls), c, d);
  }

  /**
   A body whose session died has been told to stop once the keepalive interval and the probe
   timeout have passed: from then on it only drains.
   */
  lemma LeftoverIsBrief(ls: seq<Label>, c: Session)
    requires IsRun(INITIAL, ls)
    requires var hs := Final(INITIAL, ls).handles; c in hs && hs[c].running && hs[c].death.Some? && !hs[c].cancelled
    ensures var s := Final(INITIAL, ls); s.now <= s.handles[c].death.value + 20
  {
    InvRun(INITIAL, ls);
    hide IsRun, Final;
    var s := Final(INITIAL, ls);
    assert Ordered(s, c) && Punctual(s.now, s.handles[c]);
  }

  /** Only the death of a session marks a handle dead. */
  lemma {:induction false} NoDeath(s: State, ls: seq<Label>)
    requires IsRun(s, ls) && (forall l :: l in ls ==> !l.Die?)
    requires forall c :: c in s.handles ==> s.handles[c].death.None?
    ensures forall c :: c in Final(s, ls).handles ==> Final(s, ls).handles[c].death.None?
    decreases |ls|
  {
    if ls != [] {
      NoDeathStep(s, ls[0]);
      hide Enabled, Step;
      NoDeath(Step(s, ls[0]), ls[1..]);
    }
  }

  lemma NoDeathStep(s: State, l: Label)
    requires Enabled(s, l) && !l.Die? && forall c :: c in s.handles ==> s.handles[c].death.None?
    ensures forall c :: c in Step(s, l).handles ==> Step(s, l).handles[c].death.None?
  {
    match l
    case TryLock(_, _) =>
    case React(_, _) =>
    case Release(_, _) =>
    case _ =>
  }

  /** While no session dies, the loop is a singleton. */
  lemma Singleton(ls: seq<Label>, c: Session, d: Session)
    requires IsRun(INITIAL, ls) && (forall l :: l in ls ==> !l.Die?)
    requires var hs := Final(INITIAL, ls).handles; c in hs && d in hs && hs[c].running && hs[d].running
    ensures c == d
  {
    NoDeath(INITIAL, ls);
    if c != d {
      hide IsRun, Final;
      Exclusion(ls, c, d);
      assert false;
    }
  }

  // ---- when a supervisor goes on, waits, or ends ----

  /** A supervisor has ended, or is about to, only if its replica was told to stop. */
  ghost predicate Ends(s: State) {
    forall r :: r in s.stages && (s.stages[r].Returned? || (s.stages[r].Draining? && s.stages[r].after.Quit?)) ==>
      r in s.stopped
  }

  lemma EndsStep(s: State, l: Label)
    requires Ends(s) && Enabled(s, l)
    ensures Ends(Step(s, l))
  {
    hide InTime;
  }

  lemma {:induction false} EndsRun(s: State, ls: seq<Label>)
    requires Ends(s) && IsRun(s, ls)
    ensures Ends(Final(s, ls))
    decreases |ls|
  {
    hide Ends, Enabled, Step;
    if ls != [] {
      EndsStep(s, ls[0]);
      EndsRun(Step(s, ls[0]), ls[1..]);
    }
  }

  /** In every run a supervisor that has returned was told to stop: a lost lock or a body that ended does not end it. */
  lemma ReturnedWasStopped(ls: seq<Label>, r: Replica)
    requires IsRun(INITIAL, ls) && r in Final(INITIAL, ls).stages && Final(INITIAL, ls).stages[r].Returned?
    ensures r in Final(INITIAL, ls).stopped
  {
    EndsRun(INITIAL, ls);
    hide IsRun, Final;
  }

  /** No step of the sequence releases the replica's handle. */
  predicate NoRelease(ls: seq<Label>, r: Replica) {
    forall l :: l in ls ==> !(l.Release? && l.r == r)
  }

  /** A supervisor that waits for its body goes on waiting until it releases the handle. */
  lemma {:induction false} DrainsOn(s: State, ls: seq<Label>, r: Replica, c: Session, after: After)
    requires IsRun(s, ls) && NoRelease(ls, r) && r in s.stages && s.stages[r] == Draining(c, after)
    ensures r in Final(s, ls).stages && Final(s, ls).stages[r] == Draining(c, after)
    decreases |ls|
  {
    if ls != [] {
      assert ls[0] in ls && NoRelease(ls[1..], r);
      assert Enabled(s, ls[0]);
      assert r in Step(s, ls[0]).stages && Step(s, ls[0]).stages[r] == Draining(c, after) by {
        hide InTime, IsRun;
      }
      hide Enabled, Step;
      DrainsOn(Step(s, ls[0]), ls[1..], r, c, after);
    }
  }

  /**
   What a supervisor does after its handle is released, whatever happens in between. Told to stop, it
   ends. Otherwise it competes again: at once when its body had ended by itself, and after a pause of
   15 seconds when its lock was lost.
   */
  lemma ReleaseLeads(s: State, r: Replica, after: After, ls: seq<Label>, reached: bool)
    requires Enabled(s, React(r, after)) && IsRun(Step(s, React(r, after)), ls) && NoRelease(ls, r)
    requires Enabled(Final(Step(s, React(r, after)), ls), Release(r, reached))
    ensures var c := s.stages[r].c; var last := Final(Step(s, React(r, after)), ls);
            var stage := Step(last, Release(r, reached)).stages[r];
            && (r in last.stopped ==> stage == Returned)
            && (after.Quit? ==> stage == Returned)
            && (after.Again? ==> !s.handles[c].running && (r !in last.stopped ==> stage == Top))
            && (after.Pause? ==> s.handles[c].keep.Lost? && (r !in last.stopped ==> stage == Asleep(last.now + 15)))
  {
    DrainsOn(Step(s, React(r, after)), ls, r, s.stages[r].c, after);
    hide IsRun, Final, InTime;
  }

  /** A replica that cannot have the lock tries again 15 seconds later, and it cannot have it while it is held. */
  lemma StandbyWaits(s: State, r: Replica, c: Session)
    requires Enabled(s, TryLock(r, c))
    ensures Step(s, TryFails(r)).stages[r] == Asleep(s.now + 15)
    ensures s.holder.Some? ==> Step(s, TryLock(r, c)) == s.(stages := s.stages[r := Asleep(s.now + 15)])
    ensures forall t :: t in s.stages && s.stages[t] == Asleep(s.now + 15) ==> !Enabled(s, Wake(t))
  {
  }

  /** A free lock is taken: the body runs in a new session that holds it, and is probed within 10 seconds. */
  lemma LeaderStarts(s: State, r: Replica, c: Session)
    requires Enabled(s, TryLock(r, c)) && s.holder.None?
    ensures var s2 := Step(s, TryLock(r, c));
            && s2.stages[r] == Selecting(c) && s2.holder == Some(c) && c in s2.handles
            && s2.handles[c].owner == r && s2.handles[c].running && !s2.handles[c].cancelled
            && !Enabled(s2, Tick(11))
  {
    var s2 := Step(s, TryLock(r, c));
    assert !InTime(s2.handles[c], s2.now + 11);
  }

  // ---- the bound is reached ----

  ghost predicate LeadsTo(ls: seq<Label>, s: State) {
    IsRun(INITIAL, ls) && Final(INITIAL, ls) == s
  }

  lemma {:induction false} RunExtends(s: State, ls: seq<Label>, l: Label)
    requires IsRun(s, ls) && Enabled(Final(s, ls), l)
    ensures IsRun(s, ls + [l]) && Final(s, ls + [l]) == Step(Final(s, ls), l)
    decreases |ls|
  {
    hide Enabled, Step;
    if ls == [] {
      assert ls + [l] == [l];
      assert IsRun(Step(s, l), []);
    } else {
      RunExtends(Step(s, ls[0]), ls[1..], l);
      assert (ls + [l])[1..] == ls[1..] + [l];
    }
  }

  lemma Then(ls: seq<Label>, s: State, l: Label, s2: State) returns (longer: seq<Label>)
    requires LeadsTo(ls, s) && Enabled(s, l) && Step(s, l) == s2
    ensures LeadsTo(longer, s2)
  {
    hide Enabled, Step;
    RunExtends(INITIAL, ls, l);
    longer := ls + [l];
  }

  /** Replicas 0 and 1 with handles 0 and 1. */
  function Pair(now: nat, second: Stage, keep0: Keepalive, death: Option<nat>, handles: map<Session, Handle>,
      holder: Option<Session>): State {
    State(now, map[0 := Selecting(0), 1 := second], {}, handles[0 := Handle(0, death, keep0, true, false, 0)], holder)
  }

  function Alone(now: nat, keep0: Keepalive, death: Option<nat>, holder: Option<Session>): State {
    Pair(now, Top, keep0, death, map[], holder)
  }

  function Both(now: nat, keep0: Keepalive, keep1: Keepalive): State {
    Pair(now, Selecting(1), keep0, Some(10), map[1 := Handle(1, None, keep1, true, false, 0)], Some(1))
  }

  lemma FirstLeader() returns (ls: seq<Label>)
    ensures LeadsTo(ls, Alone(10, Probing(10), None, Some(0)))
  {
    var s1 := State(0, map[0 := Top], {}, map[], None);
    var s2 := State(0, map[0 := Top, 1 := Top], {}, map[], None);
    assert LeadsTo([], INITIAL);
    hide LeadsTo;
    ls := Then([], INITIAL, Start(0), s1);
    ls := Then(ls, s1, Start(1), s2);
    ls := Then(ls, s2, TryLock(0, 0), Alone(0, Waiting(10), None, Some(0)));
    ls := Then(ls, Alone(0, Waiting(10), None, Some(0)), Tick(10), Alone(10, Waiting(10), None, Some(0)));
    ls := Then(ls, Alone(10, Waiting(10), None, Some(0)), ProbeStart(0), Alone(10, Probing(10), None, Some(0)));
  }

  lemma SecondLeader() returns (ls: seq<Label>)
    ensures LeadsTo(ls, Both(10, Waiting(20), Waiting(20)))
  {
    ls := FirstLeader();
    hide LeadsTo;
    ls := Then(ls, Alone(10, Probing(10), None, Some(0)), Die(0), Alone(10, Probing(10), Some(10), None));
    ls := Then(ls, Alone(10, Probing(10), Some(10), None), ProbeOk(0), Alone(10, Waiting(20), Some(10), None));
    ls := Then(ls, Alone(10, Waiting(20), Some(10), None), TryLock(1, 1), Both(10, Waiting(20), Waiting(20)));
  }

  /**
   Bodies do overlap, and the bound is exact: in some run the session of one of two running bodies
   has been dead for 20 seconds and the body has not been told to stop.
   */
  lemma OverlapHappens() returns (ls: seq<Label>)
    ensures IsRun(INITIAL, ls)
    ensures var s := Final(INITIAL, ls);
            && 0 in s.handles && 1 in s.handles && s.handles[0].running && s.handles[1].running
            && s.handles[0].death.Some? && s.now == s.handles[0].death.value + 20 && !s.handles[0].cancelled
  {
    ls := SecondLeader();
    ls := Overlapping(ls);
  }

  lemma Overlapping(ls: seq<Label>) returns (longer: seq<Label>)
    requires LeadsTo(ls, Both(10, Waiting(20), Waiting(20)))
    ensures LeadsTo(longer, Both(30, Probing(20), Waiting(30)))
  {
    hide LeadsTo;
    longer := Then(ls, Both(10, Waiting(20), Waiting(20)), Tick(10), Both(20, Waiting(20), Waiting(20)));
    longer := Then(longer, Both(20, Waiting(20), Waiting(20)), ProbeStart(0), Both(20, Probing(20), Waiting(20)));
    longer := Then(longer, Both(20, Probing(20), Waiting(20)), ProbeStart(1), Both(20, Probing(20), Probing(20)));
    longer := Then(longer, Both(20, Probing(20), Probing(20)), ProbeOk(1), Both(20, Probing(20), Waiting(30)));
    longer := Then(longer, Both(20, Probing(20), Waiting(30)), Tick(10), Both(30, Probing(20), Waiting(30)));
  }
}
