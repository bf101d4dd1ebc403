/**
 The reboot machine: what any run of heartbeats, pauses and manual requests makes of a node's
 reboot flag.
 */
module Reboots {
  import opened Wrappers
  import opened Nodes
  import Text

  datatype Event =
    | Beat(rep: Report, reportsJobs: bool, active: nat, env: Env)
    | SetEnabled(on: bool)
    | RequestReboot(now: int)

  /** The row, the last instant seen, and the instant of the last idle heartbeat. */
  datatype Machine = Machine(row: Row, clock: int, idleAt: Option<int>)

  predicate IsIdle(e: Event) {
    e.Beat? && !e.rep.syncing && !e.reportsJobs
  }

  /** Events carry the controllers' clock, which does not run backwards; the grace period is fixed. */
  predicate Possible(m: Machine, e: Event, grace: int) {
    match e
    case Beat(_, _, _, env) => env.now >= m.clock && env.grace == grace
    case SetEnabled(_) => true
    case RequestReboot(now) => now >= m.clock
  }

  function After(m: Machine, e: Event): Machine {
    match e
    case Beat(rep, jobs, active, env) =>
      Machine(Decide(m.row, rep, rep.syncing || jobs, active, env).0, env.now,
              if IsIdle(e) then Some(env.now) else m.idleAt)
    case SetEnabled(on) => m.(row := Toggled(m.row, on))
    case RequestReboot(now) => m.(row := Requested(m.row, now), clock := now)
  }

  ghost predicate IsRun(m: Machine, es: seq<Event>, grace: int)
    decreases |es|
  {
    es == [] || (Possible(m, es[0], grace) && IsRun(After(m, es[0]), es[1..], grace))
  }

  function Final(m: Machine, es: seq<Event>): Machine
    decreases |es|
  {
    if es == [] then m else Final(After(m, es[0]), es[1..])
  }

  /** A flagged attempt is dated, not in the future, and at most `grace` older than the last idle heartbeat. */
  ghost predicate Fresh(m: Machine, grace: int) {
    && (m.idleAt.Some? ==> m.idleAt.value <= m.clock)
    && (m.row.pending ==>
          && m.row.issuedAt.Some? && m.row.issuedAt.value <= m.clock
          && (m.idleAt.Some? ==> m.row.issuedAt.value >= m.idleAt.value - grace))
  }

  lemma FreshStep(m: Machine, e: Event, grace: int)
    requires 0 <= grace && Fresh(m, grace) && Possible(m, e, grace)
    ensures Fresh(After(m, e), grace)
  {
  }

  /** Every run from a row that is not flagged keeps `Fresh`. */
  lemma {:induction false} FreshAlways(m: Machine, es: seq<Event>, grace: int)
    requires 0 <= grace && Fresh(m, grace) && IsRun(m, es, grace)
    ensures Fresh(Final(m, es), grace)
    decreases |es|
  {
    if es != [] {
      FreshStep(m, es[0], grace);
      FreshAlways(After(m, es[0]), es[1..], grace);
    }
  }

  lemma {:induction false} IdleOnlyGrows(m: Machine, es: seq<Event>, grace: int)
    requires IsRun(m, es, grace) && m.idleAt.Some? && m.idleAt.value <= m.clock
    ensures Final(m, es).idleAt.Some? && Final(m, es).idleAt.value >= m.idleAt.value
    decreases |es|
  {
    if es != [] {
      IdleOnlyGrows(After(m, es[0]), es[1..], grace);
    }
  }

  /**
   No attempt survives its grace period: once an idle heartbeat has been answered more than
   `grace` after an attempt was issued, no later state of the run is flagged with that attempt.
   */
  lemma AttemptExpires(m: Machine, before: seq<Event>, beat: Event, later: seq<Event>, grace: int, issued: int)
    requires 0 <= grace && !m.row.pending && m.idleAt.None?
    requires IsRun(m, before, grace) && Possible(Final(m, before), beat, grace) && IsIdle(beat)
    requires beat.env.now > issued + grace
    requires IsRun(After(Final(m, before), beat), later, grace)
    ensures var row := Final(After(Final(m, before), beat), later).row;
            !(row.pending && row.issuedAt == Some(issued))
  {
    FreshAlways(m, before, grace);
    var at := Final(m, before);
    FreshStep(at, beat, grace);
    FreshAlways(After(at, beat), later, grace);
    IdleOnlyGrows(After(at, beat), later, grace);
  }

  /** An enabled idle node whose counter blocks assignment, yet which is not told to reboot. */
  predicate HeldBack(row: Row, rep: Report, active: nat, env: Env) {
    && row.enabled && !rep.syncing && rep.tasks >= env.bootLimit
    && !Decide(row, rep, false, active, env).1.Reboot?
  }

  /**
   The reboot test uses the live limit and the assignment gate the boot-time one: no report of any
   node is held back by its counter exactly when the live limit is not above the boot-time limit.
   */
  lemma CounterNeverHoldsIff(env: Env)
    ensures (forall row, rep, active :: !HeldBack(row, rep, active, env)) <==> env.RebootLimit() <= env.bootLimit
  {
    if env.RebootLimit() > env.bootLimit {
      var rep := Report(env.bootLimit, false, "", 0, 0, "");
      var row := Row(true, Idle, 0, "", 0, 0, "", false, None, 1);
      assert HeldBack(row, rep, 0, env);
    }
  }

  // ---- what an answer says about the stored row ----

  /**
   A node is told to reboot exactly when the row stored by the same heartbeat is flagged, the node
   idle and enabled.
   */
  lemma RebootIffFlagged(row: Row, rep: Report, busy: bool, active: nat, env: Env)
    ensures var (stored, verdict) := Decide(row, rep, busy, active, env);
            verdict.Reboot? <==> stored.enabled && !busy && stored.pending
  {
  }

  /**
   A lost instruction is repeated: while an attempt is open, every idle heartbeat within its grace
   period that shows no restart is answered with it.
   */
  lemma RebootIsReissued(m: Machine, es: seq<Event>, grace: int, beat: Event)
    requires 0 <= grace && Fresh(m, grace) && IsRun(m, es, grace) && Possible(Final(m, es), beat, grace) && IsIdle(beat)
    requires var row := Final(m, es).row;
             && row.enabled && row.pending && row.issuedAt.Some?
             && beat.rep.tasks >= row.tasks && beat.env.now <= row.issuedAt.value + grace
    ensures var (stored, verdict) := Decide(Final(m, es).row, beat.rep, false, beat.active, beat.env);
            verdict.Reboot? && stored.pending && stored.issuedAt == Final(m, es).row.issuedAt
  {
    FreshAlways(m, es, grace);
  }

  /**
   Work is offered only to an enabled, unflagged node that is not syncing, below the boot-time
   limit, and never beyond its free slots.
   */
  lemma FillIsSafe(row: Row, rep: Report, busy: bool, active: nat, env: Env)
    ensures var (stored, verdict) := Decide(row, rep, busy, active, env);
            verdict.Fill? ==>
                stored.enabled && !stored.pending && !rep.syncing && rep.tasks < env.bootLimit && !env.hold
                              && 0 < verdict.slots && active + verdict.slots == Slots(stored)
  {
  }

  // ---- how an attempt ends ----

  /** The counter from which an idle node is rebooted: a saved positive limit, or else the boot-time one. */
  function Limit(env: Env): int {
    match env.liveLimit
    case None => env.bootLimit
    case Some(live) => if live <= 0 then env.bootLimit else live
  }

  /**
   A node that comes back from a reboot, idle and with its counter reset, is done with the attempt: the
   flag and its date are gone, and it is not told to reboot again.
   */
  lemma RestartEndsAttempt(row: Row, rep: Report, active: nat, env: Env)
    requires rep.tasks < row.tasks && rep.tasks < Limit(env)
    ensures var (stored, verdict) := Decide(row, rep, false, active, env);
            !stored.pending && (row.pending ==> stored.issuedAt.None?) && !verdict.Reboot?
  {
  }

  /** The heartbeat shows that the node restarted since the last one, or finds the attempt undated or too old. */
  predicate Over(row: Row, rep: Report, busy: bool, env: Env) {
    && !busy
    && (rep.tasks < row.tasks || row.issuedAt == None
        || (row.issuedAt.Some? && row.issuedAt.value < env.now - env.grace))
  }

  /**
   Exactly then an open attempt ends; otherwise the flag and its date stay. An attempt that ended is
   followed by a new one in the same heartbeat if and only if the enabled node is at the limit.
   */
  lemma AttemptEndsIff(row: Row, rep: Report, busy: bool, active: nat, env: Env)
    requires row.pending
    ensures var stored := Decide(row, rep, busy, active, env).0;
            if !Over(row, rep, busy, env) then stored.pending && stored.issuedAt == row.issuedAt
            else if row.enabled && rep.tasks >= Limit(env) then stored.pending && stored.issuedAt == Some(env.now)
            else !stored.pending && stored.issuedAt.None?
  {
  }

  /** A row that is not flagged becomes so exactly when an enabled idle node is at the limit. */
  lemma AttemptStartsIff(row: Row, rep: Report, busy: bool, active: nat, env: Env)
    requires !row.pending
    ensures var stored := Decide(row, rep, busy, active, env).0;
            && (stored.pending <==> row.enabled && !busy && rep.tasks >= Limit(env))
            && stored.issuedAt == if stored.pending then Some(env.now) else row.issuedAt
  {
  }

  // ---- the other columns and answers ----

  /** What is published for the node's platform differs from what the node reports. */
  predicate Behind(m: Manifest, platform: string, rep: Report) {
    if platform == "linux" then m.linuxAgent != "" && m.linuxAgent != rep.agentVersion
    else
      || (m.agent != "" && m.agent != rep.agentVersion)
      || (m.lib > 0 && m.lib != rep.libVersion) || (m.bin > 0 && m.bin != rep.binVersion)
  }

  /**
   An update is the answer exactly when the enabled idle node need not reboot and runs other versions
   than are published for its platform; a Linux node is offered the Linux agent and nothing else.
   */
  lemma UpdateIff(row: Row, rep: Report, busy: bool, active: nat, env: Env)
    ensures var (stored, verdict) := Decide(row, rep, busy, active, env);
            && (verdict.Update? <==>
                  row.enabled && !busy && !stored.pending && Behind(env.manifest, stored.platform, rep))
            && (verdict.Update? ==>
                  verdict.manifest ==
                  if stored.platform == "linux" then Manifest(env.manifest.linuxAgent, "", 0, 0) else env.manifest)
  {
  }

  /** Updates come to an end: a node that reports what it was offered is not offered it again. */
  lemma UpdateConverges(row: Row, rep: Report, busy: bool, active: nat, env: Env, next: Report, later: nat, env2: Env)
    requires Decide(row, rep, busy, active, env).1.Update?
    requires env2.manifest == env.manifest && (next.platform == "" || next.platform == rep.platform)
    requires var m := Decide(row, rep, busy, active, env).1.manifest;
             && (m.agent != "" ==> next.agentVersion == m.agent)
             && (m.lib > 0 ==> next.libVersion == m.lib) && (m.bin > 0 ==> next.binVersion == m.bin)
    ensures !Decide(Decide(row, rep, busy, active, env).0, next, busy, later, env2).1.Update?
  {
  }

  /**
   Work is the answer exactly when the enabled node is told neither to reboot nor to update, does not
   sync, is not flagged, is below the boot-time limit, nothing holds work back, and a slot is free. A
   cap below one counts as one.
   */
  lemma FillIff(row: Row, rep: Report, busy: bool, active: nat, env: Env)
    ensures var (stored, verdict) := Decide(row, rep, busy, active, env);
            verdict.Fill? <==>
              && row.enabled && !verdict.Reboot? && !verdict.Update? && !rep.syncing && !stored.pending
              && rep.tasks < env.bootLimit && !env.hold && (active < row.cap || active == 0)
    ensures var verdict := Decide(row, rep, busy, active, env).1;
            verdict.Fill? ==> verdict.slots + active == if row.cap > 1 then row.cap else 1
  {
  }

  /** The row records the report; a platform is kept when the report names none. */
  lemma ReportIsStored(row: Row, rep: Report, busy: bool, active: nat, env: Env)
    ensures var stored := Decide(row, rep, busy, active, env).0;
            && stored.tasks == rep.tasks && stored.agentVersion == rep.agentVersion
            && stored.libVersion == rep.libVersion && stored.binVersion == rep.binVersion
            && stored.enabled == row.enabled && stored.cap == row.cap
            && (rep.platform == "" ==> stored.platform == row.platform)
            && (rep.platform != "" ==> |stored.platform| == |rep.platform| && forall i :: 0 <= i < |rep.platform| ==>
                  stored.platform[i] == Text.LowerChar(rep.platform[i]))
  {
  }

  /** A node without a fresh attempt shows as busy while it syncs or is full, else as waiting for its reboot or idle. */
  lemma StatusIs(row: Row, rep: Report, busy: bool, active: nat, env: Env)
    ensures var stored := Decide(row, rep, busy, active, env).0;
            var full := rep.syncing || (active >= row.cap && active >= 1);
            && (stored.status == Busy ==> full)
            && (full ==> stored.status == Busy || (stored.status == RebootPending && stored.pending))
            && (!full ==> stored.status == if stored.pending then RebootPending else Idle)
  {
  }

  // ---- operators ----

  /** Pausing a node takes its attempt back for good: resuming does not bring it back. */
  lemma PauseCancels(m: Machine)
    ensures var paused := After(m, SetEnabled(false));
            !paused.row.pending && !paused.row.enabled
            && !After(paused, SetEnabled(true)).row.pending && After(paused, SetEnabled(true)).row.enabled
  {
  }

  /** A paused node is told nothing, whatever it reports. */
  lemma PausedIsLeftAlone(row: Row, rep: Report, busy: bool, active: nat, env: Env)
    requires !row.enabled
    ensures Decide(row, rep, busy, active, env).1.Ack?
  {
  }

  /** An operator's request is answered by the next idle heartbeat, unless the node restarted or the request is old. */
  lemma RequestIsAnswered(m: Machine, now: int, rep: Report, active: nat, env: Env)
    requires m.row.enabled && now <= env.now <= now + env.grace && rep.tasks >= m.row.tasks
    ensures Decide(After(m, RequestReboot(now)).row, rep, false, active, env).1.Reboot?
  {
  }
}
