/**
 The controller's view of one node: what a heartbeat writes into the node row, and which
 instruction it is answered with. Times are whole seconds.
 */
module Nodes {
  import opened Wrappers
  import Text

  datatype Status = Idle | Busy | RebootPending

  /** The columns of a node row that take part in a decision. */
  datatype Row = Row(
    enabled: bool, status: Status, tasks: int,
    agentVersion: string, libVersion: int, binVersion: int, platform: string,
    pending: bool, issuedAt: Option<int>, cap: int)

  /** What the agent reports, apart from its jobs. */
  datatype Report = Report(
    tasks: int, syncing: bool, agentVersion: string, libVersion: int, binVersion: int, platform: string)

  /** Published versions; a Linux node compares against the Linux agent only. */
  datatype Manifest = Manifest(agent: string, linuxAgent: string, lib: int, bin: int)

  /** The clock, the configuration and the settings at the time of a heartbeat. */
  datatype Env = Env(
    now: int, grace: int, bootLimit: int, liveLimit: Option<int>, manifest: Manifest, hold: bool)
  {
    /** A saved positive limit wins over the boot-time one in the reboot test. */
    function RebootLimit(): int {
      if liveLimit.Some? && liveLimit.value > 0 then liveLimit.value else bootLimit
    }
  }

  datatype Verdict = Ack | Reboot | Update(manifest: Manifest) | Fill(slots: nat)

  function Scoped(m: Manifest, platform: string): Manifest {
    if platform == "linux" then Manifest(m.linuxAgent, "", 0, 0) else m
  }

  predicate Outdated(m: Manifest, row: Row) {
    || (m.agent != "" && m.agent != row.agentVersion)
    || (m.lib > 0 && m.lib != row.libVersion)
    || (m.bin > 0 && m.bin != row.binVersion)
  }

  function Slots(row: Row): int {
    if row.cap < 1 then 1 else row.cap
  }

  /** The row with the reported versions and task counter. */
  function Recorded(row: Row, rep: Report): Row {
    row.(tasks := rep.tasks, agentVersion := rep.agentVersion, libVersion := rep.libVersion,
         binVersion := rep.binVersion,
         platform := if rep.platform == "" then row.platform else Text.Lower(rep.platform))
  }

  /** A reboot attempt ends when an idle node's counter went down, or when it outlived the grace period. */
  predicate AttemptEnds(before: Row, rep: Report, busy: bool, env: Env) {
    && before.pending && !busy
    && (rep.tasks < before.tasks || before.issuedAt.None? || env.now - before.issuedAt.value > env.grace)
  }

  /** The row as the first write of the heartbeat leaves it. */
  function Settled(before: Row, rep: Report, busy: bool, active: nat, env: Env): Row {
    var row := Recorded(before, rep);
    var row := if AttemptEnds(before, rep, busy, env) then row.(pending := false, issuedAt := None) else row;
    row.(status := if rep.syncing || active >= Slots(row) then Busy
                   else if row.pending then RebootPending else Idle)
  }

  predicate AtLimit(row: Row, env: Env) {
    row.tasks >= env.RebootLimit()
  }

  /** The instruction for a settled row. */
  function Instruction(row: Row, rep: Report, busy: bool, active: nat, env: Env): Verdict {
    var m := Scoped(env.manifest, row.platform);
    if !row.enabled then Ack
    else if !busy && (AtLimit(row, env) || row.pending) then Reboot
    else if !busy && Outdated(m, row) then Update(m)
    else if rep.syncing || active >= Slots(row) || row.pending || row.tasks >= env.bootLimit || env.hold then Ack
    else Fill(Slots(row) - active)
  }

  /** A heartbeat flags a fresh attempt exactly when it answers "reboot" because of the limit. */
  function Flagged(row: Row, busy: bool, env: Env): Row {
    if row.enabled && !busy && AtLimit(row, env) && !row.pending
    then row.(pending := true, issuedAt := Some(env.now), status := RebootPending)
    else row
  }

  function Decide(before: Row, rep: Report, busy: bool, active: nat, env: Env): (Row, Verdict) {
    var row := Settled(before, rep, busy, active, env);
    (Flagged(row, busy, env), Instruction(row, rep, busy, active, env))
  }

  /** The row object a handler loads, updates field by field and writes back. */
  class Record {
    var enabled: bool
    var status: Status
    var tasks: int
    var agentVersion: string
    var libVersion: int
    var binVersion: int
    var platform: string
    var pending: bool
    var issuedAt: Option<int>
    var cap: int

    function View(): Row
      reads this
    {
      Row(enabled, status, tasks, agentVersion, libVersion, binVersion, platform, pending, issuedAt, cap)
    }

    constructor (row: Row)
      ensures View() == row
    {
      enabled, status, tasks := row.enabled, row.status, row.tasks;
      agentVersion, libVersion, binVersion := row.agentVersion, row.libVersion, row.binVersion;
      platform, pending, issuedAt, cap := row.platform, row.pending, row.issuedAt, row.cap;
    }

    /** The node part of a heartbeat: first the settled row, then reboot before update before assignment. */
    method Heartbeat(rep: Report, reportsJobs: bool, active: nat, env: Env) returns (v: Verdict)
      modifies this
      ensures (View(), v) == Decide(old(View()), rep, rep.syncing || reportsJobs, active, env)
    {
      Settle(rep, rep.syncing || reportsJobs, active, env);
      v := Instruct(rep, rep.syncing || reportsJobs, active, env);
    }

    /** Record the report, clear the flag after a reboot, expire an old attempt, set the status. */
    method Settle(rep: Report, busy: bool, active: nat, env: Env)
      modifies this
      ensures View() == Settled(old(View()), rep, busy, active, env)
    {
      var prevTasks := tasks;
      agentVersion, libVersion, binVersion, tasks := rep.agentVersion, rep.libVersion, rep.binVersion, rep.tasks;
      if rep.platform != "" {
        platform := Text.Lower(rep.platform);
      }
      if pending && !busy && tasks < prevTasks {
        pending, issuedAt := false, None;
      }
      if pending && !busy && (issuedAt.None? || env.now - issuedAt.value > env.grace) {
        pending, issuedAt := false, None;
      }
      if rep.syncing || active >= Slots(View()) {
        status := Busy;
      } else if pending {
        status := RebootPending;
      } else {
        status := Idle;
      }
    }

    /** Decide the instruction; the flag is written before a limit reboot is answered. */
    method Instruct(rep: Report, busy: bool, active: nat, env: Env) returns (v: Verdict)
      modifies this
      ensures View() == Flagged(old(View()), busy, env)
      ensures v == Instruction(old(View()), rep, busy, active, env)
    {
      if !enabled {
        return Ack;
      }
      if !busy && AtLimit(View(), env) {
        if !pending {
          pending, issuedAt, status := true, Some(env.now), RebootPending;
        }
        return Reboot;
      }
      if !busy && pending {
        return Reboot;
      }
      var m := Scoped(env.manifest, platform);
      if !busy && Outdated(m, View()) {
        return Update(m);
      }
      var free := Slots(View()) - active;
      if rep.syncing || free <= 0 || pending || tasks >= env.bootLimit || env.hold {
        return Ack;
      }
      return Fill(free);
    }

    /** An operator pauses or resumes the node; pausing cancels a pending reboot. */
    method SetEnabled(on: bool)
      modifies this
      ensures View() == Toggled(old(View()), on)
    {
      enabled := on;
      if !enabled {
        pending := false;
      }
    }

    /** An operator asks for a reboot. */
    method RequestReboot(now: int)
      modifies this
      ensures View() == Requested(old(View()), now)
    {
      pending, issuedAt, status := true, Some(now), RebootPending;
    }
  }

  function Toggled(row: Row, on: bool): Row {
    row.(enabled := on, pending := on && row.pending)
  }

  function Requested(row: Row, now: int): Row {
    row.(pending := true, issuedAt := Some(now), status := RebootPending)
  }
}
