/** The agent's bounded set of in-flight jobs. */
module Registry {
  import opened Jobs

  /** The agent's hard cap, whatever a controller assigns. */
  const MAX_LOCAL_JOBS := 8

  function JobsOf(ps: seq<Assignment>): set<JobId> {
    if ps == [] then {} else {ps[0].job} + JobsOf(ps[1..])
  }

  lemma {:induction false} JobsOfMember(ps: seq<Assignment>, j: JobId)
    ensures j in JobsOf(ps) <==> exists i :: 0 <= i < |ps| && ps[i].job == j
  {
    if ps != [] {
      JobsOfMember(ps[1..], j);
      if j in JobsOf(ps[1..]) {
        var i :| 0 <= i < |ps[1..]| && ps[1..][i].job == j;
        assert ps[i + 1].job == j;
      }
      if exists i :: 0 <= i < |ps| && ps[i].job == j {
        var i :| 0 <= i < |ps| && ps[i].job == j;
        assert i > 0 ==> ps[1..][i - 1].job == j;
      }
    }
  }

  ghost predicate DistinctJobs(ps: seq<Assignment>) {
    forall i, k :: 0 <= i < k < |ps| ==> ps[i].job != ps[k].job
  }

  /** The payloads that are registered, in order: no duplicate identifier, never beyond the cap. */
  function Accepted(keys: set<JobId>, ps: seq<Assignment>): seq<Assignment>
    decreases |ps|
  {
    if ps == [] then []
    else if |keys| >= MAX_LOCAL_JOBS || ps[0].job in keys then Accepted(keys, ps[1..])
    else [ps[0]] + Accepted(keys + {ps[0].job}, ps[1..])
  }

  /**
   What acceptance promises: only offered payloads, each job once and none already registered,
   the cap kept; and a refusal means a duplicate or a full registry.
   */
  lemma {:induction false} AcceptedIsSafe(keys: set<JobId>, ps: seq<Assignment>)
    requires |keys| <= MAX_LOCAL_JOBS
    ensures var ok := Accepted(keys, ps);
            && (forall p :: p in ok ==> p in ps && p.job !in keys)
            && DistinctJobs(ok)
            && |keys + JobsOf(ok)| <= MAX_LOCAL_JOBS
            && (forall p :: p in ps && p !in ok ==>
                  p.job in keys + JobsOf(ok) || |keys + JobsOf(ok)| == MAX_LOCAL_JOBS)
    decreases |ps|
  {
    if ps == [] {
      assert keys + JobsOf([]) == keys;
    } else if |keys| >= MAX_LOCAL_JOBS || ps[0].job in keys {
      AcceptedIsSafe(keys, ps[1..]);
      if |keys| >= MAX_LOCAL_JOBS {
        AddsNothing(keys, JobsOf(Accepted(keys, ps)));
      }
    } else {
      var wider := keys + {ps[0].job};
      AcceptedIsSafe(wider, ps[1..]);
      assert keys + JobsOf(Accepted(keys, ps)) == wider + JobsOf(Accepted(wider, ps[1..]));
    }
  }

  lemma {:induction false} AcceptedOffered(keys: set<JobId>, ps: seq<Assignment>)
    ensures forall p :: p in Accepted(keys, ps) ==> p in ps
    decreases |ps|
  {
    if ps != [] {
      AcceptedOffered(keys, ps[1..]);
      AcceptedOffered(keys + {ps[0].job}, ps[1..]);
    }
  }

  lemma AddsNothing(keys: set<JobId>, more: set<JobId>)
    requires |keys + more| <= |keys|
    ensures keys + more == keys
  {
    assert keys + more == keys + (more - keys);
    assert |keys + more| == |keys| + |more - keys|;
  }

  /** The registry after acceptance. */
  function Registered(jobs: map<JobId, Assignment>, ps: seq<Assignment>): map<JobId, Assignment>
    decreases |ps|
  {
    if ps == [] then jobs
    else if |jobs.Keys| >= MAX_LOCAL_JOBS || ps[0].job in jobs then Registered(jobs, ps[1..])
    else Registered(jobs[ps[0].job := ps[0]], ps[1..])
  }

  lemma OneMore(jobs: map<JobId, Assignment>, ps: seq<Assignment>)
    requires ps != [] && |jobs.Keys| < MAX_LOCAL_JOBS && ps[0].job !in jobs
    ensures var wider := jobs[ps[0].job := ps[0]];
            && Registered(jobs, ps) == Registered(wider, ps[1..])
            && JobsOf(Accepted(jobs.Keys, ps)) == {ps[0].job} + JobsOf(Accepted(wider.Keys, ps[1..]))
            && wider.Keys == jobs.Keys + {ps[0].job}
  {
    var wider := jobs[ps[0].job := ps[0]];
    assert wider.Keys == jobs.Keys + {ps[0].job};
    var more := Accepted(wider.Keys, ps[1..]);
    assert Accepted(jobs.Keys, ps) == [ps[0]] + more;
    assert ([ps[0]] + more)[1..] == more;
    hide Accepted;
  }

  lemma NoneMore(jobs: map<JobId, Assignment>, ps: seq<Assignment>)
    ensures ps == [] ==> Registered(jobs, ps) == jobs && Accepted(jobs.Keys, ps) == []
    ensures ps != [] && (|jobs.Keys| >= MAX_LOCAL_JOBS || ps[0].job in jobs) ==>
              Registered(jobs, ps) == Registered(jobs, ps[1..])
                  && Accepted(jobs.Keys, ps) == Accepted(jobs.Keys, ps[1..])
  {
  }

  lemma {:induction false} RegisteredMember(jobs: map<JobId, Assignment>, ps: seq<Assignment>, j: JobId)
    ensures j in Registered(jobs, ps) <==> j in jobs || j in JobsOf(Accepted(jobs.Keys, ps))
    decreases |ps|
  {
    NoneMore(jobs, ps);
    if ps == [] {
      hide Registered, Accepted;
    } else if |jobs.Keys| >= MAX_LOCAL_JOBS || ps[0].job in jobs {
      hide Registered, Accepted, JobsOf;
      RegisteredMember(jobs, ps[1..], j);
    } else {
      hide Registered, Accepted, JobsOf;
      OneMore(jobs, ps);
      RegisteredMember(jobs[ps[0].job := ps[0]], ps[1..], j);
    }
  }

  /** Acceptance adds exactly the accepted payloads. */
  lemma RegisteredKeys(jobs: map<JobId, Assignment>, ps: seq<Assignment>)
    ensures Registered(jobs, ps).Keys == jobs.Keys + JobsOf(Accepted(jobs.Keys, ps))
  {
    hide Registered, Accepted, JobsOf;
    forall j {
      RegisteredMember(jobs, ps, j);
    }
  }

  /** Acceptance never replaces an entry, so a second dispatch cannot reach a running job. */
  lemma {:induction false} RegisteredKeeps(jobs: map<JobId, Assignment>, ps: seq<Assignment>, j: JobId)
    requires j in jobs
    ensures j in Registered(jobs, ps) && Registered(jobs, ps)[j] == jobs[j]
    decreases |ps|
  {
    if ps == [] {
    } else if |jobs.Keys| >= MAX_LOCAL_JOBS || ps[0].job in jobs {
      RegisteredKeeps(jobs, ps[1..], j);
    } else {
      RegisteredKeeps(jobs[ps[0].job := ps[0]], ps[1..], j);
    }
  }

  /** Every accepted payload is the entry of its job. */
  lemma {:induction false} RegisteredHolds(jobs: map<JobId, Assignment>, ps: seq<Assignment>, p: Assignment)
    requires p in Accepted(jobs.Keys, ps)
    ensures p.job in Registered(jobs, ps) && Registered(jobs, ps)[p.job] == p
    decreases |ps|
  {
    if |jobs.Keys| >= MAX_LOCAL_JOBS || ps[0].job in jobs {
      RegisteredHolds(jobs, ps[1..], p);
    } else {
      var wider := jobs[ps[0].job := ps[0]];
      assert wider.Keys == jobs.Keys + {ps[0].job};
      if p == ps[0] {
        RegisteredKeeps(wider, ps[1..], p.job);
      } else {
        RegisteredHolds(wider, ps[1..], p);
      }
    }
  }

  /** The registry object: every access goes through its lock, so each method is one step. */
  class JobRegistry {
    var jobs: map<JobId, Assignment>

    ghost predicate Valid()
      reads this
    {
      |jobs.Keys| <= MAX_LOCAL_JOBS && forall j :: j in jobs ==> jobs[j].job == j
    }

    constructor ()
      ensures Valid() && jobs == map[]
    {
      jobs := map[];
    }

    method Accept(payloads: seq<Assignment>) returns (ok: seq<Assignment>)
      requires Valid()
      modifies this
      ensures Valid()
      ensures ok == Accepted(old(jobs).Keys, payloads)
      ensures jobs == Registered(old(jobs), payloads)
    {
      ok := [];
      for i := 0 to |payloads|
        invariant Valid()
        invariant Accepted(old(jobs).Keys, payloads) == ok + Accepted(jobs.Keys, payloads[i..])
        invariant Registered(old(jobs), payloads) == Registered(jobs, payloads[i..])
      {
        var p := payloads[i];
        assert payloads[i..][1..] == payloads[i + 1..];
        if |jobs.Keys| >= MAX_LOCAL_JOBS || p.job in jobs {
          continue;
        }
        assert jobs[p.job := p].Keys == jobs.Keys + {p.job};
        jobs := jobs[p.job := p];
        ok := ok + [p];
      }
    }

    method Remove(id: JobId)
      requires Valid()
      modifies this
      ensures Valid() && jobs == old(jobs) - {id}
    {
      ghost var before := jobs.Keys;
      jobs := jobs - {id};
      assert jobs.Keys == before - {id};
    }

    /** The identifiers of a heartbeat report: every registered job once, in ascending order. */
    method Reports() returns (ids: seq<JobId>)
      requires Valid()
      ensures forall j :: j in ids <==> j in jobs
      ensures forall i, k :: 0 <= i < k < |ids| ==> ids[i] < ids[k]
    {
      ids := [];
      var left := jobs.Keys;
      while left != {}
        invariant left <= jobs.Keys
        invariant forall j :: j in ids <==> j in jobs && j !in left
        invariant forall i, k :: 0 <= i < k < |ids| ==> ids[i] < ids[k]
        invariant forall i, j :: 0 <= i < |ids| && j in left ==> ids[i] < j
        decreases left
      {
        var least := Least(left);
        ids, left := ids + [least], left - {least};
      }
    }

    /** The highest-numbered registered job, whose log the metrics read; none when idle. */
    method Newest() returns (best: int)
      requires Valid()
      ensures jobs == map[] ==> best == -1
      ensures jobs != map[] ==> best in jobs.Keys && forall j :: j in jobs ==> j <= best
    {
      best := -1;
      var left := jobs.Keys;
      while left != {}
        invariant left <= jobs.Keys
        invariant if left == jobs.Keys then best == -1 else best in jobs.Keys
        invariant forall j :: j in jobs && j !in left ==> j <= best
        decreases left
      {
        var j :| j in left;
        if j > best {
          best := j;
        }
        left := left - {j};
      }
    }
  }

  method Least(s: set<JobId>) returns (least: JobId)
    requires s != {}
    ensures least in s && forall j :: j in s ==> least <= j
  {
    var left := s;
    least :| least in left;
    left := left - {least};
    while left != {}
      invariant left <= s && least in s
      invariant forall j :: j in s && j !in left ==> least <= j
      decreases left
    {
      var j :| j in left;
      if j < least {
        least := j;
      }
      left := left - {j};
    }
  }
}
