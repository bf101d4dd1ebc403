/** The measurements a job reports: at most 64 keys, the last value of each. */
module Metrics {
  import opened Wrappers
  import opened Lines

  const MAX_METRICS := 64

  /** One key and value as matched in a line; the value is absent when its digits do not parse. */
  datatype Pair = Pair(key: string, value: Option<real>)

  /** The pairs that all lines carry, in order. */
  function PairsOf(lines: seq<string>, pairs: string -> seq<Pair>): seq<Pair> {
    if lines == [] then [] else PairsOf(lines[..|lines| - 1], pairs) + pairs(lines[|lines| - 1])
  }

  /** The distinct keys with a value, in the order they first appear. */
  function Keys(ps: seq<Pair>): (keys: seq<string>)
    ensures forall i, k :: 0 <= i < k < |keys| ==> keys[i] != keys[k]
  {
    if ps == [] then []
    else
      var keys, last := Keys(ps[..|ps| - 1]), ps[|ps| - 1];
      if last.value.None? || last.key in keys then keys else keys + [last.key]
  }

  /** The last value given for a key. */
  function LastValue(ps: seq<Pair>, key: string): Option<real> {
    if ps == [] then None
    else if ps[|ps| - 1].key == key && ps[|ps| - 1].value.Some? then ps[|ps| - 1].value
    else LastValue(ps[..|ps| - 1], key)
  }

  /** The last value, exactly: the value of the last pair of the key that has one. */
  lemma {:induction false} LastValueIs(ps: seq<Pair>, key: string, k: nat)
    requires k < |ps| && ps[k].key == key && ps[k].value.Some?
    requires forall i :: k < i < |ps| && ps[i].key == key ==> ps[i].value.None?
    ensures LastValue(ps, key) == ps[k].value
  {
    if k < |ps| - 1 {
      LastValueIs(ps[..|ps| - 1], key, k);
    }
  }

  /** Position `k` is the first that gives its key a value. */
  predicate Introduces(ps: seq<Pair>, k: nat)
    requires k < |ps|
  {
    ps[k].value.Some? && forall i :: 0 <= i < k ==> ps[i].key != ps[k].key || ps[i].value.None?
  }

  /** The keys in the order of the pairs, at the positions `at`, that first give them a value. */
  ghost predicate FirstGiven(keys: seq<string>, ps: seq<Pair>, at: seq<nat>) {
    && |at| == |keys|
    && (forall i, k :: 0 <= i < k < |at| ==> at[i] < at[k])
    && (forall i :: 0 <= i < |at| ==> at[i] < |ps| && ps[at[i]].key == keys[i] && ps[at[i]].value.Some?)
    && forall k :: 0 <= k < |ps| ==> (k in at <==> Introduces(ps, k))
  }

  lemma {:induction false} FirstGiving(ps: seq<Pair>, k: nat) returns (first: nat)
    requires k < |ps| && ps[k].value.Some?
    ensures first <= k && ps[first].key == ps[k].key && Introduces(ps, first)
  {
    if i :| 0 <= i < k && ps[i].key == ps[k].key && ps[i].value.Some? {
      first := FirstGiving(ps, i);
    } else {
      first := k;
    }
  }

  lemma LastIntroduces(keys: seq<string>, ps: seq<Pair>, at: seq<nat>, p: Pair)
    requires FirstGiven(keys, ps, at)
    ensures Introduces(ps + [p], |ps|) <==> p.value.Some? && p.key !in keys
  {
    var later := ps + [p];
    assert forall i :: 0 <= i < |ps| ==> later[i] == ps[i];
    if p.key in keys {
      var i :| 0 <= i < |keys| && keys[i] == p.key;
      assert later[at[i]].key == p.key;
    } else {
      forall k | 0 <= k < |ps| && ps[k].value.Some? ensures ps[k].key != p.key {
        if ps[k].key == p.key {
          var first := FirstGiving(ps, k);
          assert false;
        }
      }
    }
  }

  lemma FirstGivenNext(keys: seq<string>, ps: seq<Pair>, at: seq<nat>, p: Pair)
    requires FirstGiven(keys, ps, at)
    ensures if p.value.Some? && p.key !in keys then FirstGiven(keys + [p.key], ps + [p], at + [|ps|])
            else FirstGiven(keys, ps + [p], at)
  {
    var later := ps + [p];
    LastIntroduces(keys, ps, at, p);
    forall k | 0 <= k < |ps| ensures Introduces(later, k) <==> Introduces(ps, k) {
      assert later[k] == ps[k] && forall i :: 0 <= i < k ==> later[i] == ps[i];
    }
    assert forall x :: x in at ==> x < |ps|;
    assert forall k :: k in at + [|ps|] <==> k in at || k == |ps|;
  }

  /** The keys that count are those first given a value, in that order: the cap keeps the earliest. */
  lemma {:induction false} KeysAreFirstGiven(ps: seq<Pair>) returns (at: seq<nat>)
    ensures FirstGiven(Keys(ps), ps, at)
  {
    if ps == [] {
      at := [];
    } else {
      var before, last := ps[..|ps| - 1], ps[|ps| - 1];
      assert ps == before + [last];
      at := KeysAreFirstGiven(before);
      FirstGivenNext(Keys(before), before, at, last);
      hide FirstGiven;
      if last.value.Some? && last.key !in Keys(before) {
        at := at + [|before|];
      }
    }
  }

  function Capped(keys: seq<string>): seq<string> {
    if |keys| < MAX_METRICS then keys else keys[..MAX_METRICS]
  }

  /** The map holds the last value of exactly the first 64 distinct keys. */
  ghost predicate Holds(m: map<string, real>, ps: seq<Pair>) {
    && (forall key :: key in m <==> key in Capped(Keys(ps)))
    && (forall key :: key in m ==> LastValue(ps, key) == Some(m[key]))
  }

  lemma {:induction false} KeysHaveValues(ps: seq<Pair>, key: string)
    ensures key in Keys(ps) <==> LastValue(ps, key).Some?
  {
    if ps != [] {
      KeysHaveValues(ps[..|ps| - 1], key);
    }
  }

  lemma {:induction false} Size(m: map<string, real>, keys: seq<string>)
    requires forall i, k :: 0 <= i < k < |keys| ==> keys[i] != keys[k]
    requires forall key :: key in m <==> key in keys
    ensures |m| == |keys|
  {
    if keys == [] {
      assert m.Keys == {};
    } else {
      var last, rest := keys[|keys| - 1], keys[..|keys| - 1];
      assert keys == rest + [last];
      Size(m - {last}, rest);
      assert m.Keys == (m - {last}).Keys + {last};
    }
  }

  lemma HoldsSize(m: map<string, real>, ps: seq<Pair>)
    requires Holds(m, ps)
    ensures |m| == if |Keys(ps)| < MAX_METRICS then |Keys(ps)| else MAX_METRICS
  {
    Size(m, Capped(Keys(ps)));
  }

  class MetricTracker {
    const pairs: string -> seq<Pair>
    var m: map<string, real>
    /** The lines observed since the last reset. */
    ghost var seen: seq<string>

    ghost predicate Valid()
      reads this
    {
      Holds(m, PairsOf(seen, pairs))
    }

    constructor (pairs: string -> seq<Pair>)
      ensures Valid() && seen == [] && this.pairs == pairs
    {
      this.pairs := pairs;
      m, seen := map[], [];
    }

    method Observe(line: string)
      requires Valid()
      modifies this
      ensures Valid() && seen == old(seen) + [line]
    {
      var found := pairs(line);
      ghost var before := PairsOf(seen, pairs);
      assert before + found[..0] == before;
      for i := 0 to |found|
        invariant Holds(m, before + found[..i]) && seen == old(seen)
      {
        var key, value := found[i].key, found[i].value;
        Next(m, before + found[..i], found[i]);
        assert before + found[..i + 1] == before + found[..i] + [found[i]];
        if |m| >= MAX_METRICS {
          if key !in m {
            continue;
          }
        }
        if value.None? {
          continue;
        }
        m := m[key := value.value];
      }
      assert found[..|found|] == found;
      seen := seen + [line];
      assert seen[..|seen| - 1] == old(seen);
    }

    method Snapshot() returns (out: map<string, real>)
      requires Valid()
      ensures Holds(out, PairsOf(seen, pairs))
    {
      return m;
    }

    method Reset()
      modifies this
      ensures Valid() && seen == []
    {
      m, seen := map[], [];
    }
  }

  lemma NextKeys(ps: seq<Pair>, p: Pair)
    ensures Capped(Keys(ps + [p])) == if p.value.Some? && p.key !in Keys(ps) && |Keys(ps)| < MAX_METRICS
      then Capped(Keys(ps)) + [p.key] else Capped(Keys(ps))
    ensures forall key :: LastValue(ps + [p], key) == if p.key == key && p.value.Some? then p.value
      else LastValue(ps, key)
  {
    assert (ps + [p])[..|ps|] == ps;
    var keys := Keys(ps);
    if |keys| >= MAX_METRICS {
      assert (keys + [p.key])[..MAX_METRICS] == keys[..MAX_METRICS];
    }
    hide MAX_METRICS;
  }

  lemma NextUnstored(m: map<string, real>, ps: seq<Pair>, p: Pair)
    requires Holds(m, ps) && (p.value.None? || (|m| >= MAX_METRICS && p.key !in m))
    ensures Holds(m, ps + [p])
  {
    NextKeys(ps, p);
    HoldsSize(m, ps);
    hide Keys, LastValue;
  }

  lemma NextStored(m: map<string, real>, ps: seq<Pair>, p: Pair)
    requires Holds(m, ps) && p.value.Some? && (|m| < MAX_METRICS || p.key in m)
    ensures Holds(m[p.key := p.value.value], ps + [p])
  {
    NextKeys(ps, p);
    HoldsSize(m, ps);
    hide Keys, LastValue;
  }

  /** One more pair: at the cap only updates of known keys get through. */
  lemma Next(m: map<string, real>, ps: seq<Pair>, p: Pair)
    requires Holds(m, ps)
    ensures Holds(if p.value.None? || (|m| >= MAX_METRICS && p.key !in m) then m
      else m[p.key := p.value.value], ps + [p])
  {
    hide Holds;
    if p.value.None? || (|m| >= MAX_METRICS && p.key !in m) {
      NextUnstored(m, ps, p);
    } else {
      NextStored(m, ps, p);
    }
  }
}
