/** When each step of a job started and how long it took. Instants are whole ticks of the agent's clock. */
module Timings {
  import opened Wrappers

  /** A line of output and the instant it arrived. */
  datatype Line = Line(text: string, at: int)

  datatype Timing = Timing(step: string, start: int, duration: int)

  /** The step that a marker line names. */
  type Namer = string -> Option<string>

  /** The step names in the order they were first seen. */
  function Order(seen: seq<Line>, step: Namer): (names: seq<string>)
    ensures forall i, k :: 0 <= i < k < |names| ==> names[i] != names[k]
  {
    if seen == [] then []
    else
      var before, name := Order(seen[..|seen| - 1], step), step(seen[|seen| - 1].text);
      if name.None? || name.value in before then before else before + [name.value]
  }

  /** The instant of the first line that names the step. */
  function StartOf(seen: seq<Line>, step: Namer, name: string): int
    requires name in Order(seen, step)
  {
    if name in Order(seen[..|seen| - 1], step) then StartOf(seen[..|seen| - 1], step, name) else seen[|seen| - 1].at
  }

  lemma {:induction false} OrderGrows(seen: seq<Line>, step: Namer, k: nat)
    requires k < |seen| && step(seen[k].text).Some?
    ensures step(seen[k].text).value in Order(seen, step)
  {
    if k < |seen| - 1 {
      OrderGrows(seen[..|seen| - 1], step, k);
    }
  }

  lemma {:induction false} NamedSomewhere(seen: seq<Line>, step: Namer, name: string) returns (k: nat)
    requires name in Order(seen, step)
    ensures k < |seen| && step(seen[k].text) == Some(name)
  {
    var before := seen[..|seen| - 1];
    if name in Order(before, step) {
      k := NamedSomewhere(before, step, name);
    } else {
      k := |seen| - 1;
    }
  }

  /** A step starts at its first marker, however often it is reported again. */
  lemma {:induction false} FirstMarkerCounts(seen: seq<Line>, step: Namer, k: nat)
    requires k < |seen| && step(seen[k].text).Some? && forall i :: 0 <= i < k ==>
      step(seen[i].text) != step(seen[k].text)
    ensures var name := step(seen[k].text).value; name in Order(seen, step) && StartOf(seen, step, name) == seen[k].at
  {
    OrderGrows(seen, step, k);
    var before, name := seen[..|seen| - 1], step(seen[k].text).value;
    if k < |seen| - 1 {
      FirstMarkerCounts(before, step, k);
    } else if name in Order(before, step) {
      var i := NamedSomewhere(before, step, name);
      assert false;
    }
  }

  /** Position `k` is the first that names its step. */
  predicate Introduces(seen: seq<Line>, step: Namer, k: nat)
    requires k < |seen|
  {
    step(seen[k].text).Some? && forall i :: 0 <= i < k ==> step(seen[i].text) != step(seen[k].text)
  }

  /** The steps in the order of the lines, at the positions `at`, that first name them. */
  ghost predicate FirstSeen(names: seq<string>, seen: seq<Line>, step: Namer, at: seq<nat>) {
    && |at| == |names|
    && (forall i, k :: 0 <= i < k < |at| ==> at[i] < at[k])
    && (forall i :: 0 <= i < |at| ==> at[i] < |seen| && step(seen[at[i]].text) == Some(names[i]))
    && forall k :: 0 <= k < |seen| ==> (k in at <==> Introduces(seen, step, k))
  }

  lemma FirstSeenNext(names: seq<string>, seen: seq<Line>, step: Namer, at: seq<nat>, l: Line)
    requires FirstSeen(names, seen, step, at)
    ensures var name := step(l.text);
            if name.Some? && name.value !in names
            then FirstSeen(names + [name.value], seen + [l], step, at + [|seen|])
            else FirstSeen(names, seen + [l], step, at)
  {
    var later := seen + [l];
    forall k | 0 <= k < |seen| ensures Introduces(later, step, k) <==> Introduces(seen, step, k) {
      assert later[k] == seen[k] && forall i :: 0 <= i < k ==> later[i] == seen[i];
    }
    assert forall x :: x in at ==> x < |seen|;
    assert forall k :: k in at + [|seen|] <==> k in at || k == |seen|;
    if step(l.text).Some? {
      LastIntroduces(names, seen, step, at, l);
    }
  }

  lemma LastIntroduces(names: seq<string>, seen: seq<Line>, step: Namer, at: seq<nat>, l: Line)
    requires FirstSeen(names, seen, step, at) && step(l.text).Some?
    ensures Introduces(seen + [l], step, |seen|) <==> step(l.text).value !in names
  {
    var later, name := seen + [l], step(l.text).value;
    assert forall i :: 0 <= i < |seen| ==> later[i] == seen[i];
    if name in names {
      var i :| 0 <= i < |names| && names[i] == name;
      assert step(later[at[i]].text) == Some(name);
    } else {
      forall k | 0 <= k < |seen| ensures step(seen[k].text) != Some(name) {
        if step(seen[k].text) == Some(name) {
          var first := FirstNaming(seen, step, k);
          assert false;
        }
      }
    }
  }

  lemma {:induction false} FirstNaming(seen: seq<Line>, step: Namer, k: nat) returns (first: nat)
    requires k < |seen| && step(seen[k].text).Some?
    ensures first <= k && step(seen[first].text) == step(seen[k].text) && Introduces(seen, step, first)
  {
    if i :| 0 <= i < k && step(seen[i].text) == step(seen[k].text) {
      first := FirstNaming(seen, step, i);
    } else {
      first := k;
    }
  }

  /** The order of steps is the order of the lines that first name them, and the starts are their instants. */
  lemma {:induction false} OrderIsFirstSeen(seen: seq<Line>, step: Namer) returns (at: seq<nat>)
    ensures FirstSeen(Order(seen, step), seen, step, at)
    ensures forall i :: 0 <= i < |at| ==> at[i] < |seen| && StartOf(seen, step, Order(seen, step)[i]) == seen[at[i]].at
  {
    if seen == [] {
      at := [];
    } else {
      var before, last := seen[..|seen| - 1], seen[|seen| - 1];
      assert seen == before + [last];
      at := OrderIsFirstSeen(before, step);
      NextOrder(before, step, last);
      FirstSeenNext(Order(before, step), before, step, at, last);
      hide FirstSeen, Order, StartOf;
      var name := step(last.text);
      assert |at| == |Order(before, step)| by { SameLength(Order(before, step), before, step, at); }
      if name.Some? && name.value !in Order(before, step) {
        at := at + [|before|];
      }
    }
  }

  lemma SameLength(names: seq<string>, seen: seq<Line>, step: Namer, at: seq<nat>)
    requires FirstSeen(names, seen, step, at)
    ensures |at| == |names|
  {
  }

  /** Each step lasts until the next one starts, the last one until the end of the job when that is known. */
  function Lasting(out: seq<Timing>, finish: Option<int>, i: nat): int
    requires i < |out|
  {
    if i + 1 < |out| then out[i + 1].start - out[i].start else if finish.Some? then finish.value - out[i].start else 0
  }

  ghost predicate Lasts(out: seq<Timing>, finish: Option<int>) {
    forall i :: 0 <= i < |out| ==> out[i].duration == Lasting(out, finish, i)
  }

  /** Each step ends where the next one starts; the last one with the job, or where it starts if that is not known. */
  lemma StepsMeet(out: seq<Timing>, finish: Option<int>)
    requires Lasts(out, finish)
    ensures forall i :: 0 <= i < |out| - 1 ==> out[i].start + out[i].duration == out[i + 1].start
    ensures out != [] ==> var last := out[|out| - 1];
            last.start + last.duration == if finish == None then last.start else finish.value
  {
    forall i | 0 <= i < |out| ensures out[i].duration == Lasting(out, finish, i) {
    }
  }

  function Total(out: seq<Timing>): int {
    if out == [] then 0 else out[0].duration + Total(out[1..])
  }

  /** No time is lost or counted twice: the durations add up to the time from the first start to the end. */
  lemma {:induction false} DurationsAddUp(out: seq<Timing>, finish: Option<int>)
    requires out != [] && Lasts(out, finish)
    ensures Total(out) == (if finish.Some? then finish.value else out[|out| - 1].start) - out[0].start
  {
    if |out| == 1 {
      assert out[1..] == [] && out[0].duration == Lasting(out, finish, 0);
    } else {
      forall i | 0 <= i < |out[1..]| ensures out[1..][i].duration == Lasting(out[1..], finish, i) {
        assert out[1..][i] == out[i + 1] && out[i + 1].duration == Lasting(out, finish, i + 1);
      }
      assert out[0].duration == Lasting(out, finish, 0);
      DurationsAddUp(out[1..], finish);
    }
  }

  lemma NextOrder(seen: seq<Line>, step: Namer, l: Line)
    ensures var name := step(l.text); var before := Order(seen, step);
            Order(seen + [l], step) == if name.None? || name.value in before then before else before + [name.value]
    ensures forall n :: n in Order(seen, step) ==> StartOf(seen + [l], step, n) == StartOf(seen, step, n)
    ensures step(l.text).Some? && step(l.text).value !in Order(seen, step) ==>
      StartOf(seen + [l], step, step(l.text).value) == l.at
  {
    assert (seen + [l])[..|seen|] == seen;
  }

  class StepTimings {
    const step: Namer
    var order: seq<string>
    var known: set<string>
    var starts: map<string, int>
    /** The lines observed. */
    ghost var seen: seq<Line>

    ghost predicate Valid()
      reads this
    {
      && order == Order(seen, step)
      && (forall name :: name in known <==> name in order)
      && (forall name :: name in order ==> name in starts && starts[name] == StartOf(seen, step, name))
    }

    constructor (step: Namer)
      ensures Valid() && seen == [] && this.step == step
    {
      this.step := step;
      order, known, starts, seen := [], {}, map[], [];
    }

    method Observe(line: string, at: int)
      requires Valid()
      modifies this
      ensures Valid() && seen == old(seen) + [Line(line, at)]
    {
      NextOrder(seen, step, Line(line, at));
      hide Order, StartOf;
      seen := seen + [Line(line, at)];
      var name := step(line);
      if name.None? {
        return;
      }
      if name.value in known {
        return;
      }
      known := known + {name.value};
      starts := starts[name.value := at];
      order := order + [name.value];
    }

    method Finish(finish: Option<int>) returns (out: seq<Timing>)
      requires Valid()
      ensures |out| == |Order(seen, step)| && Lasts(out, finish)
      ensures forall i :: 0 <= i < |out| ==>
                out[i].step == Order(seen, step)[i] && out[i].start == StartOf(seen, step, Order(seen, step)[i])
    {
      out := [];
      for i := 0 to |order|
        invariant |out| == i
        invariant forall k :: 0 <= k < i ==> out[k].step == order[k] && out[k].start == starts[order[k]]
        invariant forall k :: 0 <= k < i ==>
          out[k].duration == if k + 1 < |order| then starts[order[k + 1]] - out[k].start else if finish.Some?
              then finish.value - out[k].start else 0
      {
        var start := starts[order[i]];
        var duration := 0;
        if i + 1 < |order| {
          duration := starts[order[i + 1]] - start;
        } else if finish.Some? {
          duration := finish.value - start;
        }
        out := out + [Timing(order[i], start, duration)];
      }
    }
  }
}
