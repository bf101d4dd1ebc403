/** The writer that tees a job's output: it keeps all bytes and processes each line as it is completed. */
module Observer {
  import opened Wrappers
  import opened Lines
  import opened Progress
  import opened Metrics
  import Timings

  /** The lines with the instants at which they are processed: `clock` tells the instant of each line. */
  function Stamped(lines: seq<string>, clock: nat -> int): (stamped: seq<Timings.Line>)
    ensures |stamped| == |lines|
    ensures forall i :: 0 <= i < |lines| ==> stamped[i] == Timings.Line(lines[i], clock(i))
  {
    seq(|lines|, i requires 0 <= i < |lines| => Timings.Line(lines[i], clock(i)))
  }

  lemma StampedNext(lines: seq<string>, line: string, clock: nat -> int)
    ensures Stamped(lines + [line], clock) == Stamped(lines, clock) + [Timings.Line(line, clock(|lines|))]
  {
  }

  lemma AllIs(s: string)
    ensures All(s) == if Rest(s) == "" then Complete(s) else Complete(s) + [Rest(s)]
  {
    hide Complete, Rest;
  }

  class LineObserver {
    const prog: ProgressTracker
    const metrics: MetricTracker
    const timings: Timings.StepTimings
    const clock: nat -> int
    var buf: string
    var remainder: string
    /** How often the clock was read: once per line. */
    var ticks: nat
    ghost var flushed: bool

    /** The trackers have seen the same lines, each at its instant. */
    ghost predicate Tracks(lines: seq<string>)
      reads this, prog, prog.ring, metrics, timings
    {
      && prog.Valid() && metrics.Valid() && timings.Valid()
      && prog.seen == lines && metrics.seen == lines && timings.seen == Stamped(lines, clock) && ticks == |lines|
    }

    /** Everything kept is a function of the bytes written so far, however they were split. */
    ghost predicate Valid()
      reads this, prog, prog.ring, metrics, timings
    {
      && Tracks(if flushed then All(buf) else Complete(buf))
      && remainder == (if flushed then "" else Rest(buf))
    }

    constructor (prog: ProgressTracker, metrics: MetricTracker, timings: Timings.StepTimings, clock: nat -> int)
      requires prog.Valid() && metrics.Valid() && timings.Valid()
      requires prog.seen == [] && metrics.seen == [] && timings.seen == []
      ensures Valid() && !flushed && buf == ""
      ensures this.prog == prog && this.metrics == metrics && this.timings == timings && this.clock == clock
    {
      this.prog, this.metrics, this.timings, this.clock := prog, metrics, timings, clock;
      buf, remainder, ticks, flushed := "", "", 0, false;
    }

    /** The step timings test for the marker themselves, so they are fed every line. */
    method ProcessLine(line: string, ghost lines: seq<string>)
      requires Tracks(lines)
      modifies `ticks, prog, prog.ring, metrics, timings
      ensures Tracks(lines + [line]) && prog.ring == old(prog.ring)
    {
      StampedNext(lines, line, clock);
      hide LastN, Marked, Holds, PairsOf, Timings.Order, Timings.StartOf, Stamped;
      prog.Observe(line);
      metrics.Observe(line);
      timings.Observe(line, clock(ticks));
      ticks := ticks + 1;
    }

    /** Processes the complete lines of `s` and returns what follows them. */
    method Feed(s: string, ghost before: seq<string>) returns (data: string)
      requires Tracks(before)
      modifies `ticks, prog, prog.ring, metrics, timings
      ensures Tracks(before + Complete(s)) && prog.ring == old(prog.ring)
      ensures data == Rest(s)
    {
      hide Tracks;
      data := s;
      ghost var lines: seq<string> := [];
      assert before + lines == before;
      while true
        invariant Tracks(before + lines) && prog.ring == old(prog.ring)
        invariant lines + Complete(data) == Complete(s) && Rest(data) == Rest(s)
        decreases |data|
      {
        var nl := NewlineAt(data);
        if nl == |data| {
          NoLine(data);
          assert lines + [] == lines;
          break;
        }
        Unfold(lines, data);
        hide Complete, Rest;
        assert before + (lines + [data[..nl]]) == before + lines + [data[..nl]];
        ProcessLine(data[..nl], before + lines);
        lines := lines + [data[..nl]];
        data := data[nl + 1..];
      }
    }

    method Write(p: string)
      requires Valid() && !flushed
      modifies this, prog, prog.ring, metrics, timings
      ensures Valid() && !flushed && prog.ring == old(prog.ring)
      ensures buf == old(buf) + p
    {
      hide Complete, Rest, NewlineAt;
      hide LastN, Marked, Holds, PairsOf, Timings.Order, Timings.StartOf, Stamped;
      Appended(buf, p);
      ghost var before := Complete(buf);
      var data := Feed(remainder + p, before);
      buf := buf + p;
      remainder := data;
    }

    /** After the last write: the held rest is a line too, and the trackers hold what the whole output says. */
    method Flush()
      requires Valid() && !flushed
      modifies this, prog, prog.ring, metrics, timings
      ensures Valid() && flushed && prog.ring == old(prog.ring) && buf == old(buf)
      ensures prog.ring[..prog.len] == LastN(All(buf), prog.ring.Length)
      ensures Latest(prog.step, prog.pct) == Marked(All(buf), prog.marker)
      ensures Holds(metrics.m, PairsOf(All(buf), metrics.pairs))
      ensures timings.order == Timings.Order(Stamped(All(buf), clock), timings.step)
    {
      hide Complete, Rest, LastN, Marked, Holds, PairsOf, Timings.Order, Timings.StartOf, Stamped;
      AllIs(buf);
      if remainder != "" {
        ProcessLine(remainder, Complete(buf));
        remainder := "";
      }
      flushed := true;
    }
  }
}
