/** Live progress of a job: the latest step marker and a ring of recent lines, shifted in place. */
module Progress {
  import opened Wrappers
  import opened Lines

  /** A step marker; the percentage is absent when its digits do not parse. */
  datatype Marker = Marker(step: string, pct: Option<real>)

  datatype Latest = Latest(step: string, pct: real)

  const RING_LINES := 40

  function Marked(lines: seq<string>, marker: string -> Option<Marker>): Latest {
    if lines == [] then Latest("", 0.0)
    else
      var before := Marked(lines[..|lines| - 1], marker);
      match marker(lines[|lines| - 1])
      case None => before
      case Some(m) => Latest(m.step, if m.pct.Some? then m.pct.value else before.pct)
  }

  /** The step is that of the last marker line, and the percentage that of the last one that parses. */
  lemma {:induction false} LastMarkerCounts(lines: seq<string>, marker: string -> Option<Marker>, k: nat)
    requires k < |lines| && marker(lines[k]).Some?
    ensures (forall i :: k < i < |lines| ==> marker(lines[i]).None?) ==>
      Marked(lines, marker).step == marker(lines[k]).value.step
    ensures (&& marker(lines[k]).value.pct.Some?
             && forall i :: k < i < |lines| && marker(lines[i]).Some? ==> marker(lines[i]).value.pct.None?) ==>
              Marked(lines, marker).pct == marker(lines[k]).value.pct.value
  {
    if k < |lines| - 1 {
      LastMarkerCounts(lines[..|lines| - 1], marker, k);
    }
  }

  lemma MarkedNext(lines: seq<string>, line: string, marker: string -> Option<Marker>)
    ensures var before := Marked(lines, marker);
            Marked(lines + [line], marker) == match marker(line)
              case None => before
              case Some(m) => Latest(m.step, if m.pct.Some? then m.pct.value else before.pct)
  {
    assert (lines + [line])[..|lines|] == lines;
  }

  /** Before the first marker there is no step, and no progress. */
  lemma {:induction false} NoMarkerYet(lines: seq<string>, marker: string -> Option<Marker>)
    requires forall l :: l in lines ==> marker(l).None?
    ensures Marked(lines, marker) == Latest("", 0.0)
  {
    if lines != [] {
      assert lines[|lines| - 1] in lines && forall l :: l in lines[..|lines| - 1] ==> l in lines;
      NoMarkerYet(lines[..|lines| - 1], marker);
    }
  }

  function Join(lines: seq<string>): string {
    if lines == [] then "" else if |lines| == 1 then lines[0] else lines[0] + "\n" + Join(lines[1..])
  }

  lemma JoinNext(line: string, lines: seq<string>)
    requires lines != []
    ensures Join([line] + lines) == line + "\n" + Join(lines)
  {
    assert ([line] + lines)[1..] == lines;
  }

  /** The tail reads back as its lines. */
  lemma {:induction false} JoinReads(lines: seq<string>)
    requires lines != [] && forall l :: l in lines ==> '\n' !in l
    ensures Complete(Join(lines) + "\n") == lines && Rest(Join(lines) + "\n") == ""
  {
    var line, more := lines[0], lines[1..];
    assert lines == [line] + more && line in lines;
    if more == [] {
      assert Join(lines) + "\n" == line + "\n" + "";
      FirstLine(line, "");
    } else {
      assert forall l :: l in more ==> l in lines;
      JoinReads(more);
      JoinNext(line, more);
      assert Join(lines) + "\n" == line + "\n" + (Join(more) + "\n");
      hide Complete, Rest, Join;
      FirstLine(line, Join(more) + "\n");
    }
  }

  /** Drops the oldest line in place and puts the new one last. */
  method Shift(ring: array<string>, line: string)
    requires 0 < ring.Length
    modifies ring
    ensures ring[..] == old(ring[..])[1..] + [line]
  {
    var last := ring.Length - 1;
    for i := 0 to last
      invariant forall k :: 0 <= k < i ==> ring[k] == old(ring[k + 1])
      invariant forall k :: i <= k <= last ==> ring[k] == old(ring[k])
    {
      ring[i] := ring[i + 1];
    }
    ring[last] := line;
  }

  class ProgressTracker {
    const marker: string -> Option<Marker>
    var step: string
    var pct: real
    var ring: array<string>
    var len: nat
    /** The lines observed since the last reset. */
    ghost var seen: seq<string>

    ghost predicate Valid()
      reads this, ring
    {
      && 0 < ring.Length && len <= ring.Length
      && ring[..len] == LastN(seen, ring.Length)
      && Latest(step, pct) == Marked(seen, marker)
    }

    constructor (capLines: int, marker: string -> Option<Marker>)
      ensures Valid() && fresh(ring) && seen == [] && this.marker == marker
      ensures ring.Length == if capLines <= 0 then RING_LINES else capLines
    {
      this.marker := marker;
      step, pct, len, seen := "", 0.0, 0, [];
      ring := new string[if capLines <= 0 then RING_LINES else capLines](_ => "");
    }

    method Observe(line: string)
      requires Valid()
      modifies this, ring
      ensures Valid() && ring == old(ring) && seen == old(seen) + [line]
    {
      MarkedNext(seen, line, marker);
      hide LastN, Marked;
      Keep(line);
      match marker(line)
      case None =>
      case Some(m) =>
        step := m.step;
        if m.pct.Some? {
          pct := m.pct.value;
        }
    }

    /** The newest line observed is the last entry of the ring. */
    lemma NewestIsLast()
      requires Valid() && seen != []
      ensures 0 < len <= ring.Length && ring[len - 1] == seen[|seen| - 1]
    {
      assert ring[..len][len - 1] == seen[|seen| - 1];
    }

    method Keep(line: string)
      requires Valid()
      modifies `len, `seen, ring
      ensures ring == old(ring) && seen == old(seen) + [line] && len <= ring.Length
      ensures ring[..len] == LastN(seen, ring.Length)
    {
      LastNLater(seen, [line], ring.Length);
      seen := seen + [line];
      if len >= ring.Length {
        Shift(ring, line);
      } else {
        ring[len] := line;
        len := len + 1;
        assert ring[..len] == old(ring[..len]) + [line];
      }
    }

    method Snapshot() returns (step: string, pct: real, tail: string)
      requires Valid()
      ensures Latest(step, pct) == Marked(seen, marker) && tail == Join(LastN(seen, ring.Length))
    {
      return this.step, this.pct, Join(ring[..len]);
    }

    method Reset()
      requires Valid()
      modifies this
      ensures Valid() && ring == old(ring) && seen == []
    {
      step, pct, len, seen := "", 0.0, 0, [];
    }
  }
}
