/** The agent's own log: a ring of recent lines with a bounded unfinished line. */
module LogRing {
  import opened Lines
  import Progress

  const RING_LINES := 40
  const RING_BYTES := 8192

  function TrimReturns(s: string): (r: string)
    ensures r <= s
    ensures r == "" || r[|r| - 1] != '\r'
    ensures forall i :: |r| <= i < |s| ==> s[i] == '\r'
  {
    if s != "" && s[|s| - 1] == '\r' then TrimReturns(s[..|s| - 1]) else s
  }

  /** What lines become as entries: trailing carriage returns go, and empty lines are skipped. */
  function Entries(lines: seq<string>): seq<string> {
    if lines == [] then []
    else Entries(lines[..|lines| - 1]) + if TrimReturns(lines[|lines| - 1]) == "" then []
      else [TrimReturns(lines[|lines| - 1])]
  }

  function Suffix(s: string): string {
    if |s| <= RING_BYTES then s else s[|s| - RING_BYTES..]
  }

  /** The last forty lines. */
  function Newest(lines: seq<string>): seq<string> {
    LastN(lines, RING_LINES)
  }

  datatype Kept = Kept(lines: seq<string>, pending: string)

  /** One write: the completed lines become entries, and the unfinished line keeps its last 8192 bytes. */
  function Written(k: Kept, p: string): Kept {
    var s := k.pending + p;
    Kept(Newest(k.lines + Entries(Complete(s))), Suffix(Rest(s)))
  }

  function WrittenAll(k: Kept, chunks: seq<string>): Kept
    decreases |chunks|
  {
    if chunks == [] then k else WrittenAll(Written(k, chunks[0]), chunks[1..])
  }

  lemma NextEntry(ring: seq<string>, done: seq<string>, line: string)
    ensures Newest(ring + Entries(done + [line])) ==
            if TrimReturns(line) == "" then Newest(ring + Entries(done))
            else Newest(Newest(ring + Entries(done)) + [TrimReturns(line)])
  {
    assert (done + [line])[..|done|] == done;
    if TrimReturns(line) != "" {
      LastNLater(ring + Entries(done), [TrimReturns(line)], RING_LINES);
      assert ring + Entries(done) + [TrimReturns(line)] == ring + (Entries(done) + [TrimReturns(line)]);
    }
  }

  class LogRing {
    var lines: seq<string>
    var pending: string

    ghost function State(): Kept
      reads this
    {
      Kept(lines, pending)
    }

    predicate Valid()
      reads this
    {
      |lines| <= RING_LINES
    }

    constructor ()
      ensures Valid() && State() == Kept([], "")
    {
      lines, pending := [], "";
    }

    method Write(p: string)
      requires Valid()
      modifies this
      ensures Valid() && State() == Written(old(State()), p)
    {
      pending := pending + p;
      ghost var done: seq<string> := [];
      while true
        invariant done + Complete(pending) == Complete(old(pending) + p) && Rest(pending) == Rest(old(pending) + p)
        invariant lines == Newest(old(lines) + Entries(done))
        decreases |pending|
      {
        var i := NewlineAt(pending);
        if i == |pending| {
          assert done + [] == done;
          break;
        }
        Unfold(done, pending);
        NextEntry(old(lines), done, pending[..i]);
        hide Complete, Rest, Entries, Newest, NewlineAt;
        var line := TrimReturns(pending[..i]);
        done := done + [pending[..i]];
        pending := pending[i + 1..];
        if line == "" {
          continue;
        }
        Push(line);
      }
      if |pending| > RING_BYTES {
        pending := pending[|pending| - RING_BYTES..];
      }
    }

    method Push(line: string)
      requires Valid()
      modifies `lines
      ensures Valid() && lines == Newest(old(lines) + [line])
      ensures 0 < |lines| && lines[|lines| - 1] == line
    {
      lines := lines + [line];
      if |lines| > RING_LINES {
        lines := lines[|lines| - RING_LINES..];
      }
    }

    /** The tail sent with a heartbeat. */
    method Tail() returns (out: string)
      ensures out == Shipped(Progress.Join(if pending == "" then lines else lines + [pending]))
    {
      hide Shipped;
      var all := lines;
      if pending != "" {
        all := lines + [pending];
      }
      if |all| == 0 {
        ShippedFits("");
        return "";
      }
      out := CutFront(Progress.Join(all));
    }
  }

  method CutFront(full: string) returns (out: string)
    ensures out == Shipped(full)
  {
    hide NewlineAt;
    out := full;
    if |out| > RING_BYTES {
      out := out[|out| - RING_BYTES..];
      var i := NewlineAt(out);
      if i < |out| {
        out := out[i + 1..];
      }
    }
  }

  /** The whole text, or the longest part of its last 8192 bytes that starts after a newline. */
  function Shipped(full: string): string {
    if |full| <= RING_BYTES then full
    else
      var i := NewlineAt(Suffix(full));
      if i < RING_BYTES then Suffix(full)[i + 1..] else Suffix(full)
  }

  /**
   The tail fits, ends as the log ends, and starts at the start of a line unless its one line is cut;
   no line that starts after the first of the last 8192 bytes is left out.
   */
  lemma ShippedFits(full: string)
    ensures var out := Shipped(full); var cut := |full| - |out|;
            && |out| <= RING_BYTES && 0 <= cut && out == full[cut..]
            && (cut > 0 ==> full[cut - 1] == '\n' || (|out| == RING_BYTES && '\n' !in out))
            && forall k :: 0 <= k < cut - 1 && |full| - RING_BYTES <= k ==> full[k] != '\n'
  {
    hide NewlineAt;
  }

  // ---- chunking ----

  /** No line is longer than the unfinished line may become. */
  predicate Short(s: string) {
    forall l :: l in All(s) ==> |l| <= RING_BYTES
  }

  /** What a text leaves in an empty ring when no line is long. */
  function Whole(s: string): Kept {
    Kept(Newest(Entries(Complete(s))), Rest(s))
  }

  lemma {:induction false} EntriesConcat(a: seq<string>, b: seq<string>)
    ensures Entries(a + b) == Entries(a) + Entries(b)
    decreases |b|
  {
    if b == [] {
      assert a + b == a;
    } else {
      assert (a + b)[..|a + b| - 1] == a + b[..|b| - 1];
      EntriesConcat(a, b[..|b| - 1]);
    }
  }

  lemma RestIsShort(s: string, t: string)
    requires Short(s + t)
    ensures |Rest(s)| <= RING_BYTES
  {
    LinesAreExact(s);
    if Rest(s) != "" {
      AllAppended(s, t);
      RestStarts(Rest(s), t);
      hide Rest, All, Complete;
      assert All(s + t)[|Complete(s)|] == All(Rest(s) + t)[0];
    }
  }

  lemma AllAppended(s: string, t: string)
    ensures All(s + t) == Complete(s) + All(Rest(s) + t)
  {
    Appended(s, t);
    hide Complete, Rest;
  }

  /** A text that starts without a newline has it all in its first line. */
  lemma RestStarts(r: string, t: string)
    requires '\n' !in r && r != ""
    ensures All(r + t) != [] && |r| <= |All(r + t)[0]|
  {
    var u := r + t;
    assert forall i :: 0 <= i < |r| ==> u[i] == r[i] && r[i] in r;
    var k := NewlineAt(u);
    assert |r| <= k;
    hide NewlineAt;
  }

  lemma WriteShort(s: string, p: string)
    requires |Rest(s + p)| <= RING_BYTES
    ensures Written(Whole(s), p) == Whole(s + p)
  {
    Appended(s, p);
    hide Complete, Rest, Entries;
    EntriesConcat(Complete(s), Complete(Rest(s) + p));
    LastNLater(Entries(Complete(s)), Entries(Complete(Rest(s) + p)), RING_LINES);
  }

  lemma {:induction false} WritesShort(s: string, chunks: seq<string>)
    requires Short(s + Joined(chunks))
    ensures WrittenAll(Whole(s), chunks) == Whole(s + Joined(chunks))
    decreases |chunks|
  {
    hide Short, Whole, Written;
    if chunks == [] {
      assert s + "" == s;
    } else {
      var t := Joined(chunks[1..]);
      assert s + Joined(chunks) == s + chunks[0] + t;
      RestIsShort(s + chunks[0], t);
      WriteShort(s, chunks[0]);
      WritesShort(s + chunks[0], chunks[1..]);
    }
  }

  lemma NothingYet()
    ensures Whole("") == Kept([], "")
  {
    hide LastN;
  }

  /**
   When no line is longer than 8192 bytes, the ring and the unfinished line depend on the bytes
   alone, not on the writes.
   */
  lemma ChunksDoNotMatterWhenShort(chunks: seq<string>)
    requires Short(Joined(chunks))
    ensures WrittenAll(Kept([], ""), chunks) == Whole(Joined(chunks))
  {
    NothingYet();
    hide Whole, Short, WrittenAll;
    assert "" + Joined(chunks) == Joined(chunks);
    WritesShort("", chunks);
  }

  lemma OneEntry(line: string)
    ensures Entries([line]) == if TrimReturns(line) == "" then [] else [TrimReturns(line)]
  {
    assert [line][..0] == [];
  }

  lemma OneLine(line: string)
    requires '\n' !in line
    ensures Complete(line + "\n") == [line] && Rest(line + "\n") == "" && Complete(line) == [] && Rest(line) == line
  {
    FirstLine(line, "");
    assert line + "\n" + "" == line + "\n" && [line] + [] == [line];
    NewlineAtSplit(line, "");
  }

  /** The newline of a held line. */
  lemma WriteNewline(held: string, p: string)
    requires '\n' !in held + p
    ensures Written(Kept([], held), p + "\n") == Kept(Entries([held + p]), "")
  {
    OneLine(held + p);
    OneEntry(held + p);
    assert held + (p + "\n") == held + p + "\n";
    hide Entries, Complete, Rest, TrimReturns;
    assert [] + Entries([held + p]) == Entries([held + p]);
  }

  lemma WriteHeld(line: string)
    requires '\n' !in line
    ensures Written(Kept([], ""), line) == Kept([], Suffix(line))
  {
    OneLine(line);
    assert "" + line == line;
    hide Complete, Rest, Suffix;
  }

  lemma SuffixAt(s: string)
    ensures forall i :: 0 <= i < |Suffix(s)| ==> Suffix(s)[i] == s[|s| - |Suffix(s)| + i]
    ensures |Suffix(s)| == if |s| <= RING_BYTES then |s| else RING_BYTES
  {
  }

  /** Cutting the front of a line changes its entry, unless the line has nothing but carriage returns. */
  lemma CutShows(line: string)
    ensures TrimReturns(Suffix(line)) == TrimReturns(line) <==> |line| <= RING_BYTES || TrimReturns(line) == ""
  {
    SuffixAt(line);
    if |line| <= RING_BYTES {
      assert Suffix(line) == line;
    } else {
      var off := |line| - RING_BYTES;
      var t, u := TrimReturns(line), TrimReturns(Suffix(line));
      hide Suffix, TrimReturns;
      assert u != "" ==> line[off + |u| - 1] != '\r';
    }
  }

  /**
   The bound on the unfinished line is exact: a line that reaches the ring in two writes gives the
   entry it gives in one if and only if it is at most 8192 bytes long or has nothing but carriage returns.
   */
  lemma SplitLine(line: string)
    requires '\n' !in line
    ensures Written(Written(Kept([], ""), line), "\n") == Written(Kept([], ""), line + "\n") <==>
      |line| <= RING_BYTES || TrimReturns(line) == ""
  {
    assert "" + line == line && Suffix(line) + "" == Suffix(line) && "" + "\n" == "\n";
    WriteNewline("", line);
    WriteHeld(line);
    SuffixAt(line);
    hide Written, Suffix, TrimReturns, Entries;
    WriteNewline(Suffix(line), "");
    OneEntry(line);
    OneEntry(Suffix(line));
    CutShows(line);
  }
}
