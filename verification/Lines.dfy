/** Output as lines. A character stands for one byte. */
module Lines {

  /** The first newline, or the length. */
  function NewlineAt(s: string): (k: nat)
    ensures k <= |s| && '\n' !in s[..k]
    ensures k < |s| ==> s[k] == '\n'
  {
    if s == "" || s[0] == '\n' then 0
    else
      var k := 1 + NewlineAt(s[1..]);
      assert s[..k] == [s[0]] + s[1..][..k - 1];
      k
  }

  /** The lines that are ended by a newline. */
  function Complete(s: string): seq<string>
    decreases |s|
  {
    var k := NewlineAt(s);
    if k == |s| then [] else [s[..k]] + Complete(s[k + 1..])
  }

  /** What follows the last newline. */
  function Rest(s: string): string
    decreases |s|
  {
    var k := NewlineAt(s);
    if k == |s| then s else Rest(s[k + 1..])
  }

  /** The first line comes off the front. */
  lemma Unfold(lines: seq<string>, data: string)
    requires NewlineAt(data) < |data|
    ensures var nl := NewlineAt(data);
            lines + Complete(data) == lines + [data[..nl]] + Complete(data[nl + 1..])
                && Rest(data) == Rest(data[nl + 1..])
  {
    hide Complete, Rest, NewlineAt;
    FirstLineOf(data, "");
    assert data + "" == data && data[NewlineAt(data) + 1..] + "" == data[NewlineAt(data) + 1..];
  }

  /** All lines; the last one may lack its newline. */
  function All(s: string): seq<string> {
    Complete(s) + if Rest(s) == "" then [] else [Rest(s)]
  }


  function Ended(lines: seq<string>): string {
    if lines == [] then "" else lines[0] + "\n" + Ended(lines[1..])
  }

  /** No byte is lost or invented, and no line contains a newline: this determines the lines. */
  lemma {:induction false} LinesAreExact(s: string)
    ensures Ended(Complete(s)) + Rest(s) == s
    ensures '\n' !in Rest(s) && forall l :: l in Complete(s) ==> '\n' !in l
    decreases |s|
  {
    hide Complete, Rest, NewlineAt;
    var k := NewlineAt(s);
    if k == |s| {
      NoLine(s);
    } else {
      LinesAreExact(s[k + 1..]);
      FirstLineOf(s, "");
      assert s + "" == s && s[k + 1..] + "" == s[k + 1..];
      EndedNext(s[..k], Complete(s[k + 1..]));
      assert s == s[..k] + "\n" + s[k + 1..];
    }
  }

  lemma EndedNext(line: string, lines: seq<string>)
    ensures Ended([line] + lines) == line + "\n" + Ended(lines)
  {
    assert ([line] + lines)[1..] == lines;
  }

  lemma {:induction false} NewlineAtSplit(line: string, s: string)
    requires '\n' !in line
    ensures NewlineAt(line + "\n" + s) == |line|
    ensures NewlineAt(line) == |line|
  {
    if line != "" {
      NewlineAtSplit(line[1..], s);
      assert (line + "\n" + s)[1..] == line[1..] + "\n" + s;
    }
  }

  lemma FirstLine(line: string, s: string)
    requires '\n' !in line
    ensures Complete(line + "\n" + s) == [line] + Complete(s) && Rest(line + "\n" + s) == Rest(s)
  {
    NewlineAtSplit(line, s);
    assert (line + "\n" + s)[..|line|] == line && (line + "\n" + s)[|line| + 1..] == s;
  }

  lemma FirstLineOf(s: string, t: string)
    requires NewlineAt(s) < |s|
    ensures var k := NewlineAt(s);
            Complete(s + t) == [s[..k]] + Complete(s[k + 1..] + t) && Rest(s + t) == Rest(s[k + 1..] + t)
  {
    var k := NewlineAt(s);
    var line, later := s[..k], s[k + 1..] + t;
    assert s + t == line + "\n" + later;
    hide Complete, Rest, NewlineAt;
    FirstLine(line, later);
  }

  lemma NoLine(s: string)
    requires NewlineAt(s) == |s|
    ensures Complete(s) == [] && Rest(s) == s
  {
  }

  /** Appending bytes completes the held rest and nothing else. */
  lemma {:induction false} Appended(s: string, t: string)
    ensures Complete(s + t) == Complete(s) + Complete(Rest(s) + t)
    ensures Rest(s + t) == Rest(Rest(s) + t)
    decreases |s|
  {
    hide Complete, Rest, NewlineAt;
    var k := NewlineAt(s);
    if k == |s| {
      NoLine(s);
    } else {
      Appended(s[k + 1..], t);
      FirstLineOf(s, t);
      FirstLineOf(s, "");
      assert s + "" == s && s[k + 1..] + "" == s[k + 1..];
    }
  }


  /** The lines a writer sees that keeps an unfinished line from write to write. */
  function Seen(held: string, chunks: seq<string>): seq<string>
    decreases |chunks|
  {
    if chunks == [] then (if held == "" then [] else [held])
    else Complete(held + chunks[0]) + Seen(Rest(held + chunks[0]), chunks[1..])
  }

  function Joined(chunks: seq<string>): string {
    if chunks == [] then "" else chunks[0] + Joined(chunks[1..])
  }

  /** Chunking does not matter: for every split into writes, the lines seen are the lines of the whole. */
  lemma {:induction false} ChunksDoNotMatter(held: string, chunks: seq<string>)
    requires '\n' !in held
    ensures Seen(held, chunks) == All(held + Joined(chunks))
    decreases |chunks|
  {
    NewlineAtSplit(held, "");
    if chunks == [] {
      assert held + "" == held;
    } else {
      var s := held + chunks[0];
      LinesAreExact(s);
      hide Complete, Rest;
      ChunksDoNotMatter(Rest(s), chunks[1..]);
      Appended(s, Joined(chunks[1..]));
      assert held + Joined(chunks) == s + Joined(chunks[1..]);
    }
  }

  // ---- the last entries ----

  /** The longest end of a sequence with at most `n` entries. */
  function LastN<T>(s: seq<T>, n: nat): (r: seq<T>)
    ensures |r| == if |s| < n then |s| else n
    ensures r == s[|s| - |r|..]
  {
    if |s| <= n then s else s[|s| - n..]
  }

  lemma LastNLater<T>(s: seq<T>, t: seq<T>, n: nat)
    ensures LastN(LastN(s, n) + t, n) == LastN(s + t, n)
  {
    var u, v := LastN(s, n) + t, s + t;
    assert LastN(u, n) == u[|u| - |LastN(u, n)|..] && LastN(v, n) == v[|v| - |LastN(v, n)|..];
    hide LastN;
  }
}
