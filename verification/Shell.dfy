/**
 What the bash dialect prints as assignments and comments, and how a POSIX shell reads it back:
 sections 2.2.1, 2.2.2 and 2.3 of the Shell Command Language of POSIX.1-2017.
 */
module Shell {
  import opened Wrappers
  import Text

  // ---- identifiers ----

  predicate Kept(c: char) {
    'a' <= c <= 'z' || '0' <= c <= '9' || c == '_'
  }

  function Keep(s: string): string {
    if s == "" then "" else (if Kept(s[0]) then [s[0]] else "") + Keep(s[1..])
  }

  /** The characters of the lower-cased string that may stand in a bare token. */
  function Safe(s: string): string {
    Keep(Text.Lower(s))
  }

  lemma {:induction false} KeepSnoc(s: string, c: char)
    ensures Keep(s + [c]) == Keep(s) + if Kept(c) then [c] else ""
  {
    if s == "" {
      assert [c][1..] == "";
    } else {
      KeepSnoc(s[1..], c);
      assert (s + [c])[1..] == s[1..] + [c];
    }
  }

  method SafeIdent(s: string) returns (r: string)
    ensures r == Safe(s)
  {
    r := "";
    var low := Text.Lower(s);
    for i := 0 to |low|
      invariant r == Keep(low[..i])
    {
      assert low[..i + 1] == low[..i] + [low[i]];
      KeepSnoc(low[..i], low[i]);
      if Kept(low[i]) {
        r := r + [low[i]];
      }
    }
    assert low[..|low|] == low;
  }

  lemma {:induction false} KeepKept(s: string)
    ensures forall c :: c in Keep(s) ==> Kept(c)
    ensures (forall c :: c in s ==> Kept(c)) ==> Keep(s) == s
  {
    if s != "" {
      KeepKept(s[1..]);
      assert s == [s[0]] + s[1..];
    }
  }

  /** The result has the safe alphabet, and a name already in it is unchanged. */
  lemma SafeIsSafe(s: string)
    ensures forall c :: c in Safe(s) ==> Kept(c)
    ensures (forall c :: c in s ==> Kept(c)) ==> Safe(s) == s
  {
    KeepKept(Text.Lower(s));
    if forall c :: c in s ==> Kept(c) {
      assert Text.Lower(s) == s by {
        forall i | 0 <= i < |s| ensures Text.LowerChar(s[i]) == s[i] {
          assert s[i] in s;
        }
      }
    }
  }

  /** The safe alphabet by its codes: the digits, the underscore and the lower-case letters. */
  predicate SafeChar(c: char) {
    48 <= c as int < 58 || c as int == 95 || 97 <= c as int < 123
  }

  /**
   What is kept, exactly: at the positions `at`, in order, the safe characters of the lower-cased
   string, and no safe character is passed over.
   */
  lemma {:induction false} SafeKeepsAll(s: string) returns (at: seq<nat>)
    ensures |at| == |Safe(s)| && forall i, k :: 0 <= i < k < |at| ==> at[i] < at[k]
    ensures forall i :: 0 <= i < |at| ==> at[i] < |s| && Safe(s)[i] == Text.LowerChar(s[at[i]])
    ensures forall i :: 0 <= i < |s| ==> (i in at <==> SafeChar(Text.LowerChar(s[i])))
  {
    at := KeepsAll(Text.Lower(s));
  }

  lemma {:induction false} KeepsAll(s: string) returns (at: seq<nat>)
    ensures |at| == |Keep(s)| && forall i, k :: 0 <= i < k < |at| ==> at[i] < at[k]
    ensures forall i :: 0 <= i < |at| ==> at[i] < |s| && Keep(s)[i] == s[at[i]]
    ensures forall i :: 0 <= i < |s| ==> (i in at <==> SafeChar(s[i]))
  {
    if s == "" {
      at := [];
    } else {
      var init, last := s[..|s| - 1], s[|s| - 1];
      var before := KeepsAll(init);
      assert s == init + [last];
      KeepSnoc(init, last);
      assert Kept(last) <==> SafeChar(last);
      hide Kept, SafeChar, Keep;
      assert forall x :: x in before ==> x < |init|;
      at := before + if Kept(last) then [|s| - 1] else [];
      forall i | 0 <= i < |s| ensures i in at <==> SafeChar(s[i]) {
        assert i < |s| - 1 ==> s[i] == init[i] && (i in at <==> i in before);
      }
    }
  }

  // ---- printing ----

  datatype Assign = Assign(name: string, value: string)

  function Escape(v: string): string {
    if v == "" then "" else (if v[0] == '\'' then "'\\''" else [v[0]]) + Escape(v[1..])
  }

  function Quote(v: string): string {
    "'" + Escape(v) + "'"
  }

  function Line(indent: string, a: Assign): string {
    indent + a.name + "=" + Quote(a.value) + "\n"
  }

  function Print(indent: string, block: seq<Assign>): string {
    if block == [] then "" else Line(indent, block[0]) + Print(indent, block[1..])
  }

  /** Carriage returns and newlines become spaces. */
  function Comment(s: string): (r: string)
    ensures |r| == |s|
    ensures forall i :: 0 <= i < |s| ==> r[i] == if s[i] == '\r' || s[i] == '\n' then ' ' else s[i]
  {
    seq(|s|, i requires 0 <= i < |s| => if s[i] == '\r' || s[i] == '\n' then ' ' else s[i])
  }

  // ---- reading ----

  datatype Piece = Piece(c: char, quoted: bool)

  type Word = seq<Piece>

  datatype Mode = Bare | Escaped | Single | Commented

  /** Characters that mean more to the shell than this reader covers. */
  predicate Special(c: char) {
    c in "|&;<>()$`\"*?[~!{}" || c == '\0'
  }

  function Ended(word: Option<Word>, line: seq<Word>): seq<Word> {
    if word.Some? then line + [word.value] else line
  }

  function Cut(word: Option<Word>, line: seq<Word>, lines: seq<seq<Word>>): seq<seq<Word>> {
    if Ended(word, line) == [] then lines else lines + [Ended(word, line)]
  }

  function Grown(word: Option<Word>, c: char, quoted: bool): Option<Word> {
    Some((if word.Some? then word.value else []) + [Piece(c, quoted)])
  }

  /** The lines of words of a text; `None` when it leaves the covered part of the language or a quote stays open. */
  function Scan(s: string, mode: Mode, word: Option<Word>, line: seq<Word>,
      lines: seq<seq<Word>>): Option<seq<seq<Word>>>
    decreases |s|
  {
    if s == "" then (if mode.Bare? || mode.Commented? then Some(Cut(word, line, lines)) else None)
    else
      var c, rest := s[0], s[1..];
      match mode
      case Bare =>
        if c == '\'' then Scan(rest, Single, Some(if word.Some? then word.value else []), line, lines)
        else if c == '\\' then Scan(rest, Escaped, word, line, lines)
        else if c == '\n' then Scan(rest, Bare, None, [], Cut(word, line, lines))
        else if c == ' ' || c == '\t' then Scan(rest, Bare, None, Ended(word, line), lines)
        else if c == '#' && word.None? then Scan(rest, Commented, None, line, lines)
        else if Special(c) then None
        else Scan(rest, Bare, Grown(word, c, false), line, lines)
      case Escaped =>
        if c == '\n' then Scan(rest, Bare, word, line, lines) else Scan(rest, Bare, Grown(word, c, true), line, lines)
      case Single =>
        if c == '\'' then Scan(rest, Bare, word, line, lines)
        else if c == '\0' then None
        else Scan(rest, Single, Grown(word, c, true), line, lines)
      case Commented =>
        if c == '\n' then Scan(rest, Bare, None, [], Cut(None, line, lines))
          else Scan(rest, Commented, None, line, lines)
  }

  function Lex(s: string): Option<seq<seq<Word>>> {
    Scan(s, Bare, None, [], [])
  }

  predicate NameChar(c: char) {
    'a' <= c <= 'z' || 'A' <= c <= 'Z' || '0' <= c <= '9' || c == '_'
  }

  /** A name may not be empty or start with a digit. */
  predicate ValidName(n: string) {
    n != "" && !('0' <= n[0] <= '9') && forall c :: c in n ==> NameChar(c)
  }

  function Chars(w: Word): (s: string)
    ensures |s| == |w|
    ensures forall i :: 0 <= i < |w| ==> s[i] == w[i].c
  {
    seq(|w|, i requires 0 <= i < |w| => w[i].c)
  }

  /** The first unquoted equals sign, or the length of the word. */
  function EqualsAt(w: Word): (k: nat)
    ensures k <= |w|
  {
    if w == [] || w[0] == Piece('=', false) then 0 else 1 + EqualsAt(w[1..])
  }

  /** A word is an assignment when an unquoted valid name precedes an unquoted equals sign. */
  function AsAssign(w: Word): Option<Assign> {
    var k := EqualsAt(w);
    if k < |w| && (forall i :: 0 <= i < k ==> !w[i].quoted) && ValidName(Chars(w[..k]))
    then Some(Assign(Chars(w[..k]), Chars(w[k + 1..]))) else None
  }

  /** The assignments of a text that consists of assignment lines only. */
  function AsBlock(lines: seq<seq<Word>>): Option<seq<Assign>> {
    if lines == [] then Some([])
    else
      var rest := AsBlock(lines[1..]);
      if |lines[0]| == 1 && AsAssign(lines[0][0]).Some? && rest.Some?
        then Some([AsAssign(lines[0][0]).value] + rest.value) else None
  }

  function Read(s: string): Option<seq<Assign>> {
    var lines := Lex(s);
    if lines.None? then None else AsBlock(lines.value)
  }

  // ---- print, then read ----

  predicate NulFree(s: string) {
    '\0' !in s
  }

  predicate Printable(block: seq<Assign>) {
    forall a :: a in block ==> a.name != "" && (forall c :: c in a.name ==> NameChar(c)) && NulFree(a.value)
  }

  function Plain(s: string, quoted: bool): (w: Word)
    ensures |w| == |s|
    ensures forall i :: 0 <= i < |s| ==> w[i] == Piece(s[i], quoted)
  {
    seq(|s|, i requires 0 <= i < |s| => Piece(s[i], quoted))
  }

  function WordOf(a: Assign): Word {
    Plain(a.name, false) + [Piece('=', false)] + Plain(a.value, true)
  }

  /** One quoted character, in the state inside single quotes. */
  lemma ScanChar(c: char, s: string, w: Word, line: seq<Word>, lines: seq<seq<Word>>)
    requires c != '\0'
    ensures Scan((if c == '\'' then "'\\''" else [c]) + s, Single, Some(w), line, lines)
      == Scan(s, Single, Some(w + [Piece(c, true)]), line, lines)
  {
    if c == '\'' {
      var t := "'\\''" + s;
      assert t[1..] == "\\''" + s && ("\\''" + s)[1..] == "''" + s && ("''" + s)[1..] == "'" + s && ("'" + s)[1..] == s;
      assert Scan(t, Single, Some(w), line, lines) == Scan("\\''" + s, Bare, Some(w), line, lines);
      assert Scan("\\''" + s, Bare, Some(w), line, lines) == Scan("''" + s, Escaped, Some(w), line, lines);
      assert Scan("''" + s, Escaped, Some(w), line, lines)
        == Scan("'" + s, Bare, Some(w + [Piece(c, true)]), line, lines);
    } else {
      assert ([c] + s)[1..] == s;
    }
  }

  lemma {:induction false} ScanValue(v: string, s: string, w: Word, line: seq<Word>, lines: seq<seq<Word>>)
    requires NulFree(v)
    ensures Scan(Escape(v) + "'" + s, Single, Some(w), line, lines)
      == Scan(s, Bare, Some(w + Plain(v, true)), line, lines)
  {
    if v == "" {
      assert Escape(v) + "'" + s == "'" + s && ("'" + s)[1..] == s;
      assert w + Plain(v, true) == w;
    } else {
      var c, tail := v[0], Escape(v[1..]) + "'" + s;
      var w2 := w + [Piece(c, true)];
      assert Escape(v) + "'" + s == (if c == '\'' then "'\\''" else [c]) + tail;
      assert w2 + Plain(v[1..], true) == w + Plain(v, true);
      hide Scan;
      ScanChar(c, tail, w, line, lines);
      ScanValue(v[1..], s, w2, line, lines);
    }
  }

  /** Unquoted name characters and the equals sign stand for themselves. */
  lemma {:induction false} ScanName(n: string, s: string, w: Word, line: seq<Word>, lines: seq<seq<Word>>)
    requires (forall c :: c in n ==> NameChar(c) || c == '=') && n != ""
    ensures Scan(n + s, Bare, if w == [] then None else Some(w), line, lines)
      == Scan(s, Bare, Some(w + Plain(n, false)), line, lines)
  {
    var w2 := w + [Piece(n[0], false)];
    assert n[0] in n && (n + s)[1..] == n[1..] + s;
    assert Scan(n + s, Bare, if w == [] then None else Some(w), line, lines)
      == Scan(n[1..] + s, Bare, Some(w2), line, lines);
    hide Scan;
    if n[1..] == "" {
      assert n[1..] + s == s && w + Plain(n, false) == w2;
    } else {
      ScanName(n[1..], s, w2, line, lines);
      assert w2 + Plain(n[1..], false) == w + Plain(n, false);
    }
  }

  lemma {:induction false} ScanBlanks(indent: string, s: string, lines: seq<seq<Word>>)
    requires forall c :: c in indent ==> c == ' '
    ensures Scan(indent + s, Bare, None, [], lines) == Scan(s, Bare, None, [], lines)
  {
    if indent == "" {
      assert indent + s == s;
    } else {
      assert indent[0] in indent && (indent + s)[1..] == indent[1..] + s;
      assert forall c :: c in indent[1..] ==> c in indent;
      ScanBlanks(indent[1..], s, lines);
    }
  }

  /** The parts of a printed line. */
  lemma LineParts(indent: string, a: Assign, s: string)
    ensures Line(indent, a) + s == indent + ((a.name + "=") + ("'" + (Escape(a.value) + "'" + ("\n" + s))))
  {
    hide Escape;
  }

  lemma ScanLine(indent: string, a: Assign, s: string, lines: seq<seq<Word>>)
    requires Printable([a]) && forall c :: c in indent ==> c == ' '
    ensures Scan(Line(indent, a) + s, Bare, None, [], lines) == Scan(s, Bare, None, [], lines + [[WordOf(a)]])
  {
    assert a in [a];
    hide Scan, Line, Escape;
    LineParts(indent, a, s);
    ScanBlanks(indent, (a.name + "=") + ("'" + (Escape(a.value) + "'" + ("\n" + s))), lines);
    ScanAssign(a, s, lines);
  }

  lemma ScanAssign(a: Assign, s: string, lines: seq<seq<Word>>)
    requires (forall c :: c in a.name ==> NameChar(c)) && NulFree(a.value)
    ensures Scan((a.name + "=") + ("'" + (Escape(a.value) + "'" + ("\n" + s))), Bare, None, [], lines)
      == Scan(s, Bare, None, [], lines + [[WordOf(a)]])
  {
    hide Scan, Escape;
    var n := a.name + "=";
    var tail := Escape(a.value) + "'" + ("\n" + s);
    ScanName(n, "'" + tail, [], [], lines);
    assert [] + Plain(n, false) == Plain(n, false);
    ScanOpen(tail, Plain(n, false), lines);
    ScanValue(a.value, "\n" + s, Plain(n, false), [], lines);
    assert Plain(n, false) + Plain(a.value, true) == WordOf(a);
    ScanNewline(s, WordOf(a), lines);
  }

  lemma ScanOpen(s: string, w: Word, lines: seq<seq<Word>>)
    ensures Scan("'" + s, Bare, Some(w), [], lines) == Scan(s, Single, Some(w), [], lines)
  {
    assert ("'" + s)[1..] == s;
  }

  lemma ScanNewline(s: string, w: Word, lines: seq<seq<Word>>)
    ensures Scan("\n" + s, Bare, Some(w), [], lines) == Scan(s, Bare, None, [], lines + [[w]])
  {
    assert ("\n" + s)[1..] == s;
    assert [] + [w] == [w] && Cut(Some(w), [], lines) == lines + [[w]];
  }

  function WordsOf(block: seq<Assign>): seq<seq<Word>> {
    if block == [] then [] else [[WordOf(block[0])]] + WordsOf(block[1..])
  }

  lemma {:induction false} ScanBlock(indent: string, block: seq<Assign>, s: string, lines: seq<seq<Word>>)
    requires Printable(block) && forall c :: c in indent ==> c == ' '
    ensures Scan(Print(indent, block) + s, Bare, None, [], lines) == Scan(s, Bare, None, [], lines + WordsOf(block))
  {
    hide Scan, Line;
    if block == [] {
      assert Print(indent, block) + s == s && lines + WordsOf(block) == lines;
    } else {
      var tail := Print(indent, block[1..]) + s;
      assert Print(indent, block) + s == Line(indent, block[0]) + tail;
      assert Printable([block[0]]) && Printable(block[1..]);
      ScanLine(indent, block[0], tail, lines);
      ScanBlock(indent, block[1..], s, lines + [[WordOf(block[0])]]);
      assert lines + [[WordOf(block[0])]] + WordsOf(block[1..]) == lines + WordsOf(block);
    }
  }

  lemma {:induction false} EqualsAfterName(n: string, w: Word)
    requires forall c :: c in n ==> NameChar(c)
    ensures EqualsAt(Plain(n, false) + [Piece('=', false)] + w) == |n|
  {
    var whole := Plain(n, false) + [Piece('=', false)] + w;
    if n != "" {
      assert n[0] in n && whole[0] == Piece(n[0], false);
      assert whole[1..] == Plain(n[1..], false) + [Piece('=', false)] + w;
      EqualsAfterName(n[1..], w);
    }
  }

  lemma AssignReadsBack(a: Assign)
    requires Printable([a])
    ensures AsAssign(WordOf(a)) == if ValidName(a.name) then Some(a) else None
  {
    assert a in [a];
    var w := WordOf(a);
    EqualsAfterName(a.name, Plain(a.value, true));
    assert Chars(w[..|a.name|]) == a.name;
    assert Chars(w[|a.name| + 1..]) == a.value;
  }

  lemma {:induction false} BlockReadsBack(block: seq<Assign>)
    requires Printable(block)
    ensures AsBlock(WordsOf(block)) == if forall a :: a in block ==> ValidName(a.name) then Some(block) else None
  {
    if block != [] {
      assert Printable([block[0]]) && Printable(block[1..]);
      hide WordOf, AsAssign, ValidName, Printable;
      AssignReadsBack(block[0]);
      BlockReadsBack(block[1..]);
      assert block == [block[0]] + block[1..];
      assert WordsOf(block)[0] == [WordOf(block[0])] && WordsOf(block)[1..] == WordsOf(block[1..]);
    }
  }

  /**
   Reading a printed block gives back exactly the printed names and values, whatever characters
   but NUL the values hold, if and only if every name is a shell name; a name made of the safe
   alphabet fails only by starting with a digit.
   */
  lemma ReadPrint(indent: string, block: seq<Assign>)
    requires Printable(block) && forall c :: c in indent ==> c == ' '
    ensures Read(Print(indent, block)) == if forall a :: a in block ==> ValidName(a.name) then Some(block) else None
  {
    ScanBlock(indent, block, "", []);
    assert Print(indent, block) + "" == Print(indent, block) && [] + WordsOf(block) == WordsOf(block);
    hide AsBlock, Print;
    BlockReadsBack(block);
  }

  lemma {:induction false} ScanComment(s: string, rest: string, lines: seq<seq<Word>>)
    requires '\n' !in s
    ensures Scan(s + "\n" + rest, Commented, None, [], lines) == Scan(rest, Bare, None, [], lines)
  {
    if s == "" {
      assert s + "\n" + rest == "\n" + rest && ("\n" + rest)[1..] == rest;
    } else {
      assert (s + "\n" + rest)[1..] == s[1..] + "\n" + rest;
      ScanComment(s[1..], rest, lines);
    }
  }

  lemma CommentLine(text: string, rest: string)
    requires '\n' !in text
    ensures Lex("#" + text + "\n" + rest) == Lex(rest)
  {
    var s := "#" + text + "\n" + rest;
    assert s[1..] == text + "\n" + rest;
    ScanComment(text, rest, []);
  }

  /** No value printed into a comment line is ever read as anything else. */
  lemma CommentsAreInert(fixed: string, value: string, rest: string)
    requires '\n' !in fixed
    ensures Lex("#" + fixed + Comment(value) + "\n" + rest) == Lex(rest)
  {
    hide Lex;
    CommentLine(fixed + Comment(value), rest);
    assert "#" + (fixed + Comment(value)) + "\n" + rest == "#" + fixed + Comment(value) + "\n" + rest;
  }
}
