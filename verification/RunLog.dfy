/** The snapshot of a job's log that goes into its completion report. */
module RunLog {

  newtype Byte = x: int | 0 <= x < 256

  const MAX_BYTES := 0x10_0000
  const SLACK := 64
  const NEWLINE: Byte := 10

  // ---- UTF-8, section 4 of RFC 3629 ----

  predicate Tail(b: Byte) {
    0x80 <= b <= 0xBF
  }

  predicate Two(s: seq<Byte>) {
    |s| >= 2 && 0xC2 <= s[0] <= 0xDF && Tail(s[1])
  }

  predicate Three(s: seq<Byte>) {
    && |s| >= 3 && Tail(s[2])
    && (|| (s[0] == 0xE0 && 0xA0 <= s[1] <= 0xBF) || (0xE1 <= s[0] <= 0xEC && Tail(s[1]))
        || (s[0] == 0xED && 0x80 <= s[1] <= 0x9F) || (0xEE <= s[0] <= 0xEF && Tail(s[1])))
  }

  predicate Four(s: seq<Byte>) {
    && |s| >= 4 && Tail(s[2]) && Tail(s[3])
    && ((s[0] == 0xF0 && 0x90 <= s[1] <= 0xBF) || (0xF1 <= s[0] <= 0xF3 && Tail(s[1]))
      || (s[0] == 0xF4 && 0x80 <= s[1] <= 0x8F))
  }

  /** The length of the character a text starts with, or 0 when it starts with none. */
  function CharLength(s: seq<Byte>): (n: nat)
    ensures n <= |s| && n <= 4
    ensures n > 0 ==> !Tail(s[0]) && forall i :: 1 <= i < n ==> Tail(s[i])
    ensures n > 0 && s[0] < 0x80 ==> n == 1
  {
    if s != [] && s[0] < 0x80 then 1 else if Two(s) then 2 else if Three(s) then 3 else if Four(s) then 4 else 0
  }

  predicate Valid(s: seq<Byte>)
    decreases |s|
  {
    s == [] || (CharLength(s) > 0 && Valid(s[CharLength(s)..]))
  }

  /** A valid text is valid from every byte on that is not a continuation byte. */
  lemma {:induction false} ValidFrom(s: seq<Byte>, i: nat)
    requires Valid(s) && i <= |s| && (i < |s| ==> !Tail(s[i]))
    ensures Valid(s[i..])
    decreases |s|
  {
    var n := CharLength(s);
    if i == 0 {
      assert s[i..] == s;
    } else {
      hide CharLength;
      assert n <= i;
      ValidFrom(s[n..], i - n);
      assert s[n..][i - n..] == s[i..];
    }
  }

  /** What follows a newline of a valid text is valid. */
  lemma ValidAfterNewline(s: seq<Byte>, i: nat)
    requires Valid(s) && i < |s| && s[i] == NEWLINE
    ensures Valid(s[i + 1..])
  {
    ValidFrom(s, i);
    hide CharLength;
    assert s[i..][0] == NEWLINE && s[i..][1..] == s[i + 1..];
    assert CharLength(s[i..]) == 1;
  }

  /** Four bytes in a row of a valid text are never all continuation bytes. */
  lemma {:induction false} TailsAreFew(s: seq<Byte>, i: nat)
    requires Valid(s) && i + 4 <= |s|
    ensures exists k :: i <= k < i + 4 && !Tail(s[k])
    decreases |s|
  {
    var n := CharLength(s);
    hide CharLength;
    if i == 0 {
      assert !Tail(s[0]);
    } else if i >= n {
      TailsAreFew(s[n..], i - n);
      var k :| i - n <= k < i - n + 4 && !Tail(s[n..][k]);
      assert s[n..][k] == s[n + k];
    } else {
      assert n < |s|;
      assert CharLength(s[n..]) > 0;
      assert s[n..][0] == s[n];
    }
  }

  // ---- the snapshot ----

  /** The first newline at or after `from`, or the length. */
  function NewlineFrom(s: seq<Byte>, from: nat): (i: nat)
    requires from <= |s|
    ensures from <= i <= |s| && (i < |s| ==> s[i] == NEWLINE)
    ensures forall k :: from <= k < i ==> s[k] != NEWLINE
    decreases |s| - from
  {
    if from == |s| || s[from] == NEWLINE then from else NewlineFrom(s, from + 1)
  }

  method IndexByteFrom(data: seq<Byte>, offset: nat) returns (i: int)
    requires offset <= |data|
    ensures i == if NewlineFrom(data, offset) < |data| then NewlineFrom(data, offset) else -1
  {
    i := offset;
    while i < |data|
      invariant offset <= i <= |data| && NewlineFrom(data, offset) == NewlineFrom(data, i)
    {
      if data[i] == NEWLINE {
        return i;
      }
      i := i + 1;
    }
    return -1;
  }

  /** Where the kept part of a long log starts: not before the last MiB, and not inside a character. */
  ghost predicate IsCut(content: seq<Byte>, cut: nat) {
    && cut <= |content| && |content| - cut <= MAX_BYTES
    && (cut < |content| ==> !Tail(content[cut]))
  }

  /** The body of a long log: what follows the first newline from the cut on, or all from the cut on. */
  ghost predicate IsBody(content: seq<Byte>, cut: nat, body: seq<Byte>) {
    cut <= |content| &&
    var nl := NewlineFrom(content, cut);
    body == content[if nl < |content| then nl + 1 else cut..]
  }

  method SkipTails(data: seq<Byte>, from: nat) returns (c: nat)
    requires from <= |data|
    ensures from <= c <= |data| && (c < |data| ==> !Tail(data[c]))
    ensures forall i :: from <= i < c ==> Tail(data[i])
  {
    c := from;
    while c < |data| && Tail(data[c])
      invariant from <= c <= |data|
      invariant forall i :: from <= i < c ==> Tail(data[i])
    {
      c := c + 1;
    }
  }

  /** The last MiB of what was read, aligned to a character and then to a line. */
  method TrimTail(data: seq<Byte>) returns (body: seq<Byte>, ghost cut: nat)
    ensures IsCut(data, cut) && IsBody(data, cut, body)
    ensures forall i :: |data| - MAX_BYTES <= i < cut && 0 <= i ==> Tail(data[i])
  {
    hide Tail, NewlineFrom;
    var c := |data| - MAX_BYTES;
    if c < 0 {
      c := 0;
    }
    c := SkipTails(data, c);
    var nl := IndexByteFrom(data, c);
    if nl >= 0 {
      return data[nl + 1..], c;
    }
    return data[c..], c;
  }

  /**
   The capture of a log of the given size when it was examined and the given content when it was
   read (a log may grow in between). `truncated` tells whether the marker line goes in front.
   */
  method CaptureRunLog(size: nat, content: seq<Byte>) returns (truncated: bool, body: seq<Byte>, ghost cut: nat)
    ensures truncated == (size > MAX_BYTES)
    ensures !truncated ==> body == content
    ensures truncated ==> IsCut(content, cut) && IsBody(content, cut, body)
    ensures truncated && |content| >= size ==> forall i :: |content| - MAX_BYTES <= i < cut ==> Tail(content[i])
  {
    hide IsCut, IsBody, Tail;
    if size <= MAX_BYTES {
      return false, content, 0;
    }
    var off := size - MAX_BYTES - SLACK;
    if off < 0 {
      off := 0;
    }
    var at: nat := if off <= |content| then off else |content|;
    body, cut := TrimTail(content[at..]);
    CutShift(content, at, cut, body);
    cut := at + cut;
    return true, body, cut;
  }

  /** A cut of what was read is a cut of the file. */
  lemma CutShift(content: seq<Byte>, at: nat, cut: nat, body: seq<Byte>)
    requires at <= |content| && IsCut(content[at..], cut) && IsBody(content[at..], cut, body)
    ensures IsCut(content, at + cut) && IsBody(content, at + cut, body)
    ensures forall i :: at <= i < at + cut ==> content[i] == content[at..][i - at]
  {
    NewlineShift(content, at, cut);
    hide NewlineFrom, Tail;
  }

  lemma {:induction false} NewlineShift(s: seq<Byte>, off: nat, from: nat)
    requires off + from <= |s|
    ensures NewlineFrom(s, off + from) == off + NewlineFrom(s[off..], from)
    decreases |s| - from
  {
    if off + from < |s| && s[off + from] != NEWLINE {
      NewlineShift(s, off, from + 1);
    }
  }

  /**
   What the capture of a long log is: a suffix of at most 1 MiB that starts just after a newline
   when one follows the cut, and valid UTF-8 whenever the log is, even if the last MiB starts
   inside a character.
   */
  lemma BodyIsReadable(content: seq<Byte>, cut: nat, body: seq<Byte>)
    requires IsCut(content, cut) && IsBody(content, cut, body)
    ensures |body| <= MAX_BYTES && body == content[|content| - |body|..]
    ensures (exists i :: cut <= i < |content| && content[i] == NEWLINE) ==>
      |body| < |content| && content[|content| - |body| - 1] == NEWLINE
    ensures Valid(content) ==> Valid(body)
  {
    var nl := NewlineFrom(content, cut);
    if Valid(content) {
      if nl < |content| {
        ValidAfterNewline(content, nl);
      } else {
        ValidFrom(content, cut);
      }
    }
    hide Valid, Tail;
  }

  /** The cut gives away at most three bytes of a valid log that was complete when it was examined. */
  lemma CutIsTight(content: seq<Byte>, cut: nat)
    requires Valid(content) && |content| > MAX_BYTES && IsCut(content, cut)
    requires forall i :: |content| - MAX_BYTES <= i < cut ==> Tail(content[i])
    ensures cut <= |content| - MAX_BYTES + 3
  {
    TailsAreFew(content, |content| - MAX_BYTES);
    hide Valid, Tail;
  }

  /** The 1 MiB bound on the whole report holds exactly when a log examined as small has not outgrown it meanwhile. */
  lemma BoundIff(size: nat, content: seq<Byte>, truncated: bool, cut: nat, body: seq<Byte>)
    requires truncated == (size > MAX_BYTES) && (!truncated ==> body == content)
    requires truncated ==> IsCut(content, cut) && IsBody(content, cut, body)
    ensures |body| <= MAX_BYTES <==> size > MAX_BYTES || |content| <= MAX_BYTES
  {
    if truncated {
      BodyIsReadable(content, cut, body);
    }
  }
}
