/** Small string functions shared by the renderer, the scanner and the node model. */
module Text {

  /**
   Lower case of one character, as far as it matters here: the ASCII letters, and the two other
   code points (dotted capital I, Kelvin sign) whose lower case is an ASCII letter.
   */
  function LowerChar(c: char): char {
    if 'A' <= c <= 'Z' then (c as int + 32) as char
    else if c == '\U{0130}' then 'i'
    else if c == '\U{212A}' then 'k'
    else c
  }

  function Lower(s: string): (r: string)
    ensures |r| == |s|
    ensures forall i :: 0 <= i < |s| ==> r[i] == LowerChar(s[i])
  {
    seq(|s|, i requires 0 <= i < |s| => LowerChar(s[i]))
  }

  /** The letters A to Z become a to z, the rest of ASCII stays, and what is lower case stays so. */
  lemma LowerIs(c: char)
    ensures 'A' <= c <= 'Z' ==> LowerChar(c) as int - 'a' as int == c as int - 'A' as int
    ensures c < 'A' || 'Z' < c < '\U{0080}' ==> LowerChar(c) == c
    ensures LowerChar(LowerChar(c)) == LowerChar(c) && !('A' <= LowerChar(c) <= 'Z')
  {
  }

  lemma LowerTwice(s: string)
    ensures Lower(Lower(s)) == Lower(s)
  {
    forall i | 0 <= i < |s| ensures LowerChar(LowerChar(s[i])) == LowerChar(s[i]) {
      LowerIs(s[i]);
    }
  }

  predicate HasPrefix(s: string, prefix: string) {
    prefix <= s
  }
}
