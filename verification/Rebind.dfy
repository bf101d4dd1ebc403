/** The placeholder rewrite of the store for PostgreSQL. */
module Rebind {

  function Decimal(n: nat): string {
    if n < 10 then [('0' as int + n) as char] else Decimal(n / 10) + [('0' as int + n % 10) as char]
  }

  /** A decimal numeral, read digit by digit from the left. */
  function ReadDecimal(s: string): int {
    if s == "" then 0 else 10 * ReadDecimal(s[..|s| - 1]) + (s[|s| - 1] as int - '0' as int)
  }

  /** What is printed is a numeral without leading zeros, and reads as the number. */
  lemma {:induction false} DecimalReads(n: nat)
    ensures ReadDecimal(Decimal(n)) == n && Decimal(n) != ""
    ensures forall c :: c in Decimal(n) ==> '0' <= c <= '9'
    ensures n > 0 ==> Decimal(n)[0] != '0'
  {
    var last := [('0' as int + n % 10) as char];
    if n < 10 {
      assert Decimal(n)[..0] == "";
    } else {
      DecimalReads(n / 10);
      assert Decimal(n) == Decimal(n / 10) + last && Decimal(n)[..|Decimal(n)| - 1] == Decimal(n / 10);
    }
  }

  /** The number of quotes before position `i`; inside a literal it is odd, doubled quotes included. */
  function Quotes(s: string, i: nat): nat
    requires i <= |s|
  {
    if i == 0 then 0 else Quotes(s, i - 1) + if s[i - 1] == '\'' then 1 else 0
  }

  predicate Literal(s: string, i: nat)
    requires i <= |s|
  {
    Quotes(s, i) % 2 == 1
  }

  predicate Placeholder(s: string, i: nat)
    requires i < |s|
  {
    s[i] == '?' && !Literal(s, i)
  }

  /** The number of placeholders before position `i`. */
  function Placeholders(s: string, i: nat): nat
    requires i <= |s|
  {
    if i == 0 then 0 else Placeholders(s, i - 1) + if Placeholder(s, i - 1) then 1 else 0
  }

  /** What one byte becomes: the k-th placeholder is `$k`, everything else stays. */
  function Piece(s: string, i: nat): string
    requires i < |s|
  {
    if Placeholder(s, i) then "$" + Decimal(Placeholders(s, i) + 1) else [s[i]]
  }

  function Pieces(s: string, n: nat): string
    requires n <= |s|
  {
    if n == 0 then "" else Pieces(s, n - 1) + Piece(s, n - 1)
  }

  /** The one-pass scanner with its look-ahead for doubled quotes refines the definition by positions. */
  method Rebound(sql: string) returns (b: string)
    ensures b == Pieces(sql, |sql|)
  {
    hide Decimal;
    b := "";
    var inQuote := false;
    var paramIdx := 0;
    var i := 0;
    while i < |sql|
      invariant 0 <= i <= |sql|
      invariant inQuote == Literal(sql, i) && paramIdx == Placeholders(sql, i)
      invariant b == Pieces(sql, i)
    {
      var ch := sql[i];
      if ch == '\'' {
        if inQuote && i + 1 < |sql| && sql[i + 1] == '\'' {
          Doubled(sql, i);
          b := b + [ch];
          b := b + [sql[i + 1]];
          i := i + 2;
          continue;
        }
        inQuote := !inQuote;
        b := b + [ch];
        i := i + 1;
        continue;
      }
      if ch == '?' && !inQuote {
        paramIdx := paramIdx + 1;
        b := b + ("$" + Decimal(paramIdx));
        i := i + 1;
        continue;
      }
      b := b + [ch];
      i := i + 1;
    }
  }

  /**
   What stands for one byte: a dollar sign and the number of the placeholder, which is one more than
   there are placeholders before it; or the byte itself.
   */
  lemma PieceReads(s: string, i: nat)
    requires i < |s|
    ensures Pieces(s, i + 1) == Pieces(s, i) + Piece(s, i)
    ensures s[i] == '?' && Quotes(s, i) % 2 == 0 ==>
      Piece(s, i)[0] == '$' && ReadDecimal(Piece(s, i)[1..]) == Placeholders(s, i) + 1
    ensures s[i] != '?' || Quotes(s, i) % 2 == 1 ==> Piece(s, i) == [s[i]]
  {
    DecimalReads(Placeholders(s, i) + 1);
    hide Decimal, ReadDecimal;
    assert Placeholder(s, i) ==> Piece(s, i)[1..] == Decimal(Placeholders(s, i) + 1);
  }

  lemma Doubled(s: string, i: nat)
    requires i + 1 < |s| && s[i] == s[i + 1] == '\''
    ensures Literal(s, i + 2) == Literal(s, i) && Placeholders(s, i + 2) == Placeholders(s, i)
    ensures Pieces(s, i + 2) == Pieces(s, i) + [s[i]] + [s[i + 1]]
  {
    hide Decimal;
    assert Quotes(s, i + 2) == Quotes(s, i + 1) + 1 == Quotes(s, i) + 2;
    assert Placeholders(s, i + 2) == Placeholders(s, i + 1) == Placeholders(s, i);
    assert Pieces(s, i + 2) == Pieces(s, i + 1) + [s[i + 1]] && Pieces(s, i + 1) == Pieces(s, i) + [s[i]];
  }

  lemma {:induction false} PlaceholdersGrow(s: string, i: nat, k: nat)
    requires i <= k <= |s|
    ensures Placeholders(s, i) <= Placeholders(s, k)
    decreases k
  {
    if i < k {
      PlaceholdersGrow(s, i, k - 1);
    }
  }

  /** The numbers run from 1 to n in order, each once. */
  lemma {:induction false} NumbersRunInOrder(s: string, k: nat) returns (i: nat)
    requires 1 <= k <= Placeholders(s, |s|)
    ensures i < |s| && Placeholder(s, i) && Placeholders(s, i) + 1 == k
    ensures forall m :: 0 <= m < |s| && Placeholder(s, m) && Placeholders(s, m) + 1 == k ==> m == i
  {
    i := Numbered(s, |s|, k);
    forall m | 0 <= m < |s| && Placeholder(s, m) && Placeholders(s, m) + 1 == k ensures m == i {
      if m < i {
        PlaceholdersGrow(s, m + 1, i);
      } else if i < m {
        PlaceholdersGrow(s, i + 1, m);
      }
    }
  }

  lemma {:induction false} Numbered(s: string, n: nat, k: nat) returns (i: nat)
    requires n <= |s| && 1 <= k <= Placeholders(s, n)
    ensures i < n && Placeholder(s, i) && Placeholders(s, i) + 1 == k
    decreases n
  {
    if Placeholder(s, n - 1) && Placeholders(s, n - 1) + 1 == k {
      i := n - 1;
    } else {
      i := Numbered(s, n - 1, k);
    }
  }

  // ---- literals, as the grammar of section 4.1.2.1 of the PostgreSQL manual delimits them ----

  /** Where a string constant whose opening quote is before `i` ends: after the first quote that is not doubled. */
  function LiteralEnd(s: string, i: nat): (e: nat)
    requires i <= |s|
    ensures i <= e <= |s|
    decreases |s| - i
  {
    if i == |s| then i
    else if s[i] != '\'' then LiteralEnd(s, i + 1)
    else if i + 1 < |s| && s[i + 1] == '\'' then LiteralEnd(s, i + 2)
    else i + 1
  }

  lemma NextParity(s: string, i: nat)
    requires i < |s|
    ensures Literal(s, i + 1) == (Literal(s, i) != (s[i] == '\''))
  {
  }

  /** Quote parity over one string constant: no byte of it is a placeholder, and it ends outside. */
  lemma {:induction false} LiteralIsUntouched(s: string, i: nat)
    requires i <= |s| && Literal(s, i)
    ensures forall k :: i <= k < LiteralEnd(s, i) ==> !Placeholder(s, k) && Piece(s, k) == [s[k]]
    ensures LiteralEnd(s, i) < |s| ==> !Literal(s, LiteralEnd(s, i))
    decreases |s| - i
  {
    hide Literal;
    if i < |s| {
      NextParity(s, i);
      if s[i] != '\'' {
        LiteralIsUntouched(s, i + 1);
      } else if i + 1 < |s| && s[i + 1] == '\'' {
        NextParity(s, i + 1);
        LiteralIsUntouched(s, i + 2);
      }
    }
  }
}
