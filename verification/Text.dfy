/** The string operations the operator relies on: decimal formatting, prefixes, cutting at a separator. */
module Text {

  function Digit(d: nat): char
    requires d < 10
  {
    ('0' as int + d) as char
  }

  function DecimalNat(n: nat): (s: string)
    ensures s != "" && forall c | c in s :: '0' <= c <= '9'
  {
    if n < 10 then [Digit(n)] else DecimalNat(n / 10) + [Digit(n % 10)]
  }

  /** The `%d` verb. */
  function Decimal(n: int): string {
    if n < 0 then "-" + DecimalNat(-n) else DecimalNat(n)
  }

  /** The number a string of digits stands for. */
  function Denotes(s: string): int {
    if s == "" then 0 else 10 * Denotes(s[..|s| - 1]) + (s[|s| - 1] as int - '0' as int)
  }

  lemma {:induction false} DecimalNatDenotes(n: nat)
    ensures Denotes(DecimalNat(n)) == n
    ensures DecimalNat(n)[0] == '0' ==> n == 0
  {
    var s := DecimalNat(n);
    if n >= 10 {
      DecimalNatDenotes(n / 10);
      assert s[..|s| - 1] == DecimalNat(n / 10);
    } else {
      assert s[..0] == "";
    }
  }

  /** Decimal notation denotes its number: a sign when it is negative, then digits without leading zeros. */
  lemma DecimalDenotes(n: int)
    ensures n >= 0 ==> Denotes(Decimal(n)) == n && (Decimal(n)[0] == '0' ==> n == 0)
                       && forall c | c in Decimal(n) :: '0' <= c <= '9'
    ensures n < 0 ==> Decimal(n) == "-" + Decimal(-n)
  {
    DecimalNatDenotes(if n < 0 then -n else n);
  }

  lemma {:induction false} DecimalNatInjective(a: nat, b: nat)
    requires DecimalNat(a) == DecimalNat(b)
    ensures a == b
  {
    var s, t := DecimalNat(a), DecimalNat(b);
    assert s[|s| - 1] == Digit(a % 10) && t[|t| - 1] == Digit(b % 10);
    assert (a < 10 <==> |s| == 1) && (b < 10 <==> |t| == 1);
    if a >= 10 {
      assert s[..|s| - 1] == DecimalNat(a / 10) && t[..|t| - 1] == DecimalNat(b / 10);
      DecimalNatInjective(a / 10, b / 10);
    }
  }

  lemma DecimalInjective(a: int, b: int)
    requires Decimal(a) == Decimal(b)
    ensures a == b
  {
    assert a < 0 <==> Decimal(a)[0] == '-' by { assert Decimal(a)[0] in Decimal(a); }
    assert b < 0 <==> Decimal(b)[0] == '-' by { assert Decimal(b)[0] in Decimal(b); }
    if a < 0 {
      assert DecimalNat(-a) == Decimal(a)[1..] == Decimal(b)[1..] == DecimalNat(-b);
      DecimalNatInjective(-a, -b);
    } else {
      DecimalNatInjective(a, b);
    }
  }

  /** The part of a string before its first separator. */
  function Before(s: string, sep: char): string {
    if s == "" || s[0] == sep then "" else [s[0]] + Before(s[1..], sep)
  }

  lemma {:induction false} BeforeCut(a: string, b: string, sep: char)
    requires sep !in a
    ensures Before(a + [sep] + b, sep) == a
  {
    if a == "" {
      assert (a + [sep] + b)[0] == sep;
    } else {
      BeforeCut(a[1..], b, sep);
      assert (a + [sep] + b)[1..] == a[1..] + [sep] + b;
    }
  }

  /** The part of a string after its last separator. */
  function After(s: string, sep: char): string {
    if s == "" || s[|s| - 1] == sep then "" else After(s[..|s| - 1], sep) + [s[|s| - 1]]
  }

  lemma {:induction false} AfterCut(a: string, b: string, sep: char)
    requires sep !in b
    ensures After(a + [sep] + b, sep) == b
  {
    var s := a + [sep] + b;
    if b == "" {
      assert s[|s| - 1] == sep;
    } else {
      AfterCut(a, b[..|b| - 1], sep);
      assert s[..|s| - 1] == a + [sep] + b[..|b| - 1];
      assert b == b[..|b| - 1] + [b[|b| - 1]];
    }
  }

  /** A string is cut in only one way at its first separator. */
  lemma CutFirst(a: string, b: string, c: string, d: string, sep: char)
    requires sep !in a && sep !in c
    requires a + [sep] + b == c + [sep] + d
    ensures a == c && b == d
  {
    BeforeCut(a, b, sep);
    BeforeCut(c, d, sep);
    assert b == (a + [sep] + b)[|a| + 1..] == (c + [sep] + d)[|c| + 1..] == d;
  }

  /** A string is cut in only one way at its last separator. */
  lemma CutLast(a: string, b: string, c: string, d: string, sep: char)
    requires sep !in b && sep !in d
    requires a + [sep] + b == c + [sep] + d
    ensures a == c && b == d
  {
    AfterCut(a, b, sep);
    AfterCut(c, d, sep);
    assert a == (a + [sep] + b)[..|a|] == (c + [sep] + d)[..|c|] == c;
  }

  /** `strings.Split` with a one-character separator. */
  function Split(s: string, sep: char): (parts: seq<string>)
    ensures |parts| >= 1
  {
    if s == "" then [""]
    else
      var rest := Split(s[1..], sep);
      if s[0] == sep then [""] + rest else [[s[0]] + rest[0]] + rest[1..]
  }

  function Join(parts: seq<string>, sep: char): string
    requires |parts| >= 1
  {
    if |parts| == 1 then parts[0] else parts[0] + [sep] + Join(parts[1..], sep)
  }

  lemma {:induction false} SplitOne(s: string, sep: char)
    requires sep !in s
    ensures Split(s, sep) == [s]
  {
    if s != "" {
      SplitOne(s[1..], sep);
      assert [s[0]] + s[1..] == s;
    }
  }

  lemma {:induction false} SplitHead(s: string, t: string, sep: char)
    requires sep !in s
    ensures Split(s + [sep] + t, sep) == [s] + Split(t, sep)
  {
    var u := s + [sep] + t;
    if s == "" {
      assert u[1..] == t;
    } else {
      SplitHead(s[1..], t, sep);
      assert u[1..] == s[1..] + [sep] + t;
      assert [s[0]] + s[1..] == s;
    }
  }

  /** Splitting undoes joining, for parts that do not contain the separator. */
  lemma {:induction false} SplitUndoesJoin(parts: seq<string>, sep: char)
    requires |parts| >= 1 && forall p | p in parts :: sep !in p
    ensures Split(Join(parts, sep), sep) == parts
  {
    if |parts| == 1 {
      SplitOne(parts[0], sep);
      assert parts == [parts[0]];
    } else {
      SplitUndoesJoin(parts[1..], sep);
      SplitHead(parts[0], Join(parts[1..], sep), sep);
      assert parts == [parts[0]] + parts[1..];
    }
  }

  /** Splitting gives parts without a separator, and joining them gives the text back. */
  lemma {:induction false} JoinUndoesSplit(s: string, sep: char)
    ensures Join(Split(s, sep), sep) == s
    ensures forall p | p in Split(s, sep) :: sep !in p
  {
    if s != "" {
      JoinUndoesSplit(s[1..], sep);
      var rest := Split(s[1..], sep);
      if s[0] == sep {
        assert Split(s, sep)[1..] == rest;
      } else {
        assert Split(s, sep)[1..] == rest[1..];
        assert forall p | p in rest[1..] :: p in rest;
      }
    }
  }

  lemma {:induction false} JoinLast(parts: seq<string>, sep: char)
    requires |parts| >= 2
    ensures Join(parts, sep) == Join(parts[..|parts| - 1], sep) + [sep] + parts[|parts| - 1]
  {
    if |parts| > 2 {
      JoinLast(parts[1..], sep);
      assert parts[1..][..|parts| - 2] == parts[..|parts| - 1][1..];
    }
  }

  /** `strings.Contains`. */
  predicate Contains(s: string, sub: string) {
    exists k | 0 <= k <= |s| :: sub <= s[k..]
  }

  /** The bytes of a string in UTF-8, as Go's `len` counts them. */
  function ByteLength(s: string): nat {
    if s == "" then 0
    else
      var c := s[0] as int;
      (if c < 0x80 then 1 else if c < 0x800 then 2 else if c < 0x1_0000 then 3 else 4) + ByteLength(s[1..])
  }

  /** The lengths of parts add up, and a character takes one to four bytes. */
  lemma {:induction false} ByteLengthExact(a: string, b: string)
    ensures ByteLength(a + b) == ByteLength(a) + ByteLength(b)
    ensures |a| <= ByteLength(a) <= 4 * |a|
    ensures |a| == 1 ==>
              && (ByteLength(a) == 1 <==> a[0] as int <= 0x7F)
              && (ByteLength(a) <= 2 <==> a[0] as int <= 0x7FF)
              && (ByteLength(a) <= 3 <==> a[0] as int <= 0xFFFF)
  {
    if a == "" {
      assert a + b == b;
    } else {
      ByteLengthExact(a[1..], b);
      assert (a + b)[1..] == a[1..] + b;
    }
  }
}
