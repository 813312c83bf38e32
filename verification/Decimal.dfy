/** Decimal text of unsigned 64-bit numbers, as page tokens carry it. */
module Decimal {
  import opened Base

  const MAX_UINT64: nat := 0xFFFF_FFFF_FFFF_FFFF

  predicate IsDigit(c: char) {
    '0' <= c <= '9'
  }

  function DigitOf(c: char): nat
    requires IsDigit(c)
  {
    c as int - '0' as int
  }

  function CharOf(d: nat): char
    requires d < 10
  {
    (d + '0' as int) as char
  }

  predicate AllDigits(s: string) {
    forall i | 0 <= i < |s| :: IsDigit(s[i])
  }

  function Value(s: string): nat
    requires AllDigits(s)
    decreases |s|
  {
    if s == "" then 0 else Value(s[..|s| - 1]) * 10 + DigitOf(s[|s| - 1])
  }

  /** strconv.FormatUint(n, 10). */
  function Format(n: nat): (s: string)
    ensures |s| > 0 && AllDigits(s)
    decreases n
  {
    if n < 10 then [CharOf(n)] else Format(n / 10) + [CharOf(n % 10)]
  }

  /** strconv.ParseUint(s, 10, 64). */
  function Parse(s: string): Option<nat> {
    if s == "" || !AllDigits(s) || Value(s) > MAX_UINT64 then None else Some(Value(s))
  }

  lemma {:induction false} FormatValue(n: nat)
    ensures Value(Format(n)) == n
    decreases n
  {
    if n >= 10 {
      FormatValue(n / 10);
      assert Format(n)[..|Format(n)| - 1] == Format(n / 10);
    }
  }

  lemma ParseFormat(n: nat)
    requires n <= MAX_UINT64
    ensures Parse(Format(n)) == Some(n)
  {
    FormatValue(n);
  }

  lemma {:induction false} LeadingDigit(s: string)
    requires AllDigits(s) && |s| > 0 && s[0] != '0'
    ensures Value(s) > 0
    decreases |s|
  {
    if |s| > 1 { LeadingDigit(s[..|s| - 1]); }
  }

  lemma {:induction false} FormatLeads(n: nat)
    requires n > 0
    ensures Format(n)[0] != '0'
    decreases n
  {
    if n >= 10 { FormatLeads(n / 10); }
  }

  lemma {:induction false} ValueFormat(s: string)
    requires AllDigits(s) && |s| > 0 && (s[0] != '0' || |s| == 1)
    ensures Format(Value(s)) == s
    decreases |s|
  {
    if |s| > 1 {
      var front, d := s[..|s| - 1], DigitOf(s[|s| - 1]);
      LeadingDigit(front);
      ValueFormat(front);
      var v := Value(front);
      assert Value(s) == v * 10 + d && (v * 10 + d) / 10 == v && (v * 10 + d) % 10 == d;
      assert CharOf(d) == s[|s| - 1];
    }
  }

  /** Formatting undoes parsing exactly on the texts without a spare leading zero. */
  lemma FormatParse(s: string)
    requires Parse(s).Some?
    ensures Format(Parse(s).value) == s <==> |s| == 1 || s[0] != '0'
  {
    if |s| == 1 || s[0] != '0' {
      ValueFormat(s);
    } else {
      var n := Parse(s).value;
      if n > 0 { FormatLeads(n); }
    }
  }

  lemma TrimKeepsDigits(s: string)
    requires AllDigits(s)
    ensures Trim(s) == s
  {
  }

  /** Nothing but digits is read, and nothing past 64 bits. */
  lemma ParseRefuses(s: string, n: nat)
    ensures Parse(s).Some? ==> |s| > 0 && forall i | 0 <= i < |s| :: '0' <= s[i] <= '9'
    ensures n > MAX_UINT64 ==> Parse(Format(n)) == None
  {
    FormatValue(n);
  }
}
