/** Decimal text of natural numbers: printing, reading, and the characters it uses. */
module Decimal {

  predicate IsDigit(c: char) {
    '0' <= c <= '9'
  }

  predicate AllDigits(s: string) {
    forall i :: 0 <= i < |s| ==> IsDigit(s[i])
  }

  function DigitChar(d: nat): (c: char)
    requires d < 10
    ensures IsDigit(c)
  {
    '0' + d as char
  }

  function DigitValue(c: char): (d: nat)
    requires IsDigit(c)
    ensures d < 10
  {
    (c - '0') as nat
  }

  /** The shortest decimal text. */
  function Print(n: nat): (s: string)
    ensures s != []
  {
    if n < 10 then [DigitChar(n)] else Print(n / 10) + [DigitChar(n % 10)]
  }

  /** At least two digits, padded with a zero. */
  function PrintPadded(n: nat): string {
    if n < 10 then "0" + Print(n) else Print(n)
  }

  function Read(s: string): nat
    requires AllDigits(s)
  {
    if s == [] then 0 else 10 * Read(s[..|s| - 1]) + DigitValue(s[|s| - 1])
  }

  lemma {:induction false} PrintReads(n: nat)
    ensures AllDigits(Print(n)) && Read(Print(n)) == n
    ensures n > 0 ==> Print(n)[0] != '0'
  {
    if n < 10 {
      assert Print(n)[..0] == [];
    } else {
      PrintReads(n / 10);
      assert Print(n)[..|Print(n)| - 1] == Print(n / 10);
    }
  }

  lemma {:induction false} LeadingZeroReads(s: string)
    requires AllDigits(s)
    ensures AllDigits("0" + s) && Read("0" + s) == Read(s)
  {
    if s != [] {
      LeadingZeroReads(s[..|s| - 1]);
      assert ("0" + s)[..|s|] == "0" + s[..|s| - 1];
    } else {
      assert "0" + s == "0" && "0"[..0] == [];
    }
  }

  lemma PaddedReads(n: nat)
    ensures AllDigits(PrintPadded(n)) && Read(PrintPadded(n)) == n && |PrintPadded(n)| >= 2
    ensures |PrintPadded(n)| == 2 <==> n <= 99
  {
    PrintReads(n);
    LeadingZeroReads(Print(n));
    PrintLength(n);
  }

  lemma PrintLength(n: nat)
    ensures |Print(n)| == 1 <==> n < 10
    ensures |Print(n)| == 2 <==> 10 <= n <= 99
  {
  }

  /** Printing is injective: the text determines the number. */
  lemma PrintInjective(m: nat, n: nat)
    requires Print(m) == Print(n)
    ensures m == n
  {
    PrintReads(m);
    PrintReads(n);
  }

  lemma PaddedInjective(m: nat, n: nat)
    requires PrintPadded(m) == PrintPadded(n)
    ensures m == n
  {
    PaddedReads(m);
    PaddedReads(n);
  }

  /** Digits without a leading zero are the text their value prints. */
  lemma {:induction false} ReadPrints(s: string)
    requires s != [] && AllDigits(s) && s[0] != '0'
    ensures Read(s) > 0 && Print(Read(s)) == s
  {
    var n := |s| - 1;
    if n > 0 {
      ReadPrints(s[..n]);
      assert Read(s) / 10 == Read(s[..n]) && Read(s) % 10 == DigitValue(s[n]);
      assert s == s[..n] + [s[n]];
    } else {
      assert s[..0] == [];
      assert s == [s[0]];
    }
  }
}
