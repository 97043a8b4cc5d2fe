/** Document numbers: `Counter` and `matnr_out` of data-generator/generate.py, and decimal text. */
module Numbering {

  function Digit(d: nat): char
    requires d < 10
  {
    ('0' as int + d) as char
  }

  function DigitValue(c: char): nat {
    if '0' <= c <= '9' then c as int - '0' as int else 0
  }

  function Decimal(n: nat): string {
    if n < 10 then [Digit(n)] else Decimal(n / 10) + [Digit(n % 10)]
  }

  function ParseNat(s: string): nat {
    if s == "" then 0 else 10 * ParseNat(s[..|s| - 1]) + DigitValue(s[|s| - 1])
  }

  function Zeros(k: nat): string {
    seq(k, _ => '0')
  }

  /** Python's `rjust(width, "0")`. */
  function RightJustified(s: string, width: nat): string {
    if |s| >= width then s else Zeros(width - |s|) + s
  }

  lemma {:induction false} ParseDecimal(n: nat)
    ensures Decimal(n) != "" && ParseNat(Decimal(n)) == n
  {
    if n < 10 {
      assert Decimal(n)[..0] == "";
    } else {
      ParseDecimal(n / 10);
      assert Decimal(n)[..|Decimal(n)| - 1] == Decimal(n / 10);
    }
  }

  lemma {:induction false} ParseIgnoresZeros(k: nat, s: string)
    ensures ParseNat(Zeros(k) + s) == ParseNat(s)
  {
    if s == "" {
      assert Zeros(k) + s == Zeros(k);
      if k > 0 {
        assert Zeros(k)[..k - 1] == Zeros(k - 1) + "";
        ParseIgnoresZeros(k - 1, "");
      }
    } else {
      ParseIgnoresZeros(k, s[..|s| - 1]);
      assert (Zeros(k) + s)[..k + |s| - 1] == Zeros(k) + s[..|s| - 1];
    }
  }

  /** Padding and writing out in decimal lose nothing: the number can be read back, so two numbers
      never share a text, however long they grow. */
  lemma JustifiedReadsBack(n: nat, width: nat, outer: nat)
    ensures ParseNat(RightJustified(Decimal(n), width)) == n
    ensures ParseNat(RightJustified(RightJustified(Decimal(n), width), outer)) == n
  {
    ParseDecimal(n);
    var inner := RightJustified(Decimal(n), width);
    if width > |Decimal(n)| {
      ParseIgnoresZeros(width - |Decimal(n)|, Decimal(n));
    }
    if outer > |inner| {
      ParseIgnoresZeros(outer - |inner|, inner);
    }
  }
}
