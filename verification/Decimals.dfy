/** Decimal numerals, plain and padded with zeros as by `%04d`. */
module Decimals {

  function Digit(d: nat): (c: char)
    requires d < 10
    ensures '0' <= c <= '9'
  {
    '0' + d as char
  }

  function Decimal(n: nat): (s: string)
    ensures s != ""
  {
    if n < 10 then [Digit(n)] else Decimal(n / 10) + [Digit(n % 10)]
  }

  function Padded(n: nat, width: nat): string {
    Zeros(width - |Decimal(n)|) + Decimal(n)
  }

  function Zeros(n: int): string {
    if n <= 0 then "" else Zeros(n - 1) + "0"
  }

  /** The number a string of digits stands for. */
  function ValueOf(s: string): nat {
    if s == "" then 0 else ValueOf(s[..|s| - 1]) * 10 + DigitValue(s[|s| - 1])
  }

  function DigitValue(c: char): nat {
    if '0' <= c <= '9' then (c - '0') as nat else 0
  }

  lemma {:induction false} ValueOfOneMore(s: string, c: char)
    ensures ValueOf(s + [c]) == ValueOf(s) * 10 + DigitValue(c)
  {
    assert (s + [c])[..|s|] == s;
  }

  lemma {:induction false} ValueOfDecimal(n: nat)
    ensures ValueOf(Decimal(n)) == n
  {
    if n < 10 {
      assert Decimal(n) == "" + [Digit(n)];
      ValueOfOneMore("", Digit(n));
    } else {
      ValueOfDecimal(n / 10);
      ValueOfOneMore(Decimal(n / 10), Digit(n % 10));
    }
  }

  lemma {:induction false} ValueOfZeros(n: int, s: string)
    ensures ValueOf(Zeros(n) + s) == ValueOf(s)
    decreases |s|, n
  {
    if s == "" {
      assert Zeros(n) + s == Zeros(n);
      if n > 0 {
        ValueOfOneMore(Zeros(n - 1), '0');
        ValueOfZeros(n - 1, "");
        assert Zeros(n - 1) + "" == Zeros(n - 1);
      }
    } else {
      var rest, last := s[..|s| - 1], s[|s| - 1];
      ValueOfZeros(n, rest);
      assert Zeros(n) + s == (Zeros(n) + rest) + [last];
      ValueOfOneMore(Zeros(n) + rest, last);
    }
  }

  /** A padded numeral still tells its number. */
  lemma {:induction false} ValueOfPadded(n: nat, width: nat)
    ensures ValueOf(Padded(n, width)) == n
  {
    ValueOfZeros(width - |Decimal(n)|, Decimal(n));
    ValueOfDecimal(n);
  }
}
