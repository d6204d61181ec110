/** File IDs are "file_" followed by the 32 lower-case hexadecimal digits of 16 random
    bytes.  The other modules use the number behind the digits; this module shows that
    nothing is lost: distinct numbers have distinct names, comparing names as the store
    does is comparing numbers, and the names are exactly the managed lower-case ones. */
module FileNames {
  import opened Division

  const PREFIX: string := "file_"
  const ID_LENGTH: nat := 32

  function Pow16(n: nat): (p: nat)
    ensures p > 0
  {
    if n == 0 then 1 else 16 * Pow16(n - 1)
  }

  function Digit(d: nat): (c: char)
    requires d < 16
    ensures '0' <= c <= '9' || 'a' <= c <= 'f'
  {
    if d < 10 then '0' + d as char else 'a' + (d - 10) as char
  }

  /** hex.EncodeToString of the big-endian bytes of `n`. */
  function Hex(n: nat, length: nat): (s: string)
    ensures |s| == length
    decreases length
  {
    if length == 0 then "" else [Digit(n / Pow16(length - 1) % 16)] + Hex(n % Pow16(length - 1), length - 1)
  }

  /** newFileID, given the random number it drew. */
  function FileName(n: nat): string {
    PREFIX + Hex(n, ID_LENGTH)
  }

  predicate IsHexDigit(c: char) {
    '0' <= c <= '9' || 'a' <= c <= 'f' || 'A' <= c <= 'F'
  }

  predicate IsLowerHex(s: string) {
    forall i | 0 <= i < |s| :: '0' <= s[i] <= '9' || 'a' <= s[i] <= 'f'
  }

  /** managedFileID: the directory names that ReconcileStorage may remove. */
  predicate ManagedFileID(name: string) {
    && |name| == |PREFIX| + ID_LENGTH
    && name[..|PREFIX|] == PREFIX
    && forall i | |PREFIX| <= i < |name| :: IsHexDigit(name[i])
  }

  /** The order in which SQLite compares text: character by character. */
  predicate Before(s: string, t: string) {
    if t == "" then false
    else if s == "" then true
    else s[0] < t[0] || (s[0] == t[0] && Before(s[1..], t[1..]))
  }

  // ---------- digits ----------

  function Value(c: char): (d: nat)
    requires '0' <= c <= '9' || 'a' <= c <= 'f'
    ensures d < 16 && Digit(d) == c
  {
    if c <= '9' then (c - '0') as nat else 10 + (c - 'a') as nat
  }

  lemma {:induction false} DigitsAscend(d: nat, e: nat)
    requires d < 16 && e < 16
    ensures Digit(d) < Digit(e) <==> d < e
    ensures Digit(d) == Digit(e) <==> d == e
  {}

  /** The number with leading digit `d` before `length` digits worth `rest`. */
  function Number(d: nat, rest: nat, length: nat): nat {
    d * Pow16(length) + rest
  }

  /** The leading digit decides, and only if it is the same the rest does. */
  lemma {:induction false} LeadingDigitDecides(a: nat, x: nat, b: nat, y: nat, length: nat)
    requires x < Pow16(length) && y < Pow16(length)
    ensures Number(a, x, length) < Number(b, y, length) <==> a < b || (a == b && x < y)
    ensures Number(a, x, length) == Number(b, y, length) <==> a == b && x == y
  {
    var p := Pow16(length);
    if a < b {
      Steps(a, b, p);
    } else if b < a {
      Steps(b, a, p);
    }
  }

  lemma {:induction false} DigitFirst(d: nat, rest: nat, length: nat)
    requires d < 16 && rest < Pow16(length)
    ensures Number(d, rest, length) < Pow16(length + 1)
    ensures Hex(Number(d, rest, length), length + 1) == [Digit(d)] + Hex(rest, length)
  {
    var n := Number(d, rest, length);
    NumberSplits(d, rest, length);
    HexStep(n, length);
    hide Hex, Pow16, Number;
  }

  lemma {:induction false} NumberSplits(d: nat, rest: nat, length: nat)
    requires d < 16 && rest < Pow16(length)
    ensures var n := Number(d, rest, length); var p := Pow16(length);
      n / p == d && n / p % 16 == d && n % p == rest && n < Pow16(length + 1)
  {
    var p := Pow16(length);
    Steps(d, 16, p);
    Quotient(d, rest, p);
  }

  lemma {:induction false} HexStep(n: nat, length: nat)
    ensures Hex(n, length + 1) == [Digit(n / Pow16(length) % 16)] + Hex(n % Pow16(length), length)
  {}

  lemma {:induction false} Split(n: nat, p: nat) returns (d: nat, rest: nat)
    requires 0 < p && n < 16 * p
    ensures d < 16 && rest < p && n == d * p + rest
  {
    d, rest := n / p, n % p;
  }

  lemma {:induction false} HexUnfolds(n: nat, length: nat) returns (d: nat, rest: nat)
    requires n < Pow16(length + 1)
    ensures d < 16 && rest < Pow16(length) && n == Number(d, rest, length)
    ensures Hex(n, length + 1) == [Digit(d)] + Hex(rest, length)
  {
    hide Hex, Digit;
    d, rest := Split(n, Pow16(length));
    DigitFirst(d, rest, length);
  }

  // ---------- order ----------

  lemma {:induction false} Compare(c: char, s: string, d: char, t: string)
    ensures Before([c] + s, [d] + t) <==> c < d || (c == d && Before(s, t))
    ensures [c] + s == [d] + t <==> c == d && s == t
  {
    assert ([c] + s)[1..] == s && ([d] + t)[1..] == t;
    assert ([c] + s)[0] == c && ([d] + t)[0] == d;
  }

  /** The numeral with leading digit `a` and rest `s` against the one with `b` and `t`. */
  lemma {:induction false} HeadsDecide(a: nat, x: nat, s: string, b: nat, y: nat, t: string, length: nat)
    requires a < 16 && x < Pow16(length) && b < 16 && y < Pow16(length)
    requires (Before(s, t) <==> x < y) && (s == t <==> x == y)
    ensures Before([Digit(a)] + s, [Digit(b)] + t) <==> Number(a, x, length) < Number(b, y, length)
    ensures [Digit(a)] + s == [Digit(b)] + t <==> Number(a, x, length) == Number(b, y, length)
  {
    hide Pow16, Number, Before, Digit;
    LeadingDigitDecides(a, x, b, y, length);
    DigitsAscend(a, b);
    Compare(Digit(a), s, Digit(b), t);
  }

  lemma {:induction false} HexKeepsOrder(m: nat, n: nat, length: nat)
    requires m < Pow16(length) && n < Pow16(length)
    ensures Before(Hex(m, length), Hex(n, length)) <==> m < n
    ensures Hex(m, length) == Hex(n, length) <==> m == n
    decreases length, 1
  {
    if length > 0 {
      LongerKeepsOrder(m, n, length - 1);
    }
  }

  lemma {:induction false} LongerKeepsOrder(m: nat, n: nat, length: nat)
    requires m < Pow16(length + 1) && n < Pow16(length + 1)
    ensures Before(Hex(m, length + 1), Hex(n, length + 1)) <==> m < n
    ensures Hex(m, length + 1) == Hex(n, length + 1) <==> m == n
    decreases length, 2
  {
    hide *;
    var a, x := HexUnfolds(m, length);
    var b, y := HexUnfolds(n, length);
    HexKeepsOrder(x, y, length);
    HeadsDecide(a, x, Hex(x, length), b, y, Hex(y, length), length);
  }

  lemma {:induction false} PrefixKeepsOrder(prefix: string, s: string, t: string)
    ensures Before(prefix + s, prefix + t) <==> Before(s, t)
  {
    if prefix == "" {
      assert prefix + s == s && prefix + t == t;
    } else {
      PrefixKeepsOrder(prefix[1..], s, t);
      assert (prefix + s)[1..] == prefix[1..] + s && (prefix + t)[1..] == prefix[1..] + t;
    }
  }

  /** Comparing file names is comparing the numbers; equal names are equal numbers. */
  lemma {:induction false} NamesKeepOrder(m: nat, n: nat)
    requires m < Pow16(ID_LENGTH) && n < Pow16(ID_LENGTH)
    ensures Before(FileName(m), FileName(n)) <==> m < n
    ensures FileName(m) == FileName(n) <==> m == n
  {
    hide Pow16, Hex, Before;
    HexKeepsOrder(m, n, ID_LENGTH);
    PrefixKeepsOrder(PREFIX, Hex(m, ID_LENGTH), Hex(n, ID_LENGTH));
    assert FileName(m)[|PREFIX|..] == Hex(m, ID_LENGTH) && FileName(n)[|PREFIX|..] == Hex(n, ID_LENGTH);
  }

  // ---------- recognition ----------

  lemma {:induction false} HexIsLowerHex(n: nat, length: nat)
    requires n < Pow16(length)
    ensures IsLowerHex(Hex(n, length))
    decreases length
  {
    if length > 0 {
      hide Pow16, Hex, Number;
      var d, rest := HexUnfolds(n, length - 1);
      HexIsLowerHex(rest, length - 1);
    }
  }

  lemma {:induction false} LowerHexIsHex(s: string) returns (n: nat)
    requires IsLowerHex(s)
    ensures n < Pow16(|s|) && Hex(n, |s|) == s
  {
    if s == "" {
      n := 0;
    } else {
      hide Pow16, Hex, Number;
      var d := Value(s[0]);
      var rest := LowerHexIsHex(s[1..]);
      n := Number(d, rest, |s| - 1);
      DigitFirst(d, rest, |s| - 1);
      assert s == [s[0]] + s[1..];
    }
  }

  /** The managed names in lower case are exactly the names of file IDs. */
  lemma {:induction false} ManagedMeansNamed(name: string)
    ensures ManagedFileID(name) && IsLowerHex(name[|PREFIX|..])
        <==> exists n: nat :: n < Pow16(ID_LENGTH) && FileName(n) == name
  {
    hide Pow16, Hex;
    if ManagedFileID(name) && IsLowerHex(name[|PREFIX|..]) {
      var n := LowerHexIsHex(name[|PREFIX|..]);
      assert name == name[..|PREFIX|] + name[|PREFIX|..];
      assert FileName(n) == name;
    }
    if n: nat :| n < Pow16(ID_LENGTH) && FileName(n) == name {
      HexIsLowerHex(n, ID_LENGTH);
      assert name[..|PREFIX|] == PREFIX && name[|PREFIX|..] == Hex(n, ID_LENGTH);
      forall i | |PREFIX| <= i < |name| ensures IsHexDigit(name[i]) {
        assert name[i] == Hex(n, ID_LENGTH)[i - |PREFIX|];
      }
    }
  }
}
