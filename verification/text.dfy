/** Text helpers the client relies on: Ruby's `Integer#to_s` (decimal
    rendering), Ruby's `String#to_i` (used on the rate-limit headers), and
    `Array#join(',')` (used for the `include` query parameter), each with the
    inverse that pins down what it computes.
 */
module Text {

  predicate IsDigit(c: char) {
    '0' <= c <= '9'
  }

  function DigitChar(d: nat): (c: char)
    requires d < 10
    ensures IsDigit(c) && DigitValue(c) == d
  {
    (('0' as int) + d) as char
  }

  function DigitValue(c: char): nat
    requires IsDigit(c)
  {
    (c as int) - ('0' as int)
  }

  /** Decimal digits of a natural number, most significant first. */
  function NatDigits(n: nat): (s: string)
    ensures |s| > 0
    ensures forall i :: 0 <= i < |s| ==> IsDigit(s[i])
    decreases n
  {
    if n < 10 then [DigitChar(n)] else NatDigits(n / 10) + [DigitChar(n % 10)]
  }

  /** `Integer#to_s`: an optional minus sign followed by the digits. */
  function Decimal(n: int): (s: string)
    ensures |s| > 0
    ensures n >= 0 ==> IsDigit(s[0])
    ensures n < 0 ==> s[0] == '-'
  {
    if n < 0 then "-" + NatDigits(-n) else NatDigits(n)
  }

  /** The characters Ruby's `String#to_i` skips before the number. */
  predicate IsSpace(c: char) {
    c == ' ' || c == '\t' || c == '\n' || c == '\r' || c as int == 11 || c as int == 12
  }

  function SkipSpace(s: string): (t: string)
    ensures |t| <= |s| && t == s[|s| - |t|..]
    ensures |t| > 0 ==> !IsSpace(t[0])
    ensures forall i :: 0 <= i < |s| - |t| ==> IsSpace(s[i])
    decreases |s|
  {
    if |s| > 0 && IsSpace(s[0]) then SkipSpace(s[1..]) else s
  }

  /** Reads the digits at the head of `s` onto `acc`. An underscore is
      skipped when a digit precedes it and another digit follows it
      ("1_000" reads as 1000, "1__0" as 1); anything else ends the number. */
  function Scan(s: string, acc: nat, started: bool): nat
    decreases |s|
  {
    if |s| == 0 then acc
    else if IsDigit(s[0]) then Scan(s[1..], 10 * acc + DigitValue(s[0]), true)
    else if s[0] == '_' && started && |s| >= 2 && IsDigit(s[1]) then Scan(s[1..], acc, started)
    else acc
  }

  /** `String#to_i`: leading white space, an optional sign, then digits;
      a string without a leading number reads as 0. */
  function ToI(s: string): int {
    var t := SkipSpace(s);
    if |t| > 0 && t[0] == '-' then 0 - (Scan(t[1..], 0, false) as int)
    else if |t| > 0 && t[0] == '+' then Scan(t[1..], 0, false)
    else Scan(t, 0, false)
  }

  lemma {:induction false} ScanAppendDigit(a: string, d: char, acc: nat, started: bool)
    requires forall i :: 0 <= i < |a| ==> IsDigit(a[i])
    requires IsDigit(d)
    ensures Scan(a + [d], acc, started) == 10 * Scan(a, acc, started) + DigitValue(d)
    decreases |a|
  {
    if |a| == 0 {
      assert a + [d] == [d];
      assert ([d])[1..] == [];
    } else {
      assert (a + [d])[1..] == a[1..] + [d];
      ScanAppendDigit(a[1..], d, 10 * acc + DigitValue(a[0]), true);
    }
  }

  lemma {:induction false} ScanNatDigits(n: nat)
    ensures Scan(NatDigits(n), 0, false) == n
    decreases n
  {
    if n < 10 {
      assert NatDigits(n)[1..] == [];
    } else {
      ScanNatDigits(n / 10);
      ScanAppendDigit(NatDigits(n / 10), DigitChar(n % 10), 0, false);
    }
  }

  /** `to_i` reads back what `to_s` wrote, for every integer. */
  lemma {:induction false} ToIDecimal(n: int)
    ensures ToI(Decimal(n)) == n
  {
    var s := Decimal(n);
    assert SkipSpace(s) == s;
    if n < 0 {
      assert s[1..] == NatDigits(-n);
      ScanNatDigits(-n);
    } else {
      ScanNatDigits(n);
    }
  }

  /** `Array#join(sep)` over strings. */
  function Join(xs: seq<string>, sep: char): (s: string)
    ensures |xs| == 0 ==> s == ""
    decreases |xs|
  {
    if |xs| == 0 then ""
    else if |xs| == 1 then xs[0]
    else xs[0] + [sep] + Join(xs[1..], sep)
  }

  /** Cuts a string at every separator, keeping empty fields: the inverse of `Join`. */
  function Split(s: string, sep: char): (r: seq<string>)
    ensures |r| > 0
    decreases |s|
  {
    if |s| == 0 then [""]
    else
      var rest := Split(s[1..], sep);
      if s[0] == sep then [""] + rest else [[s[0]] + rest[0]] + rest[1..]
  }

  lemma {:induction false} SplitWithoutSeparator(a: string, sep: char)
    requires sep !in a
    ensures Split(a, sep) == [a]
    decreases |a|
  {
    if |a| > 0 {
      assert sep !in a[1..] by {
        assert forall i :: 0 <= i < |a[1..]| ==> a[1..][i] == a[i + 1];
      }
      SplitWithoutSeparator(a[1..], sep);
      assert [a[0]] + a[1..] == a;
    }
  }

  lemma {:induction false} SplitAtSeparator(a: string, b: string, sep: char)
    requires sep !in a
    ensures Split(a + [sep] + b, sep) == [a] + Split(b, sep)
    decreases |a|
  {
    if |a| == 0 {
      assert a + [sep] + b == [sep] + b;
      assert ([sep] + b)[1..] == b;
    } else {
      var s := a + [sep] + b;
      assert s[0] == a[0];
      assert s[1..] == a[1..] + [sep] + b;
      assert sep !in a[1..] by {
        assert forall i :: 0 <= i < |a[1..]| ==> a[1..][i] == a[i + 1];
      }
      SplitAtSeparator(a[1..], b, sep);
      assert [a[0]] + a[1..] == a;
    }
  }

  /** Splitting a joined list at the separator gives the list back, provided
      no element contains the separator. */
  lemma {:induction false} SplitJoin(xs: seq<string>, sep: char)
    requires |xs| > 0
    requires forall i :: 0 <= i < |xs| ==> sep !in xs[i]
    ensures Split(Join(xs, sep), sep) == xs
    decreases |xs|
  {
    if |xs| == 1 {
      SplitWithoutSeparator(xs[0], sep);
    } else {
      SplitJoin(xs[1..], sep);
      SplitAtSeparator(xs[0], Join(xs[1..], sep), sep);
      assert [xs[0]] + xs[1..] == xs;
    }
  }
}
