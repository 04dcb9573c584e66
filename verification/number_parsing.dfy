/** `parseInt(value) || 0`, the conversion the vehicle editor applies to
    the year, horse-power and kilometrage inputs.

    `parseInt` without a radix skips leading white space, reads an optional
    sign, switches to base 16 after a `0x`/`0X` prefix, and reads the
    longest run of digits of that base; no digit at all gives `NaN`. The
    `|| 0` then turns `NaN` (and `-0`) into 0. Values beyond 2^53 are read
    exactly here, where JavaScript would round them. */
module NumberParsing {
  import opened Results
  import opened Text

  predicate IsRadixDigit(c: char, radix: nat) {
    if radix == 16 then IsDigit(c) || ('a' <= c <= 'f') || ('A' <= c <= 'F')
    else IsDigit(c)
  }

  function DigitValue(c: char): nat {
    if IsDigit(c) then c as int - '0' as int
    else if 'a' <= c <= 'f' then c as int - 'a' as int + 10
    else if 'A' <= c <= 'F' then c as int - 'A' as int + 10
    else 0
  }

  /** Length of the longest prefix of `s` made of digits of `radix`. */
  function DigitRun(s: string, radix: nat): (n: nat)
    ensures n <= |s|
    ensures forall i :: 0 <= i < n ==> IsRadixDigit(s[i], radix)
    ensures n < |s| ==> !IsRadixDigit(s[n], radix)
  {
    if |s| == 0 || !IsRadixDigit(s[0], radix) then 0
    else 1 + DigitRun(s[1..], radix)
  }

  /** The number the digits denote, most significant first. */
  function ValueOf(digits: string, radix: nat): nat {
    if |digits| == 0 then 0
    else ValueOf(digits[..|digits| - 1], radix) * radix + DigitValue(digits[|digits| - 1])
  }

  /** `parseInt(s)`, with `None` for `NaN`. */
  function ParseInt(s: string): Option<int> {
    var t := TrimStart(s);
    var negative := |t| > 0 && t[0] == '-';
    var u := if |t| > 0 && (t[0] == '-' || t[0] == '+') then t[1..] else t;
    var hex := |u| >= 2 && u[0] == '0' && (u[1] == 'x' || u[1] == 'X');
    var radix := if hex then 16 else 10;
    var w := if hex then u[2..] else u;
    var n := DigitRun(w, radix);
    if n == 0 then None
    else
      var v: int := ValueOf(w[..n], radix);
      Some(if negative then -v else v)
  }

  /** `parseInt(s) || 0`. */
  function ParseIntOrZero(s: string): int {
    match ParseInt(s)
    case None => 0
    case Some(v) => v
  }

  /** Input whose first character that is not white space is neither a
      digit nor a sign reads as 0. */
  lemma NonNumericIsZero(s: string)
    requires var t := TrimStart(s); |t| > 0 && !IsDigit(t[0]) && t[0] != '-' && t[0] != '+'
    ensures ParseIntOrZero(s) == 0
  {
  }

  /* ---------------------------------------------------------------------- */
  /* Decimal rendering, the inverse of the parse                             */
  /* ---------------------------------------------------------------------- */

  function DigitChar(d: nat): char
    requires d < 10
  {
    ('0' as int + d) as char
  }

  /** The decimal digits of `n`, without leading zeros. */
  function Digits(n: nat): (r: string)
    ensures |r| > 0
    ensures forall i :: 0 <= i < |r| ==> IsDigit(r[i])
  {
    if n < 10 then [DigitChar(n)] else Digits(n / 10) + [DigitChar(n % 10)]
  }

  /** `String(n)` for an integer. */
  function Decimal(n: int): string {
    if n < 0 then "-" + Digits(-n) else Digits(n)
  }

  lemma {:induction false} DigitsValue(n: nat)
    ensures ValueOf(Digits(n), 10) == n
  {
    if n >= 10 {
      var d := Digits(n);
      DigitsValue(n / 10);
      assert d[..|d| - 1] == Digits(n / 10);
    }
  }

  lemma DigitRunOfDigits(s: string)
    requires forall i :: 0 <= i < |s| ==> IsDigit(s[i])
    ensures DigitRun(s, 10) == |s|
  {
  }

  /** Reading back the decimal rendering of an integer gives the integer:
      a number typed into the editor arrives unchanged. */
  lemma ParseDecimal(n: int)
    ensures ParseIntOrZero(Decimal(n)) == n
  {
    var m := if n < 0 then -n else n;
    var ds := Digits(m);
    var s := Decimal(n);
    assert !IsSpace(s[0]);
    assert TrimStart(s) == s;
    var u := if n < 0 then s[1..] else s;
    assert u == ds;
    assert |u| >= 2 ==> IsDigit(u[1]);
    DigitRunOfDigits(ds);
    assert ds[..|ds|] == ds;
    DigitsValue(m);
  }
}
