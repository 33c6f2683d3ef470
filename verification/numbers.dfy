/** Text-to-number conversion as the pricing code uses it.

    The browser's `parseInt(s, 10)` and `parseFloat(s)` read the longest
    numeric prefix of a string and give NaN when there is none.  Here NaN
    is `None`, and a number is an exact `int` or `real`.  The grammar
    accepted is an optional sign, decimal digits and (for `ParseFloat`) an
    optional fraction; leading white space, exponents, `Infinity` and
    other radices are not modelled.  Both are written as left-to-right
    scanners. */
module Numbers {

  datatype Option<+T> = None | Some(value: T)

  /** `parseInt(s, 10) || 0`: NaN (and 0) become 0. */
  function IntOrZero(o: Option<int>): int {
    if o.Some? then o.value else 0
  }

  /** `parseFloat(s) || 0`. */
  function RealOrZero(o: Option<real>): real {
    if o.Some? then o.value else 0.0
  }

  predicate IsDigit(c: char) {
    '0' <= c <= '9'
  }

  function DigitValue(c: char): nat
    requires IsDigit(c)
  {
    c as int - '0' as int
  }

  /** A leading '-' makes the number negative; a leading '-' or '+' is skipped. */
  predicate Negative(s: string) {
    |s| > 0 && s[0] == '-'
  }

  function Unsigned(s: string): string {
    if |s| > 0 && (s[0] == '-' || s[0] == '+') then s[1..] else s
  }

  /** Reads the digits at the start of `s`; `acc` is the value of the digits
      read so far and `seen` says whether there were any. */
  function ScanInt(s: string, negative: bool, acc: nat, seen: bool): (r: Option<int>)
    ensures r.None? <==> !seen && !(|s| > 0 && IsDigit(s[0]))
    ensures r.Some? ==> if negative then r.value <= 0 - acc else r.value >= acc
    decreases |s|
  {
    if |s| > 0 && IsDigit(s[0]) then ScanInt(s[1..], negative, 10 * acc + DigitValue(s[0]), true)
    else if !seen then None
    else if negative then Some(0 - acc)
    else Some(acc)
  }

  /** `parseInt(s, 10)`: the integer written by the longest signed digit prefix. */
  function ParseInt(s: string): (r: Option<int>)
    ensures r.None? <==> !(|Unsigned(s)| > 0 && IsDigit(Unsigned(s)[0]))
    ensures r.Some? ==> if Negative(s) then r.value <= 0 else r.value >= 0
  {
    ScanInt(Unsigned(s), Negative(s), 0, false)
  }

  /** The run of digits at the start of `s` read as the fraction `0.digits`. */
  function FractionValue(s: string): (r: real)
    ensures 0.0 <= r < 1.0
    decreases |s|
  {
    if |s| > 0 && IsDigit(s[0]) then (DigitValue(s[0]) as real + FractionValue(s[1..])) / 10.0
    else 0.0
  }

  /** Reads the integer digits at the start of `s`, then an optional '.'
      and fraction digits. */
  function ScanFloat(s: string, negative: bool, acc: nat, seen: bool): (r: Option<real>)
    ensures r.None? <==> !seen && !(|s| > 0 && IsDigit(s[0])) && !HasFraction(s)
    ensures r.Some? ==> if negative then r.value <= 0.0 - acc as real else r.value >= acc as real
    decreases |s|
  {
    if |s| > 0 && IsDigit(s[0]) then ScanFloat(s[1..], negative, 10 * acc + DigitValue(s[0]), true)
    else
      var hasFraction := HasFraction(s);
      var magnitude := acc as real + (if hasFraction then FractionValue(s[1..]) else 0.0);
      if !seen && !hasFraction then None
      else if negative then Some(-magnitude)
      else Some(magnitude)
  }

  /** `parseFloat(s)`: the number written by the longest signed decimal prefix. */
  function ParseFloat(s: string): (r: Option<real>)
    ensures r.None? <==> !(|Unsigned(s)| > 0 && IsDigit(Unsigned(s)[0])) && !HasFraction(Unsigned(s))
    ensures r.Some? ==> if Negative(s) then r.value <= 0.0 else r.value >= 0.0
  {
    ScanFloat(Unsigned(s), Negative(s), 0, false)
  }

  /** Text that starts with a '.' and a digit. */
  predicate HasFraction(s: string) {
    |s| > 1 && s[0] == '.' && IsDigit(s[1])
  }

  predicate AllDigits(s: string) {
    forall i :: 0 <= i < |s| ==> IsDigit(s[i])
  }

  function Pow10(n: nat): (p: nat)
    ensures p > 0
  {
    if n == 0 then 1 else 10 * Pow10(n - 1)
  }

  /** The positional value of a string of decimal digits, most significant
      first. */
  function DigitsValue(ds: string): nat
    requires AllDigits(ds)
  {
    if ds == [] then 0 else DigitValue(ds[0]) * Pow10(|ds| - 1) + DigitsValue(ds[1..])
  }

  lemma ShiftDigit(acc: nat, d: nat, p: nat, v: nat)
    ensures (10 * acc + d) * p + v == acc * (10 * p) + (d * p + v)
  {
  }

  lemma ShiftFraction(d: nat, v: nat, p: nat, x: real, digits: nat, scale: nat)
    requires p > 0 && x == (d as real + v as real / p as real) / 10.0
    requires digits == d * p + v && scale == 10 * p
    ensures x == digits as real / scale as real
  {
    var dr, vr, pr := d as real, v as real, p as real;
    assert (d * p + v) as real == dr * pr + vr;
    assert (dr + vr / pr) / 10.0 == (dr * pr + vr) / (10.0 * pr);
  }

  /** Reading a run of digits shifts them into the accumulator. */
  lemma {:induction false} ScanIntDigits(ds: string, rest: string, negative: bool, acc: nat, seen: bool)
    requires AllDigits(ds) && (rest == [] || !IsDigit(rest[0]))
    ensures ScanInt(ds + rest, negative, acc, seen)
      == ScanInt(rest, negative, acc * Pow10(|ds|) + DigitsValue(ds), seen || ds != [])
    decreases |ds|
  {
    if ds == [] {
      assert ds + rest == rest;
    } else {
      var d, p := DigitValue(ds[0]), Pow10(|ds| - 1);
      assert (ds + rest)[0] == ds[0];
      assert (ds + rest)[1..] == ds[1..] + rest;
      ScanIntDigits(ds[1..], rest, negative, 10 * acc + d, true);
      assert Pow10(|ds|) == 10 * p;
      assert DigitsValue(ds) == d * p + DigitsValue(ds[1..]);
      ShiftDigit(acc, d, p, DigitsValue(ds[1..]));
    }
  }

  lemma {:induction false} ScanFloatDigits(ds: string, rest: string, negative: bool, acc: nat, seen: bool)
    requires AllDigits(ds) && (rest == [] || !IsDigit(rest[0]))
    ensures ScanFloat(ds + rest, negative, acc, seen)
      == ScanFloat(rest, negative, acc * Pow10(|ds|) + DigitsValue(ds), seen || ds != [])
    decreases |ds|
  {
    if ds == [] {
      assert ds + rest == rest;
    } else {
      var d, p := DigitValue(ds[0]), Pow10(|ds| - 1);
      assert (ds + rest)[0] == ds[0];
      assert (ds + rest)[1..] == ds[1..] + rest;
      ScanFloatDigits(ds[1..], rest, negative, 10 * acc + d, true);
      assert Pow10(|ds|) == 10 * p;
      assert DigitsValue(ds) == d * p + DigitsValue(ds[1..]);
      ShiftDigit(acc, d, p, DigitsValue(ds[1..]));
    }
  }

  /** The fraction digits `fs` read as `0.fs`: their value over 10^|fs|. */
  lemma {:induction false} FractionDigits(fs: string, rest: string)
    requires AllDigits(fs) && (rest == [] || !IsDigit(rest[0]))
    ensures FractionValue(fs + rest) == DigitsValue(fs) as real / Pow10(|fs|) as real
    decreases |fs|
  {
    if fs == [] {
      assert fs + rest == rest;
    } else {
      var d, p, v := DigitValue(fs[0]), Pow10(|fs| - 1), DigitsValue(fs[1..]);
      assert FractionValue(fs + rest) == (d as real + FractionValue(fs[1..] + rest)) / 10.0 by {
        assert (fs + rest)[0] == fs[0];
        assert (fs + rest)[1..] == fs[1..] + rest;
      }
      FractionDigits(fs[1..], rest);
      ShiftFraction(d, v, p, FractionValue(fs + rest), DigitsValue(fs), Pow10(|fs|));
    }
  }

  /** `parseInt` of a signed run of digits followed by anything else is the
      digits' value with the sign. */
  lemma ParseIntReadsDigits(negative: bool, ds: string, rest: string)
    requires ds != [] && AllDigits(ds) && (rest == [] || !IsDigit(rest[0]))
    ensures ParseInt((if negative then "-" else "") + ds + rest)
      == Some(if negative then 0 - DigitsValue(ds) else DigitsValue(ds))
  {
    var s := (if negative then "-" else "") + ds + rest;
    assert Unsigned(s) == ds + rest by {
      if negative {
        assert s[1..] == ds + rest;
      } else {
        assert s == ds + rest && IsDigit(s[0]);
      }
    }
    ScanIntDigits(ds, rest, negative, 0, false);
  }

  /** `parseFloat` reads a signed run of digits into the integer part
      before it looks at what follows. */
  lemma ParseFloatDigits(negative: bool, ds: string, tail: string)
    requires ds != [] && AllDigits(ds) && (tail == [] || !IsDigit(tail[0]))
    ensures ParseFloat((if negative then "-" else "") + ds + tail) == ScanFloat(tail, negative, DigitsValue(ds), true)
  {
    var s := (if negative then "-" else "") + ds + tail;
    assert Unsigned(s) == ds + tail by {
      if negative {
        assert s[1..] == ds + tail;
      } else {
        assert s == ds + tail && IsDigit(s[0]);
      }
    }
    ScanFloatDigits(ds, tail, negative, 0, false);
  }

  /** `parseFloat` of a signed decimal `ds.fs` followed by anything other
      than a digit is its exact value with the sign. */
  lemma ParseFloatReadsDecimal(negative: bool, ds: string, fs: string, rest: string)
    requires ds != [] && AllDigits(ds) && fs != [] && AllDigits(fs) && (rest == [] || !IsDigit(rest[0]))
    ensures var v := DigitsValue(ds) as real + DigitsValue(fs) as real / Pow10(|fs|) as real;
      ParseFloat((if negative then "-" else "") + ds + ("." + fs + rest)) == Some(if negative then -v else v)
  {
    ScanFloatPoint(ds, fs, rest, negative);
    ParseFloatDigits(negative, ds, "." + fs + rest);
  }

  /** At a '.' followed by digits the scanner stops with the digits as the
      fraction. */
  lemma ScanFloatPoint(ds: string, fs: string, rest: string, negative: bool)
    requires AllDigits(ds) && fs != [] && AllDigits(fs) && (rest == [] || !IsDigit(rest[0]))
    ensures var v := DigitsValue(ds) as real + DigitsValue(fs) as real / Pow10(|fs|) as real;
      ScanFloat("." + fs + rest, negative, DigitsValue(ds), true) == Some(if negative then -v else v)
  {
    var tail := "." + fs + rest;
    assert tail[0] == '.' && tail[1] == fs[0];
    assert tail[1..] == fs + rest;
    FractionDigits(fs, rest);
  }
}
