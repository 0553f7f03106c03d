/** The two integer/string conversions the routers use: `std::to_string(int)`
    names a new client, and `std::stoi` reads the target id of `dm`. `int` is
    32 bits wide. */
module Convert {
  import opened CText

  datatype Option<T> = None | Some(value: T)

  const IntMin: int := -0x8000_0000
  const IntMax: int := 0x7FFF_FFFF

  /** The value fits a 32-bit `int`. */
  predicate IsInt(v: int) {
    IntMin <= v <= IntMax
  }

  function DigitChar(d: nat): (c: char)
    requires d < 10
    ensures IsDigit(c)
  {
    (('0' as int) + d) as char
  }

  function DigitValue(c: char): (d: nat)
    requires IsDigit(c)
    ensures d < 10
  {
    (c as int) - ('0' as int)
  }

  predicate AllDigits(s: string) {
    forall k :: 0 <= k < |s| ==> IsDigit(s[k])
  }

  /** The decimal digits of `n`, most significant first, without leading zeros. */
  function NatDigits(n: nat): (s: string)
    ensures |s| > 0 && AllDigits(s)
  {
    if n < 10 then [DigitChar(n)] else NatDigits(n / 10) + [DigitChar(n % 10)]
  }

  /** The value of a string of decimal digits. */
  function DigitsValue(s: string): nat
    requires AllDigits(s)
  {
    if s == [] then 0 else DigitsValue(s[..|s| - 1]) * 10 + DigitValue(s[|s| - 1])
  }

  /** `std::to_string(v)`: an optional '-' and the digits of the magnitude. */
  function ToString(v: int): (s: string)
    ensures Word(s)
    ensures v >= 0 ==> AllDigits(s)
    ensures v < 0 ==> s[0] == '-' && AllDigits(s[1..])
  {
    var d := if v < 0 then NatDigits(-v) else NatDigits(v);
    assert forall k :: 0 <= k < |d| ==> !IsSpace(d[k]) by {
      forall k | 0 <= k < |d| ensures !IsSpace(d[k]) { assert IsDigit(d[k]); }
    }
    if v < 0 then "-" + d else d
  }

  function Pow10(k: nat): (p: nat)
    ensures p > 0
  {
    if k == 0 then 1 else 10 * Pow10(k - 1)
  }

  lemma {:induction false} NatDigitsLength(n: nat, k: nat)
    requires 0 < k && n < Pow10(k)
    ensures |NatDigits(n)| <= k
  {
    if n >= 10 {
      assert k > 1;
      NatDigitsLength(n / 10, k - 1);
    }
  }

  /** An `int` prints in at most 11 characters (a sign and ten digits). */
  lemma ToStringLength(v: int)
    requires IsInt(v)
    ensures |ToString(v)| <= 11
  {
    assert Pow10(10) == 10000000000;
    if v < 0 {
      NatDigitsLength(-v, 10);
    } else {
      NatDigitsLength(v, 10);
    }
  }

  /** `std::stoi(s)` in base 10: like `strtol`, skip white space, take an
      optional sign and the longest run of digits after it; `None` stands for
      the exceptions, `std::invalid_argument` when there is no digit and
      `std::out_of_range` when the value does not fit an `int`. Characters
      after the digits are ignored. */
  function Stoi(s: string): (r: Option<int>)
    ensures r.Some? ==> IsInt(r.value)
  {
    var t := SkipSpace(s);
    var neg := t != [] && t[0] == '-';
    var u := if t != [] && (t[0] == '-' || t[0] == '+') then t[1..] else t;
    var (digits, _) := SplitDigits(u);
    if digits == [] then None
    else
      var magnitude: int := DigitsValue(digits);
      var v := if neg then -magnitude else magnitude;
      if IsInt(v) then Some(v) else None
  }

  lemma {:induction false} DigitsValueOfNatDigits(n: nat)
    ensures DigitsValue(NatDigits(n)) == n
  {
    var s := NatDigits(n);
    if n >= 10 {
      assert s[..|s| - 1] == NatDigits(n / 10);
      DigitsValueOfNatDigits(n / 10);
    }
  }

  /** What `stoi` returns for digits followed by something other than a digit. */
  lemma StoiOfDigits(d: string, rest: string)
    requires |d| > 0 && AllDigits(d) && (rest != [] ==> !IsDigit(rest[0]))
    ensures IsInt(DigitsValue(d)) ==> Stoi(d + rest) == Some(DigitsValue(d))
    ensures !IsInt(DigitsValue(d)) ==> Stoi(d + rest) == None
  {
    var s := d + rest;
    assert s[0] == d[0];
    SkipSpaceOver([], s);
    assert [] + s == s;
    SplitDigitsOver(d, rest);
  }

  /** What `stoi` returns for '-', then digits, then something other than a digit. */
  lemma StoiOfNegatedDigits(d: string, rest: string)
    requires |d| > 0 && AllDigits(d) && (rest != [] ==> !IsDigit(rest[0]))
    ensures IsInt(-(DigitsValue(d) as int)) ==> Stoi("-" + (d + rest)) == Some(-(DigitsValue(d) as int))
    ensures !IsInt(-(DigitsValue(d) as int)) ==> Stoi("-" + (d + rest)) == None
  {
    var s := "-" + (d + rest);
    SkipSpaceOver([], s);
    assert [] + s == s;
    assert s[1..] == d + rest;
    SplitDigitsOver(d, rest);
    NegatedStoi(s, d, rest);
  }

  lemma NegatedStoi(s: string, d: string, rest: string)
    requires |d| > 0 && AllDigits(d)
    requires SkipSpace(s) == s && s != [] && s[0] == '-' && SplitDigits(s[1..]) == (d, rest)
    ensures var v: int := -(DigitsValue(d) as int);
            Stoi(s) == if IsInt(v) then Some(v) else None
  {
  }

  /** `stoi` reads back what `to_string` wrote, for every `int`. */
  lemma StoiToString(v: int)
    requires IsInt(v)
    ensures Stoi(ToString(v)) == Some(v)
  {
    if v < 0 {
      var d := NatDigits(-v);
      DigitsValueOfNatDigits(-v);
      assert -(DigitsValue(d) as int) == v;
      assert ToString(v) == "-" + (d + []);
      StoiOfNegatedDigits(d, []);
    } else {
      var d := NatDigits(v);
      DigitsValueOfNatDigits(v);
      assert DigitsValue(d) == v;
      assert ToString(v) == d + [];
      StoiOfDigits(d, []);
    }
  }

  /** A `dm` target that does not start with a sign or a digit makes `stoi`
      throw `std::invalid_argument`. */
  lemma StoiRejectsNonNumeric(s: string)
    requires s != [] && !IsSpace(s[0]) && !IsDigit(s[0]) && s[0] != '-' && s[0] != '+'
    ensures Stoi(s) == None
  {
    SkipSpaceOver([], s);
    assert [] + s == s;
  }
}
