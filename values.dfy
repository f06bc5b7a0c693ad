/** Python values as they appear in the sensor's configuration and in entity states:
    strings, integers and booleans, with Python's `==`, `in`, `str()` and `int()`
    restricted to what the sensor and its configuration schema use. */
module Values {

  datatype Option<+T> = None | Some(value: T)

  /** A configuration or state value. Python's `bool` is a subclass of `int`. */
  datatype Value = Str(s: string) | Int(i: int) | Bool(b: bool)

  /** The integer a numeric value stands for (`False` is 0, `True` is 1). */
  function AsNumber(v: Value): Option<int> {
    match v
    case Str(_) => None
    case Int(i) => Some(i)
    case Bool(b) => Some(if b then 1 else 0)
  }

  /** Python `a == b`: strings compare by content, numbers (bools included) by value,
      and a string never equals a number. */
  predicate PyEq(a: Value, b: Value) {
    if a.Str? || b.Str? then a.Str? && b.Str? && a.s == b.s
    else AsNumber(a) == AsNumber(b)
  }

  /** Python `v in xs` on a list. */
  predicate In(v: Value, xs: seq<Value>) {
    exists k :: 0 <= k < |xs| && PyEq(v, xs[k])
  }

  /** `==` is an equivalence, so `in` does not depend on which side a value stands. */
  lemma PyEqEquivalence(a: Value, b: Value, c: Value)
    ensures PyEq(a, a)
    ensures PyEq(a, b) ==> PyEq(b, a)
    ensures PyEq(a, b) && PyEq(b, c) ==> PyEq(a, c)
  {
  }

  /** `1 == True` and `0 == False` in Python, but neither equals its string spelling. */
  lemma NumbersAndBools()
    ensures PyEq(Int(1), Bool(true)) && PyEq(Int(0), Bool(false))
    ensures !PyEq(Str("1"), Int(1)) && !PyEq(Str("True"), Bool(true))
  {
  }

  /** Membership is decided by the set of distinct entries: a list with the same
      entries in another order or with repeats has the same members. */
  lemma InSameEntries(v: Value, xs: seq<Value>, ys: seq<Value>)
    requires forall x :: x in xs <==> x in ys
    ensures In(v, xs) <==> In(v, ys)
  {
    if In(v, xs) {
      var k :| 0 <= k < |xs| && PyEq(v, xs[k]);
      assert xs[k] in ys;
      var j :| 0 <= j < |ys| && ys[j] == xs[k];
      assert PyEq(v, ys[j]);
    }
    if In(v, ys) {
      var k :| 0 <= k < |ys| && PyEq(v, ys[k]);
      assert ys[k] in xs;
      var j :| 0 <= j < |xs| && xs[j] == ys[k];
      assert PyEq(v, xs[j]);
    }
  }

  // ---------------------------------------------------------------------------
  // Decimal text of integers: Python `str(i)` and `int(s)`

  predicate IsDigit(c: char) { '0' <= c <= '9' }

  predicate AllDigits(s: string) { forall k :: 0 <= k < |s| ==> IsDigit(s[k]) }

  function DigitChar(d: nat): (c: char)
    requires d < 10
    ensures IsDigit(c) && c as int - '0' as int == d
  {
    ['0', '1', '2', '3', '4', '5', '6', '7', '8', '9'][d]
  }

  /** Decimal digits of `n`, most significant first, without leading zeros. */
  function NatToString(n: nat): (s: string)
    ensures |s| >= 1 && AllDigits(s)
    ensures |s| > 1 ==> s[0] != '0'
    decreases n
  {
    if n < 10 then [DigitChar(n)] else NatToString(n / 10) + [DigitChar(n % 10)]
  }

  /** Python `str(i)` for an integer. */
  function IntToString(i: int): (s: string)
    ensures |s| >= 1
    ensures s[0] == '-' <==> i < 0
  {
    if i < 0 then "-" + NatToString(-i) else NatToString(i)
  }

  /** The number a string of decimal digits denotes (leading zeros allowed). */
  function DigitsValue(s: string): (n: nat)
    requires AllDigits(s)
    decreases |s|
  {
    if s == [] then 0
    else DigitsValue(s[..|s| - 1]) * 10 + (s[|s| - 1] as int - '0' as int)
  }

  /** Python `int(s)` for a string of an optional sign followed by at least one
      decimal digit; any other string is rejected (`ValueError`). */
  function ParseInt(s: string): (r: Option<int>)
    ensures r.Some? && |s| > 0 && s[0] == '-' ==> r.value <= 0
    ensures r.Some? && |s| > 0 && IsDigit(s[0]) ==> r.value >= 0
  {
    if |s| > 0 && (s[0] == '-' || s[0] == '+') then
      var digits := s[1..];
      if |digits| > 0 && AllDigits(digits) then
        var n: int := DigitsValue(digits);
        Some(if s[0] == '-' then -n else n)
      else None
    else if |s| > 0 && AllDigits(s) then Some(DigitsValue(s))
    else None
  }

  lemma {:induction false} NatToStringRoundTrip(n: nat)
    ensures DigitsValue(NatToString(n)) == n
    decreases n
  {
    var s := NatToString(n);
    if n >= 10 {
      NatToStringRoundTrip(n / 10);
      assert s[..|s| - 1] == NatToString(n / 10);
    }
  }

  /** `int(str(i)) == i` for every integer. */
  lemma IntToStringRoundTrip(i: int)
    ensures ParseInt(IntToString(i)) == Some(i)
  {
    var s := IntToString(i);
    if i < 0 {
      NatToStringRoundTrip(-i);
      assert s[1..] == NatToString(-i);
      assert s[0] == '-';
    } else {
      NatToStringRoundTrip(i);
      assert IsDigit(s[0]);
    }
  }
}
