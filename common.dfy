/** Shared vocabulary of the model: optional values, the values a Python
    record (`dict`) can hold under a numeric key, quote-payload fields and a
    few arithmetic and sequence helpers. */
module Common {

  datatype Option<+T> = None | Some(value: T)

  /** What a record holds under a numeric key: the key is absent, the key is
      present with `None`, or the key holds a number. */
  datatype Val = Missing | Null | Num(x: real)

  /** `record.get(key, 0)` as a number: an absent key reads as 0; `None` is
      not a number (any ordering comparison with it raises TypeError). */
  function GetOr0(v: Val): (r: Option<real>)
    ensures r.None? <==> v.Null?
    ensures v.Num? ==> r == Some(v.x)
    ensures v.Missing? ==> r == Some(0.0)
  {
    match v
    case Missing => Some(0.0)
    case Null => None
    case Num(x) => Some(x)
  }

  /** Python truthiness of a value read with `.get(key, 0)`: only a non-zero
      number is true. */
  predicate Truthy(v: Val) {
    v.Num? && v.x != 0.0
  }

  /** One `~`-separated field of a quote payload: its text, and what
      `float(text)` gives (`None` when `float` raises ValueError). */
  datatype Field = Field(text: string, asFloat: Option<real>)

  /** `float(f)` when the field is non-empty, `0` when it is empty (the
      source's `float(x) if x else 0`); `None` when `float` raises. */
  function FloatOrZero(f: Field): (r: Option<real>)
    ensures f.text == [] ==> r == Some(0.0)
    ensures f.text != [] ==> r == f.asFloat
  {
    if f.text == [] then Some(0.0) else f.asFloat
  }

  /** `float(f)` inside `try ... except ValueError: pass` for a field read
      only when non-empty: `None` when the field is empty or does not parse. */
  function OptFloat(f: Field): (r: Option<real>)
    ensures r.Some? <==> f.text != [] && f.asFloat.Some?
    ensures r.Some? ==> r == f.asFloat
  {
    if f.text == [] then None else f.asFloat
  }

  /** `int(x)` of a Python float: truncation toward zero. */
  function TruncToInt(x: real): (r: int)
    ensures x >= 0.0 ==> 0 <= r && r as real <= x < r as real + 1.0
    ensures x < 0.0 ==> r <= 0 && r as real - 1.0 < x <= r as real
  {
    if x >= 0.0 then x.Floor else -((-x).Floor)
  }

  function Pow2(n: nat): (r: nat)
    ensures r >= 1
  {
    if n == 0 then 1 else 2 * Pow2(n - 1)
  }

  function Sum(s: seq<real>): real {
    if s == [] then 0.0 else Sum(s[..|s| - 1]) + s[|s| - 1]
  }

  function Max(s: seq<real>): real
    requires s != []
  {
    if |s| == 1 then s[0]
    else
      var m := Max(s[..|s| - 1]);
      if s[|s| - 1] > m then s[|s| - 1] else m
  }

  function Min(s: seq<real>): real
    requires s != []
  {
    if |s| == 1 then s[0]
    else
      var m := Min(s[..|s| - 1]);
      if s[|s| - 1] < m then s[|s| - 1] else m
  }

  lemma {:induction false} MaxIsUpperBound(s: seq<real>)
    requires s != []
    ensures Max(s) in s
    ensures forall i :: 0 <= i < |s| ==> s[i] <= Max(s)
  {
    if |s| > 1 {
      MaxIsUpperBound(s[..|s| - 1]);
    }
  }

  lemma {:induction false} MinIsLowerBound(s: seq<real>)
    requires s != []
    ensures Min(s) in s
    ensures forall i :: 0 <= i < |s| ==> Min(s) <= s[i]
  {
    if |s| > 1 {
      MinIsLowerBound(s[..|s| - 1]);
    }
  }

  /** The sum of a sequence lies between its length times its minimum and
      its length times its maximum. */
  lemma {:induction false} SumBetween(s: seq<real>, lo: real, hi: real)
    requires forall i :: 0 <= i < |s| ==> lo <= s[i] <= hi
    ensures |s| as real * lo <= Sum(s) <= |s| as real * hi
  {
    if s != [] {
      SumBetween(s[..|s| - 1], lo, hi);
    }
  }

  /** A return `(sell / buy - 1) * 100` on a positive buy price is a gain
      exactly when the sell price is higher. */
  lemma GainIffHigher(buy: real, sell: real)
    requires buy > 0.0
    ensures (sell / buy - 1.0) * 100.0 > 0.0 <==> sell > buy
  {
    assert sell / buy * buy == sell;
  }

  /** A non-negative share of a non-negative total is non-negative, and
      shares `a` and `b` of one total add up to the share `a + b`. */
  lemma Shares(total: real, a: real, b: real)
    requires total >= 0.0 && a >= 0.0 && b >= 0.0
    ensures total * a >= 0.0 && total * b >= 0.0
    ensures total * a + total * b == total * (a + b)
  {
  }

  /** A quotient by a positive divisor lies between the bounds its
      dividend lies between, scaled by the divisor. */
  lemma QuotientBetween(sum: real, n: real, lo: real, hi: real)
    requires n > 0.0 && n * lo <= sum <= n * hi
    ensures lo <= sum / n <= hi
  {
    var q := sum / n;
    assert q * n == sum;
  }

  /** A quotient by a positive divisor lies within bounds exactly when its
      dividend lies within the bounds scaled by the divisor. */
  lemma QuotientWithin(x: real, n: real, lo: real, hi: real)
    requires n > 0.0
    ensures lo <= x / n <= hi <==> n * lo <= x <= n * hi
  {
    var q := x / n;
    assert q * n == x;
    assert lo <= q <==> n * lo <= n * q;
    assert q <= hi <==> n * q <= n * hi;
  }

  /** The average of a non-empty sequence lies between its minimum and
      its maximum. */
  lemma AverageBetween(s: seq<real>)
    requires s != []
    ensures Min(s) <= Sum(s) / |s| as real <= Max(s)
  {
    MinIsLowerBound(s);
    MaxIsUpperBound(s);
    SumBetween(s, Min(s), Max(s));
    QuotientBetween(Sum(s), |s| as real, Min(s), Max(s));
  }

  /** Number of elements strictly greater than zero. */
  function CountPositive(s: seq<real>): (n: nat)
    ensures n <= |s|
  {
    if s == [] then 0
    else CountPositive(s[..|s| - 1]) + (if s[|s| - 1] > 0.0 then 1 else 0)
  }

  predicate NoDup<T(==)>(s: seq<T>) {
    forall i, j :: 0 <= i < j < |s| ==> s[i] != s[j]
  }

  /** The elements of a sequence as a set. */
  function Elems<T>(s: seq<T>): set<T> {
    set x | x in s
  }

  /** Concatenation of a sequence of sequences. */
  function Flatten<T>(ss: seq<seq<T>>): seq<T> {
    if ss == [] then [] else Flatten(ss[..|ss| - 1]) + ss[|ss| - 1]
  }

  // ---------------------------------------------------------------------
  // Cache keys

  /** `f"{a}_{b}"`. */
  function Join(a: string, b: string): string {
    a + "_" + b
  }

  /** A key part the underscore never occurs in. */
  predicate NoUnderscore(s: string) {
    forall i :: 0 <= i < |s| ==> s[i] != '_'
  }

  predicate IsLastUnderscore(k: string, p: int) {
    0 <= p < |k| && k[p] == '_' && forall j :: p < j < |k| ==> k[j] != '_'
  }

  /** Keys whose last part has no underscore determine both parts: the
      first part may itself contain underscores. */
  lemma JoinInjective(a1: string, b1: string, a2: string, b2: string)
    requires NoUnderscore(b1) && NoUnderscore(b2)
    requires Join(a1, b1) == Join(a2, b2)
    ensures a1 == a2 && b1 == b2
  {
    var k := Join(a1, b1);
    assert IsLastUnderscore(k, |a1|);
    assert IsLastUnderscore(k, |a2|) by {
      forall j | |a2| < j < |k| ensures k[j] != '_' {
        assert k[j] == b2[j - |a2| - 1];
      }
    }
    assert |a1| == |a2|;
    assert b1 == k[|k| - |b1|..] == b2;
    assert a1 == k[..|a1|] == a2;
  }

  function DigitChar(d: nat): char
    requires d < 10
  {
    "0123456789"[d]
  }

  /** The decimal digits of a natural number, as `str(n)` writes them. */
  function Digits(n: nat): (s: string)
    ensures s != []
    ensures forall i :: 0 <= i < |s| ==> '0' <= s[i] <= '9'
  {
    if n < 10 then [DigitChar(n)] else Digits(n / 10) + [DigitChar(n % 10)]
  }

  /** The number a string of decimal digits denotes. */
  function DigitsValue(s: string): nat
    requires forall i :: 0 <= i < |s| ==> '0' <= s[i] <= '9'
  {
    if s == [] then 0 else 10 * DigitsValue(s[..|s| - 1]) + (s[|s| - 1] as int - '0' as int)
  }

  /** Writing a number in decimal loses nothing: reading the digits back
      gives the number, so distinct numbers have distinct digits. */
  lemma {:induction false} DigitsRoundTrip(n: nat)
    ensures DigitsValue(Digits(n)) == n
  {
    if n >= 10 {
      DigitsRoundTrip(n / 10);
      var s := Digits(n);
      assert s[..|s| - 1] == Digits(n / 10);
      assert s[|s| - 1] as int - '0' as int == n % 10;
    } else {
      assert Digits(n)[..0] == [];
    }
  }

  // ---------------------------------------------------------------------
  // Quote responses with several lines

  /** One `;`-separated line of a quote response: a line without the `v_`
      marker or without `~`, a line with both but no `"` (where taking the
      quoted part raises IndexError), or the `~` fields of its quoted
      part. */
  datatype Line = Other | Malformed | QuoteLine(parts: seq<Field>)

  lemma SumShort(s: seq<real>)
    requires 1 <= |s| <= 3
    ensures Sum(s) == s[0] + (if |s| >= 2 then s[1] else 0.0) + (if |s| == 3 then s[2] else 0.0)
  {
    assert s[..1][..0] == [];
    if |s| >= 2 {
      assert s[..2][..1] == s[..1];
    }
    if |s| == 3 {
      assert s[..3] == s;
    }
  }

  /** The average change of the market indices: the sum of the first
      three changes divided by 3, also when fewer than three indices were
      read. */
  function AvgIndexChange(changes: seq<real>): (a: real)
    ensures changes == [] ==> a == 0.0
    ensures |changes| >= 3 ==> a == (changes[0] + changes[1] + changes[2]) / 3.0
    ensures |changes| == 1 ==> a == changes[0] / 3.0
    ensures |changes| == 2 ==> a == (changes[0] + changes[1]) / 3.0
  {
    if changes == [] then 0.0
    else
      var first := if |changes| > 3 then changes[..3] else changes;
      SumShort(first);
      Sum(first) / 3.0
  }
}
