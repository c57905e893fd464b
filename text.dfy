/** Small value-level helpers shared by the model: an Option type for the
    source's `dict.get` defaults, Python-style slicing, substring search,
    ASCII case mapping, integer rendering, `str.split` on one character
    and sums over real sequences. */
module Text {

  datatype Option<+T> = None | Some(value: T) {
    /** The value, or `default` when absent (Python's `d.get(k, default)`). */
    function GetOr(default: T): T {
      if Some? then value else default
    }
  }

  function Min(a: int, b: int): int { if a <= b then a else b }

  function MinReal(a: real, b: real): real { if a <= b then a else b }

  function MaxReal(a: real, b: real): real { if a >= b then a else b }

  function AbsReal(x: real): real { if x < 0.0 then -x else x }

  /** Python's `s[:n]`. */
  function Take<T>(s: seq<T>, n: nat): (r: seq<T>)
    ensures |r| == Min(|s|, n)
    ensures r == s[..|r|]
  {
    if |s| <= n then s else s[..n]
  }

  /** Python's `s[-n:]` for n > 0: the last n elements, or all of s. */
  function Last<T>(s: seq<T>, n: nat): (r: seq<T>)
    ensures |r| == Min(|s|, n)
    ensures r == s[|s| - |r|..]
  {
    if |s| <= n then s else s[|s| - n..]
  }

  /** Appending to a window of at most n and keeping the last n: the new
      element is last and the most recent earlier ones keep their order. */
  lemma LastOfAppend<T>(h: seq<T>, x: T, n: nat)
    requires 1 <= n && |h| <= n
    ensures var r := Last(h + [x], n);
            && |r| == Min(|h| + 1, n)
            && r[|r| - 1] == x
            && r[..|r| - 1] == h[|h| - (|r| - 1)..]
  {
    var r := Last(h + [x], n);
    assert r == (h + [x])[|h| + 1 - |r|..];
    assert r[..|r| - 1] == (h + [x])[|h| + 1 - |r|..|h|];
    assert (h + [x])[|h| + 1 - |r|..|h|] == h[|h| + 1 - |r|..];
  }

  predicate IsPrefix<T(==)>(p: seq<T>, s: seq<T>) {
    |p| <= |s| && s[..|p|] == p
  }

  /** Python's `sub in s` on strings. */
  predicate Contains(s: string, sub: string)
    decreases |s|
  {
    IsPrefix(sub, s) || (|s| > 0 && Contains(s[1..], sub))
  }

  /** `sub` occurs in `s` starting at position i. */
  predicate OccursAt(s: string, sub: string, i: int) {
    0 <= i && i + |sub| <= |s| && s[i..i + |sub|] == sub
  }

  /** `sub in s` holds exactly when `sub` occurs at some position of `s`. */
  lemma {:induction false} ContainsAt(s: string, sub: string)
    ensures Contains(s, sub) <==> exists i :: OccursAt(s, sub, i)
    decreases |s|
  {
    if IsPrefix(sub, s) {
      assert OccursAt(s, sub, 0);
    }
    if |s| > 0 {
      ContainsAt(s[1..], sub);
      if Contains(s[1..], sub) {
        var i :| OccursAt(s[1..], sub, i);
        assert s[i + 1..i + 1 + |sub|] == s[1..][i..i + |sub|];
        assert OccursAt(s, sub, i + 1);
      }
      if exists i :: OccursAt(s, sub, i) {
        var i :| OccursAt(s, sub, i);
        if i > 0 {
          assert s[1..][i - 1..i - 1 + |sub|] == s[i..i + |sub|];
          assert OccursAt(s[1..], sub, i - 1);
        } else {
          assert IsPrefix(sub, s);
        }
      }
    } else {
      if exists i :: OccursAt(s, sub, i) {
        var i :| OccursAt(s, sub, i);
        assert |sub| == 0;
        assert IsPrefix(sub, s);
      }
    }
  }

  function LowerChar(c: char): char {
    if 'A' <= c <= 'Z' then (c as int + 32) as char else c
  }

  function UpperChar(c: char): char {
    if 'a' <= c <= 'z' then (c as int - 32) as char else c
  }

  /** Python's `str.lower()` restricted to ASCII letters. */
  function Lower(s: string): string {
    seq(|s|, i requires 0 <= i < |s| => LowerChar(s[i]))
  }

  /** Lower-casing twice is lower-casing once. */
  lemma LowerIdempotent(s: string)
    ensures Lower(Lower(s)) == Lower(s)
  {
    forall i | 0 <= i < |s|
      ensures Lower(Lower(s))[i] == Lower(s)[i]
    {
      assert Lower(s)[i] == LowerChar(s[i]);
    }
  }

  /** Python's `str.upper()` restricted to ASCII letters. */
  function Upper(s: string): string {
    seq(|s|, i requires 0 <= i < |s| => UpperChar(s[i]))
  }

  function DigitChar(d: nat): char
    requires d < 10
  {
    ('0' as int + d) as char
  }

  /** Decimal rendering of a natural number, as `str(n)`. */
  function NatToString(n: nat): (r: string)
    ensures 1 <= |r|
    decreases n
  {
    if n < 10 then [DigitChar(n)] else NatToString(n / 10) + [DigitChar(n % 10)]
  }

  /** Decimal rendering of an integer, as `str(i)` (a leading '-' when negative). */
  function IntToString(i: int): string {
    if i < 0 then "-" + NatToString(-i) else NatToString(i)
  }

  lemma {:induction false} NatToStringShort(n: nat)
    ensures n < 10 ==> |NatToString(n)| == 1
    ensures n < 100 ==> |NatToString(n)| <= 2
    ensures n < 1000 ==> |NatToString(n)| <= 3
  {
    if n >= 10 {
      NatToStringShort(n / 10);
    }
  }

  /** Round to the nearest integer, ties to even. */
  function RoundHalfEven(x: real): (n: int)
    ensures -0.5 <= x - n as real <= 0.5
    ensures x - n as real == 0.5 || n as real - x == 0.5 ==> n % 2 == 0
  {
    var f := x.Floor;
    var d := x - f as real;
    if d < 0.5 then f
    else if d > 0.5 then f + 1
    else if f % 2 == 0 then f else f + 1
  }

  lemma RoundHalfEvenMonotone(x: real, y: real)
    requires x <= y
    ensures RoundHalfEven(x) <= RoundHalfEven(y)
  {
    if x.Floor < y.Floor {
      assert RoundHalfEven(x) <= x.Floor + 1 <= y.Floor <= RoundHalfEven(y);
    }
  }

  function Pow10(places: nat): (p: nat)
    ensures p >= 1
  {
    if places == 0 then 1 else 10 * Pow10(places - 1)
  }

  /** 10 to the power `places`, as a real. */
  function Scale(places: nat): (p: real)
    ensures p >= 1.0
  {
    Pow10(places) as real
  }

  /** Python's `round(x, places)`, on the exact value: the nearest multiple of
      10^-places, ties to the even multiple. */
  function Round(x: real, places: nat): (r: real)
    ensures -0.5 / Scale(places) <= r - x <= 0.5 / Scale(places)
  {
    RoundBy(x, Scale(places))
  }

  /** The nearest multiple of 1/s, ties to the even multiple. */
  function RoundBy(x: real, s: real): (r: real)
    requires s >= 1.0
    ensures -0.5 / s <= r - x <= 0.5 / s
  {
    var n := UnitsOf(x, s);
    DivShift(n as real, x, s);
    DivBounds(n as real - x * s, s);
    n as real / s
  }

  /** The nearest whole number of units of size 1/s. */
  function UnitsOf(x: real, s: real): int {
    RoundHalfEven(x * s)
  }

  /** The scales of one to four decimal places. */
  lemma ScaleValues()
    ensures Scale(1) == 10.0 && Scale(2) == 100.0 && Scale(3) == 1000.0 && Scale(4) == 10000.0
  {
    assert Pow10(1) == 10 && Pow10(2) == 100 && Pow10(3) == 1000 && Pow10(4) == 10000;
  }

  /** Rounding keeps a value between two bounds that are themselves on the
      rounding grid. */
  lemma RoundKeepsBounds(x: real, lo: int, hi: int, places: nat)
    requires lo as real / Scale(places) <= x <= hi as real / Scale(places)
    ensures lo as real / Scale(places) <= Round(x, places) <= hi as real / Scale(places)
  {
    RoundMonotone(lo as real / Scale(places), x, places);
    RoundMonotone(x, hi as real / Scale(places), places);
    RoundExact(lo, places);
    RoundExact(hi, places);
  }

  /** A value within half a unit of zero rounds to zero. */
  lemma RoundByNearZero(x: real, s: real)
    requires s >= 1.0 && -0.5 < x * s < 0.5
    ensures RoundBy(x, s) == 0.0
  {
    assert UnitsOf(x, s) == 0;
  }

  /** Rounding never reverses an order. */
  lemma RoundMonotone(x: real, y: real, places: nat)
    requires x <= y
    ensures Round(x, places) <= Round(y, places)
  {
    RoundByMonotone(x, y, Scale(places));
  }

  lemma RoundByMonotone(x: real, y: real, s: real)
    requires s >= 1.0 && x <= y
    ensures RoundBy(x, s) <= RoundBy(y, s)
  {
    ScaleMonotone(x, y, s);
    RoundHalfEvenMonotone(x * s, y * s);
    DivMonotone(UnitsOf(x, s) as real, UnitsOf(y, s) as real, s);
  }

  /** A whole number of units (k / 10^places) is left as it is. */
  lemma RoundExact(k: int, places: nat)
    ensures Round(k as real / Scale(places), places) == k as real / Scale(places)
  {
    RoundByExact(k, Scale(places));
  }

  lemma RoundByExact(k: int, s: real)
    requires s >= 1.0
    ensures RoundBy(k as real / s, s) == k as real / s
  {
    DivCancel(k as real, s);
    assert (k as real).Floor == k;
    assert RoundHalfEven(k as real) == k;
    assert UnitsOf(k as real / s, s) == k;
  }

  lemma DivShift(a: real, x: real, s: real)
    requires s > 0.0
    ensures a / s - x == (a - x * s) / s
  {
  }

  lemma DivBounds(e: real, s: real)
    requires s > 0.0 && -0.5 <= e <= 0.5
    ensures -0.5 / s <= e / s <= 0.5 / s
  {
  }

  lemma DivMonotone(a: real, b: real, s: real)
    requires s > 0.0 && a <= b
    ensures a / s <= b / s
  {
  }

  lemma ScaleMonotone(x: real, y: real, s: real)
    requires s > 0.0 && x <= y
    ensures x * s <= y * s
  {
  }

  lemma DivideProduct(y: real, n: real)
    requires n != 0.0
    ensures n * y / n == y && y * n / n == y
  {
  }

  lemma DivCancel(k: real, s: real)
    requires s > 0.0
    ensures k / s * s == k
  {
  }

  /** Python's `int(x)` on a float: truncation toward zero. */
  function TruncToInt(x: real): (r: int)
    ensures AbsReal(r as real) <= AbsReal(x) < AbsReal(r as real) + 1.0
    ensures (r >= 0) == (x > -1.0)
  {
    if x >= 0.0 then x.Floor else -((-x).Floor)
  }

  /** The ASCII characters Python's `str.strip()` removes. */
  predicate IsSpace(c: char) {
    c == ' ' || 9 <= c as int <= 13 || 28 <= c as int <= 31
  }

  function TrimStart(s: string): (r: string)
    ensures |r| <= |s| && r == s[|s| - |r|..]
    ensures forall i :: 0 <= i < |s| - |r| ==> IsSpace(s[i])
    ensures r == [] || !IsSpace(r[0])
    decreases |s|
  {
    if s != [] && IsSpace(s[0]) then TrimStart(s[1..]) else s
  }

  function TrimEnd(s: string): (r: string)
    ensures |r| <= |s| && r == s[..|r|]
    ensures forall i :: |r| <= i < |s| ==> IsSpace(s[i])
    ensures r == [] || !IsSpace(r[|r| - 1])
    decreases |s|
  {
    if s != [] && IsSpace(s[|s| - 1]) then TrimEnd(s[..|s| - 1]) else s
  }

  /** Python's `s.strip()` for ASCII whitespace: a slice of s that neither
      starts nor ends with whitespace, with only whitespace cut away. */
  function Strip(s: string): (r: string)
    ensures r == [] || (!IsSpace(r[0]) && !IsSpace(r[|r| - 1]))
    ensures exists i :: OccursAt(s, r, i)
  {
    var t := TrimStart(s);
    var r := TrimEnd(t);
    assert s[|s| - |t|..|s| - |t| + |r|] == r;
    assert OccursAt(s, r, |s| - |t|);
    r
  }

  /** Python's `s.split(sep)` with an explicit one-character separator. */
  function Split(s: string, sep: char): (r: seq<string>)
    ensures |r| >= 1
    ensures forall i :: 0 <= i < |r| ==> sep !in r[i]
    decreases |s|
  {
    if |s| == 0 then [""]
    else
      var rest := Split(s[1..], sep);
      if s[0] == sep then [""] + rest else [[s[0]] + rest[0]] + rest[1..]
  }

  /** Python's `sep.join(parts)`. */
  function Join(parts: seq<string>, sep: char): string
    decreases |parts|
  {
    if |parts| == 0 then ""
    else if |parts| == 1 then parts[0]
    else parts[0] + [sep] + Join(parts[1..], sep)
  }

  /** Splitting loses nothing: joining the pieces back gives the original text. */
  lemma {:induction false} JoinSplit(s: string, sep: char)
    ensures Join(Split(s, sep), sep) == s
    decreases |s|
  {
    if |s| > 0 {
      var rest := Split(s[1..], sep);
      JoinSplit(s[1..], sep);
      if s[0] == sep {
        assert Split(s, sep) == [""] + rest;
        assert s == [sep] + s[1..];
      } else {
        var r := [[s[0]] + rest[0]] + rest[1..];
        assert Split(s, sep) == r;
        if |rest| == 1 {
          assert s == [s[0]] + rest[0];
        } else {
          assert r[1..] == rest[1..];
          assert Join(r, sep) == r[0] + [sep] + Join(rest[1..], sep);
          assert Join(rest, sep) == rest[0] + [sep] + Join(rest[1..], sep);
          assert s == [s[0]] + s[1..];
        }
      }
    }
  }

  /** f applied to each of the first n elements together with its position. */
  function Indexed<A, B>(xs: seq<A>, f: (A, nat) -> B, n: nat): seq<B>
    requires n <= |xs|
  {
    if n == 0 then [] else Indexed(xs, f, n - 1) + [f(xs[n - 1], n - 1)]
  }

  lemma {:induction false} IndexedElements<A, B>(xs: seq<A>, f: (A, nat) -> B, n: nat)
    requires n <= |xs|
    ensures |Indexed(xs, f, n)| == n
    ensures forall j :: 0 <= j < n ==> Indexed(xs, f, n)[j] == f(xs[j], j)
  {
    if n > 0 {
      IndexedElements(xs, f, n - 1);
    }
  }

  /** Python's `sum(xs)` over reals, accumulated left to right. */
  function Sum(xs: seq<real>): real
    decreases |xs|
  {
    if xs == [] then 0.0 else Sum(xs[..|xs| - 1]) + xs[|xs| - 1]
  }

  lemma {:induction false} SumBounds(xs: seq<real>, lo: real, hi: real)
    requires forall i :: 0 <= i < |xs| ==> lo <= xs[i] <= hi
    ensures |xs| as real * lo <= Sum(xs) <= |xs| as real * hi
    decreases |xs|
  {
    if xs != [] {
      SumBounds(xs[..|xs| - 1], lo, hi);
    }
  }

  lemma {:induction false} SumNonNegative(xs: seq<real>)
    requires forall i :: 0 <= i < |xs| ==> xs[i] >= 0.0
    ensures Sum(xs) >= 0.0
    decreases |xs|
  {
    if xs != [] {
      SumNonNegative(xs[..|xs| - 1]);
    }
  }

  /** Each of a sequence of non-negative values is at most their sum. */
  lemma {:induction false} TermAtMostSum(xs: seq<real>, i: int)
    requires forall j :: 0 <= j < |xs| ==> xs[j] >= 0.0
    requires 0 <= i < |xs|
    ensures xs[i] <= Sum(xs)
    decreases |xs|
  {
    var init := xs[..|xs| - 1];
    SumNonNegative(init);
    if i < |xs| - 1 {
      TermAtMostSum(init, i);
    }
  }

  /** Non-negative values sum to zero exactly when every one of them is zero. */
  lemma SumZeroIffAllZero(xs: seq<real>)
    requires forall j :: 0 <= j < |xs| ==> xs[j] >= 0.0
    ensures Sum(xs) == 0.0 <==> forall j :: 0 <= j < |xs| ==> xs[j] == 0.0
  {
    if forall j :: 0 <= j < |xs| ==> xs[j] == 0.0 {
      SumConstant(xs, 0.0);
    }
    if Sum(xs) == 0.0 {
      forall j | 0 <= j < |xs| ensures xs[j] == 0.0 {
        TermAtMostSum(xs, j);
      }
    }
  }

  /** The mean of values in [0, 1] is in [0, 1]. */
  lemma MeanInUnit(xs: seq<real>)
    requires |xs| > 0
    requires forall i :: 0 <= i < |xs| ==> 0.0 <= xs[i] <= 1.0
    ensures 0.0 <= Sum(xs) / |xs| as real <= 1.0
  {
    SumBounds(xs, 0.0, 1.0);
    var n := |xs| as real;
    var t := Sum(xs);
    assert t <= n * 1.0;
  }

  lemma {:induction false} SumConstant(xs: seq<real>, c: real)
    requires forall i :: 0 <= i < |xs| ==> xs[i] == c
    ensures Sum(xs) == |xs| as real * c
    decreases |xs|
  {
    if xs != [] {
      SumConstant(xs[..|xs| - 1], c);
    }
  }

  /** Python's `min(xs)` over a non-empty sequence of reals. */
  function MinOf(xs: seq<real>): (m: real)
    requires |xs| > 0
    ensures forall i :: 0 <= i < |xs| ==> m <= xs[i]
    ensures exists i :: 0 <= i < |xs| && xs[i] == m
    decreases |xs|
  {
    if |xs| == 1 then xs[0]
    else
      var m := MinOf(xs[..|xs| - 1]);
      assert forall i :: 0 <= i < |xs| - 1 ==> xs[..|xs| - 1][i] == xs[i];
      MinReal(m, xs[|xs| - 1])
  }

  /** Python's `max(xs)` over a non-empty sequence of reals. */
  function MaxOf(xs: seq<real>): (m: real)
    requires |xs| > 0
    ensures forall i :: 0 <= i < |xs| ==> xs[i] <= m
    ensures exists i :: 0 <= i < |xs| && xs[i] == m
    decreases |xs|
  {
    if |xs| == 1 then xs[0]
    else
      var m := MaxOf(xs[..|xs| - 1]);
      assert forall i :: 0 <= i < |xs| - 1 ==> xs[..|xs| - 1][i] == xs[i];
      MaxReal(m, xs[|xs| - 1])
  }
}
