/** Values, numbers and text shared by every part of the model.

    Python's integers are unbounded like Dafny's; its floats are modelled as
    `real`, so rounding of floating-point arithmetic is not modelled. */
module Common {

  datatype Option<+T> = None | Some(value: T)

  /** The result of a Python call that either returns a value or raises an
      exception; `error` is what `str(e)` gives for the exception. */
  datatype Outcome<+T> = Ok(value: T) | Raised(error: string)

  /** What a FastAPI route produces: a body, or an `HTTPException` with its
      status code and detail. */
  datatype HttpResult<+T> = Answer(body: T) | HttpError(code: nat, detail: string)

  function Min(a: int, b: int): int { if a <= b then a else b }

  function Max(a: int, b: int): int { if a <= b then b else a }

  function MinReal(a: real, b: real): real { if a <= b then a else b }

  /** Python's `int(x)` on a float: truncation toward zero. */
  function Trunc(x: real): (t: int)
    ensures 0.0 <= x ==> 0 <= t && t as real <= x < t as real + 1.0
    ensures x < 0.0 ==> t <= 0 && t as real - 1.0 < x <= t as real
  {
    if 0.0 <= x then x.Floor else -((-x).Floor)
  }

  /** Comparing a quotient with a constant is comparing the dividend with
      the constant times the (positive) divisor. */
  lemma DivCompare(x: real, d: real, c: real)
    requires 0.0 < d
    ensures x / d < c <==> x < c * d
    ensures x / d * d == x
  {
    var q := x / d;
    assert q * d == x;
    if q < c {
      assert (c - q) * d > 0.0;
    } else {
      assert (q - c) * d >= 0.0;
    }
  }

  lemma ScaleQuotient(x: real, d: real, k: real)
    requires 0.0 < d
    ensures x * k / d == x / d * k
  {
    var q := x / d;
    assert q * d == x;
    assert (q * k) * d == (q * d) * k;
    DivCompare(x * k, d, 0.0);
    var r := x * k / d;
    assert r * d == x * k;
    assert (r - q * k) * d == 0.0;
  }

  /** The non-strict form of `DivCompare`. */
  lemma DivAtMost(x: real, d: real, c: real)
    requires 0.0 < d
    ensures x / d <= c <==> x <= c * d
  {
    DivCompare(x, d, c);
    var q := x / d;
    if q == c {
      assert x == c * d;
    }
    if x == c * d {
      assert q * d == c * d;
      assert (q - c) * d == 0.0;
    }
  }

  lemma MulMono(x: nat, y: nat, k: nat)
    requires x <= y
    ensures x * k <= y * k
  {
    var t := y - x;
    assert y * k == x * k + t * k;
  }

  lemma MulCancel(x: nat, y: nat, d: nat)
    requires 0 < d && x * d < y * d
    ensures x < y
  {
  }

  /** The quotient and the remainder of a natural division. */
  lemma DivParts(a: nat, d: nat)
    requires 0 < d
    ensures (a / d) * d <= a < (a / d) * d + d
  {
    var q, r := a / d, a % d;
    assert a == d * q + r;
    assert q * d == d * q;
  }

  lemma DivUnique(a: nat, d: nat, q: nat)
    requires 0 < d && q * d <= a < q * d + d
    ensures a / d == q
  {
    DivParts(a, d);
    var p := a / d;
    assert (q + 1) * d == q * d + d;
    assert (p + 1) * d == p * d + d;
    MulCancel(p, q + 1, d);
    MulCancel(q, p + 1, d);
  }

  lemma DivMonotone(a: nat, b: nat, d: nat)
    requires 0 < d && a <= b
    ensures a / d <= b / d
  {
    DivParts(a, d);
    DivParts(b, d);
    var p, q := a / d, b / d;
    assert (q + 1) * d == q * d + d;
    MulCancel(p, q + 1, d);
  }

  /** `2 ** k` for a non-negative exponent. */
  function Pow2(k: nat): (p: nat)
    ensures 1 <= p
  {
    if k == 0 then 1 else 2 * Pow2(k - 1)
  }

  // ---------------------------------------------------------------------
  // Decimal rendering, as Python's f-strings print integers.

  predicate IsDigit(c: char) { '0' <= c <= '9' }

  predicate AllDigits(s: string) { forall i | 0 <= i < |s| :: IsDigit(s[i]) }

  function DigitChar(d: nat): (c: char)
    requires d < 10
    ensures IsDigit(c) && (c as int) - ('0' as int) == d
  {
    (('0' as int) + d) as char
  }

  /** `str(n)` for a non-negative integer: no sign, no leading zero. */
  function NatToString(n: nat): string
  {
    if n < 10 then [DigitChar(n)] else NatToString(n / 10) + [DigitChar(n % 10)]
  }

  /** The rendering is a non-empty run of digits with no leading zero. */
  lemma {:induction false} NatToStringDigits(n: nat)
    ensures var s := NatToString(n); 1 <= |s| && AllDigits(s) && (1 < |s| ==> s[0] != '0')
  {
    if n >= 10 {
      NatToStringDigits(n / 10);
    }
  }

  /** `str(i)` for any integer. */
  function IntToString(i: int): (s: string)
    ensures 1 <= |s|
    ensures i < 0 <==> s[0] == '-'
  {
    if i < 0 then "-" + NatToString(-i) else NatToStringDigits(i); NatToString(i)
  }

  /** The number a string of decimal digits denotes. */
  function DigitsValue(s: string): nat
    requires AllDigits(s)
  {
    if s == [] then 0
    else DigitsValue(s[..|s| - 1]) * 10 + ((s[|s| - 1] as int) - ('0' as int))
  }

  lemma {:induction false} NatToStringRoundTrip(n: nat)
    ensures AllDigits(NatToString(n)) && DigitsValue(NatToString(n)) == n
  {
    NatToStringDigits(n);
    if n >= 10 {
      var s := NatToString(n);
      assert s[..|s| - 1] == NatToString(n / 10);
      NatToStringRoundTrip(n / 10);
    }
  }

  /** `"0" * k + s` */
  function Zeros(k: nat): string
  {
    if k == 0 then [] else Zeros(k - 1) + "0"
  }

  lemma {:induction false} ZerosDigits(k: nat)
    ensures |Zeros(k)| == k && AllDigits(Zeros(k))
    ensures forall i | 0 <= i < k :: Zeros(k)[i] == '0'
  {
    if k > 0 {
      ZerosDigits(k - 1);
    }
  }

  lemma {:induction false} LeadingZerosKeepValue(k: nat, s: string)
    requires AllDigits(s)
    ensures AllDigits(Zeros(k) + s) && DigitsValue(Zeros(k) + s) == DigitsValue(s)
    decreases |s|
  {
    var t := Zeros(k) + s;
    ZerosDigits(k);
    assert AllDigits(t);
    if s == [] {
      assert t == Zeros(k);
      ZerosValue(k);
    } else {
      assert t[..|t| - 1] == Zeros(k) + s[..|s| - 1];
      LeadingZerosKeepValue(k, s[..|s| - 1]);
    }
  }

  lemma {:induction false} ZerosValue(k: nat)
    ensures AllDigits(Zeros(k)) && DigitsValue(Zeros(k)) == 0
  {
    ZerosDigits(k);
    if k > 0 {
      ZerosDigits(k - 1);
      assert Zeros(k)[..k - 1] == Zeros(k - 1);
      ZerosValue(k - 1);
    }
  }

  /** `f"{n:03d}"`: at least three digits, padded on the left with zeros. */
  function Format03(n: nat): string
  {
    var d := NatToString(n);
    if |d| >= 3 then d else Zeros(3 - |d|) + d
  }

  /** At least three digits; exactly three below 1000. */
  lemma Format03Digits(n: nat)
    ensures AllDigits(Format03(n)) && |Format03(n)| == Max(3, |NatToString(n)|)
    ensures n < 1000 ==> |Format03(n)| == 3
  {
    var d := NatToString(n);
    NatToStringDigits(n);
    NatToStringBound(n);
    if |d| < 3 {
      ZerosDigits(3 - |d|);
    }
  }

  lemma {:induction false} NatToStringBound(n: nat)
    ensures |NatToString(n)| < 3 ==> n < 100
    ensures n < 1000 ==> |NatToString(n)| <= 3
  {
    if n >= 10 { NatToStringBound(n / 10); }
  }

  /** Reading back a padded chunk number gives the number: the rendering is
      a round trip, so distinct chunk numbers get distinct text. */
  lemma Format03RoundTrip(n: nat)
    ensures AllDigits(Format03(n)) && DigitsValue(Format03(n)) == n
  {
    Format03Digits(n);
    var d := NatToString(n);
    NatToStringRoundTrip(n);
    if |d| < 3 {
      LeadingZerosKeepValue(3 - |d|, d);
    }
  }

  lemma Format03Injective(n: nat, m: nat)
    requires Format03(n) == Format03(m)
    ensures n == m
  {
    Format03RoundTrip(n);
    Format03RoundTrip(m);
  }

  // ---------------------------------------------------------------------
  // String operations of Python's `str` used by the source.

  /** `s.startswith(p)` */
  predicate StartsWith(s: string, p: string) { |p| <= |s| && s[..|p|] == p }

  /** `s.endswith(p)` */
  predicate EndsWith(s: string, p: string) { |p| <= |s| && s[|s| - |p|..] == p }

  lemma EndsWithAppend(s: string, p: string)
    ensures EndsWith(s + p, p)
  {
    assert (s + p)[|s|..] == p;
  }

  /** `s.split(c)[0]`: the text before the first `c`, or all of `s`. */
  function BeforeFirst(s: string, c: char): (r: string)
    ensures |r| <= |s| && r == s[..|r|]
    ensures c !in r
    ensures |r| < |s| ==> s[|r|] == c
  {
    if s == [] then []
    else if s[0] == c then []
    else [s[0]] + BeforeFirst(s[1..], c)
  }

  /** `s.replace(".mp4", ".avi")`: every non-overlapping occurrence, scanning
      from the left. */
  function Mp4ToAvi(s: string): (r: string)
    ensures |r| == |s|
  {
    if |s| < 4 then s
    else if s[..4] == ".mp4" then ".avi" + Mp4ToAvi(s[4..])
    else [s[0]] + Mp4ToAvi(s[1..])
  }

  /** A path that ends in ".mp4" is never left unchanged by the replacement,
      so the ".avi" fallback never writes to the path it was given. */
  lemma {:induction false} Mp4ToAviMovesMp4Paths(s: string)
    requires EndsWith(s, ".mp4")
    ensures Mp4ToAvi(s) != s
    decreases |s|
  {
    if s[..4] == ".mp4" {
      assert Mp4ToAvi(s)[..4] == ".avi";
    } else {
      assert |s| > 4;
      assert EndsWith(s[1..], ".mp4") by { assert s[1..][|s| - 1 - 4..] == s[|s| - 4..]; }
      Mp4ToAviMovesMp4Paths(s[1..]);
      assert Mp4ToAvi(s) == [s[0]] + Mp4ToAvi(s[1..]);
      assert Mp4ToAvi(s)[1..] == Mp4ToAvi(s[1..]);
    }
  }

  /** pathlib's `Path(p).name`: the text after the last '/'. */
  function BaseName(p: string): (r: string)
    ensures '/' !in r && EndsWith(p, r)
  {
    if p == [] then []
    else if p[|p| - 1] == '/' then []
    else
      var r := BaseName(p[..|p| - 1]) + [p[|p| - 1]];
      assert p[|p| - |r|..] == p[..|p| - 1][|p| - 1 - (|r| - 1)..] + [p[|p| - 1]];
      r
  }

  /** Index of the last `c` in `s`, or -1 (`str.rfind`). */
  function RFind(s: string, c: char): (i: int)
    ensures -1 <= i < |s|
    ensures 0 <= i ==> s[i] == c
    ensures forall j | i < j < |s| :: s[j] != c
  {
    if s == [] then -1
    else if s[|s| - 1] == c then |s| - 1
    else RFind(s[..|s| - 1], c)
  }

  /** pathlib's `Path(p).stem`: the final component without its last
      suffix; a leading dot or a trailing dot does not start a suffix. */
  function Stem(p: string): (r: string)
    ensures '/' !in r
  {
    var name := BaseName(p);
    var i := RFind(name, '.');
    if 0 < i < |name| - 1 then name[..i] else name
  }
}
