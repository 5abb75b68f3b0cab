/**
 * Geometry and arithmetic helpers of Crystal Rush (js/utils.js).
 * JavaScript numbers are modelled as exact reals; whole-number quantities
 * (seconds on the clock) as nat.
 */
module Utils {

  datatype Option<T> = None | Some(value: T)

  /** An axis-aligned rectangle: top-left corner and size. */
  datatype Rect = Rect(x: real, y: real, width: real, height: real)

  function Min(a: real, b: real): real { if a <= b then a else b }
  function Max(a: real, b: real): real { if a >= b then a else b }

  predicate PositiveSize(r: Rect) { r.width > 0.0 && r.height > 0.0 }

  /**
   * Strict AABB overlap. For rectangles of positive size: on each axis the
   * open extents of the two rectangles intersect, so rectangles that only
   * touch along an edge do not collide.
   */
  function CheckCollision(r1: Rect, r2: Rect): (b: bool)
    ensures PositiveSize(r1) && PositiveSize(r2) ==> (b <==> (Max(r1.x, r2.x) < Min(r1.x + r1.width, r2.x + r2.width)
                 && Max(r1.y, r2.y) < Min(r1.y + r1.height, r2.y + r2.height)))
  {
    r1.x < r2.x + r2.width &&
    r1.x + r1.width > r2.x &&
    r1.y < r2.y + r2.height &&
    r1.y + r1.height > r2.y
  }

  lemma CollisionSymmetric(r1: Rect, r2: Rect)
    ensures CheckCollision(r1, r2) == CheckCollision(r2, r1)
  {
  }

  /** Rectangles that share only an edge (one ends where the other starts) do not collide. */
  lemma EdgeTouchingDoesNotCollide(r1: Rect, r2: Rect)
    requires r1.x + r1.width == r2.x || r2.x + r2.width == r1.x
          || r1.y + r1.height == r2.y || r2.y + r2.height == r1.y
    ensures !CheckCollision(r1, r2)
  {
  }

  /** Math.max(min, Math.min(max, value)); when min > max the lower bound wins. */
  function Clamp(value: real, lo: real, hi: real): (r: real)
    ensures lo <= hi ==> lo <= r <= hi
    ensures lo <= value <= hi ==> r == value
    ensures value < lo ==> r == lo
    ensures lo <= hi < value ==> r == hi
    ensures hi < lo ==> r == lo
  {
    Max(lo, Min(hi, value))
  }

  function Lerp(start: real, end: real, amount: real): (r: real)
    ensures amount == 0.0 ==> r == start
    ensures amount == 1.0 ==> r == end
    ensures 0.0 <= amount <= 1.0 ==> Min(start, end) <= r <= Max(start, end)
  {
    LerpBetween(start, end, amount);
    start + (end - start) * amount
  }

  lemma LerpBetween(start: real, end: real, amount: real)
    ensures 0.0 <= amount <= 1.0 ==>
      Min(start, end) <= start + (end - start) * amount <= Max(start, end)
  {
    if 0.0 <= amount <= 1.0 {
      var d := end - start;
      if d >= 0.0 {
        ScaleWithin(d, amount);
      } else {
        ScaleWithin(-d, amount);
        assert d * amount == -((-d) * amount);
      }
    }
  }

  /** Scaling a non-negative distance by a factor in [0, 1] stays within [0, distance]. */
  lemma ScaleWithin(d: real, k: real)
    requires d >= 0.0 && 0.0 <= k <= 1.0
    ensures 0.0 <= d * k <= d
  {
    assert d * k + d * (1.0 - k) == d;
    assert d * (1.0 - k) >= 0.0 by { NonNegProduct(d, 1.0 - k); }
    NonNegProduct(d, k);
  }

  lemma NonNegProduct(a: real, b: real)
    requires a >= 0.0 && b >= 0.0
    ensures a * b >= 0.0
  {
  }

  /** Inclusive point-in-rectangle test: all four edges belong to the rectangle. */
  function PointInRect(px: real, py: real, rect: Rect): bool
  {
    px >= rect.x && px <= rect.x + rect.width &&
    py >= rect.y && py <= rect.y + rect.height
  }

  /** The four corners of a rectangle of non-negative size lie inside it. */
  lemma CornersInRect(r: Rect)
    requires r.width >= 0.0 && r.height >= 0.0
    ensures PointInRect(r.x, r.y, r) && PointInRect(r.x + r.width, r.y, r)
    ensures PointInRect(r.x, r.y + r.height, r) && PointInRect(r.x + r.width, r.y + r.height, r)
  {
  }

  /**
   * Colliding rectangles share a point: the corner where their overlap
   * begins lies (inclusively) in both.
   */
  lemma CollisionCommonPoint(r1: Rect, r2: Rect) returns (px: real, py: real)
    requires r1.width >= 0.0 && r1.height >= 0.0 && r2.width >= 0.0 && r2.height >= 0.0
    requires CheckCollision(r1, r2)
    ensures PointInRect(px, py, r1) && PointInRect(px, py, r2)
  {
    px, py := Max(r1.x, r2.x), Max(r1.y, r2.y);
  }

  // ---------------------------------------------------------------------
  // Decimal rendering of whole numbers (Number.prototype.toString, padStart)

  predicate IsDigit(c: char) { '0' <= c <= '9' }

  predicate AllDigits(s: string) { forall i :: 0 <= i < |s| ==> IsDigit(s[i]) }

  function DigitChar(d: nat): (c: char)
    requires d < 10
    ensures IsDigit(c)
  {
    (48 + d) as char
  }

  function DigitValue(c: char): (d: nat)
    requires IsDigit(c)
    ensures d < 10
  {
    (c as int) - 48
  }

  /** Value of a string of decimal digits (what parseInt yields for it). */
  function DigitsValue(s: string): nat
    requires AllDigits(s)
    decreases |s|
  {
    if |s| == 0 then 0 else 10 * DigitsValue(s[..|s| - 1]) + DigitValue(s[|s| - 1])
  }

  /** Shortest decimal rendering of n, as `String(n)` gives it. */
  function NatToString(n: nat): (s: string)
    ensures |s| >= 1 && AllDigits(s)
    ensures n < 10 <==> |s| == 1
    decreases n
  {
    if n < 10 then [DigitChar(n)] else NatToString(n / 10) + [DigitChar(n % 10)]
  }

  /** Reading back the decimal rendering gives the number. */
  lemma {:induction false} NatToStringRoundTrip(n: nat)
    ensures DigitsValue(NatToString(n)) == n
    decreases n
  {
    if n >= 10 {
      var s := NatToString(n);
      assert s[..|s| - 1] == NatToString(n / 10);
      NatToStringRoundTrip(n / 10);
    }
  }

  function Repeat(c: char, n: nat): (s: string)
    ensures |s| == n && forall i :: 0 <= i < n ==> s[i] == c
  {
    if n == 0 then [] else [c] + Repeat(c, n - 1)
  }

  /** String.prototype.padStart with a one-character pad string. */
  function PadStart(s: string, target: nat, pad: char): (r: string)
    ensures |s| >= target ==> r == s
    ensures |s| < target ==> |r| == target && r[target - |s|..] == s
    ensures forall i :: 0 <= i < |r| - |s| ==> r[i] == pad
  {
    if |s| >= target then s else Repeat(pad, target - |s|) + s
  }

  // ---------------------------------------------------------------------
  // formatTime: "M:SS"

  /** `${mins}:${secs padded to 2}` for a whole, non-negative number of seconds. */
  function FormatTime(seconds: nat): (r: string)
    ensures ClockSeconds(r) == Some(seconds)
  {
    var mins := seconds / 60;
    var secs := seconds % 60;
    FormatTimeParses(mins, secs);
    NatToString(mins) + ":" + PadStart(NatToString(secs), 2, '0')
  }

  /**
   * Reads a clock string back: one or more minute digits, a colon, then
   * exactly two second digits standing for less than 60.
   */
  function ClockSeconds(s: string): Option<nat>
  {
    if |s| >= 4 && s[|s| - 3] == ':' && AllDigits(s[..|s| - 3]) && AllDigits(s[|s| - 2..])
       && DigitsValue(s[|s| - 2..]) < 60
    then Some(60 * DigitsValue(s[..|s| - 3]) + DigitsValue(s[|s| - 2..]))
    else None
  }

  lemma FormatTimeParses(mins: nat, secs: nat)
    requires secs < 60
    ensures ClockSeconds(NatToString(mins) + ":" + PadStart(NatToString(secs), 2, '0'))
         == Some(60 * mins + secs)
  {
    var m := NatToString(mins);
    var p := PadStart(NatToString(secs), 2, '0');
    assert |m| >= 1 && AllDigits(m) && DigitsValue(m) == mins by {
      NatToStringRoundTrip(mins);
    }
    assert |p| == 2 && AllDigits(p) && DigitsValue(p) == secs by {
      PaddedSeconds(secs);
    }
    ClockOfParts(m, p, mins, secs);
  }

  /** Seconds below 60 pad to exactly two digits that read back as the seconds. */
  lemma PaddedSeconds(secs: nat)
    requires secs < 60
    ensures var p := PadStart(NatToString(secs), 2, '0');
      |p| == 2 && AllDigits(p) && DigitsValue(p) == secs
  {
    NatToStringRoundTrip(secs);
    var s := NatToString(secs);
    var p := PadStart(s, 2, '0');
    if secs < 10 {
      assert p == ['0'] + s;
      assert p[..1] == ['0'] && ['0'][..0] == [];
      assert s == [p[1]] && [p[1]][..0] == [];
    } else {
      assert s == NatToString(secs / 10) + [DigitChar(secs % 10)];
      assert |s| == 2;
    }
  }

  lemma ClockOfParts(m: string, p: string, mins: nat, secs: nat)
    requires |m| >= 1 && AllDigits(m) && DigitsValue(m) == mins
    requires |p| == 2 && AllDigits(p) && DigitsValue(p) == secs && secs < 60
    ensures ClockSeconds(m + ":" + p) == Some(60 * mins + secs)
  {
    var s := m + ":" + p;
    assert s[..|s| - 3] == m;
    assert s[|s| - 2..] == p;
  }

  // ---------------------------------------------------------------------
  // Lists without repetitions

  /** No element occurs twice: each one is absent from the part of the list before it. */
  predicate Distinct<T(==)>(s: seq<T>)
    decreases |s|
  {
    |s| == 0 || (s[|s| - 1] !in s[..|s| - 1] && Distinct(s[..|s| - 1]))
  }

  /** Two positions of a list without repetitions hold different elements. */
  lemma {:induction false} DistinctApart<T>(s: seq<T>, i: int, j: int)
    requires Distinct(s) && 0 <= i < |s| && 0 <= j < |s| && i != j
    ensures s[i] != s[j]
    decreases |s|
  {
    var n := |s| - 1;
    if i < n && j < n {
      DistinctApart(s[..n], i, j);
    } else if i == n {
      assert s[j] in s[..n];
    } else {
      assert s[i] in s[..n];
    }
  }

  lemma DistinctSnoc<T>(s: seq<T>, x: T)
    requires Distinct(s) && x !in s
    ensures Distinct(s + [x])
  {
    assert (s + [x])[..|s|] == s;
  }
}
