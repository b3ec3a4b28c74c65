/** The gesture classifier: how one drained block of photodiode samples
    updates the accumulated gesture state, and how that state is turned into
    a direction. These functions specify the driver's processGestureData and
    decodeGesture methods. */
module Gesture {

  datatype Option<T> = None | Some(value: T)

  // A sample must exceed this on all four photodiodes to take part.
  const THRESHOLD_OUT: int := 10
  // Accumulated ratio change that counts as a movement.
  const SENSITIVITY_1: int := 50
  // Per-drain ratio change below which the hand is considered still.
  const SENSITIVITY_2: int := 20

  const DIR_NONE: int := 0
  const DIR_LEFT: int := 1
  const DIR_RIGHT: int := 2
  const DIR_UP: int := 3
  const DIR_DOWN: int := 4
  const DIR_NEAR: int := 5
  const DIR_FAR: int := 6

  const NA_STATE: int := 0
  const NEAR_STATE: int := 1
  const FAR_STATE: int := 2

  /** The driver's auxiliary gesture state. */
  datatype Aux = Aux(
    udDelta: int, lrDelta: int,
    udCount: int, lrCount: int,
    nearCount: int, farCount: int,
    state: int, motion: int)

  /** The zero value resetGestureParameters installs. */
  const ZeroAux := Aux(0, 0, 0, 0, 0, 0, 0, 0)

  /** The values the classifier ever gives the counts and the state. */
  predicate AuxOk(a: Aux) {
    && -1 <= a.udCount <= 1 && -1 <= a.lrCount <= 1
    && NA_STATE <= a.state <= FAR_STATE
  }

  function Abs(x: int): (y: int)
    ensures y >= 0 && (y == x || y == -x)
  {
    if x < 0 then -x else x
  }

  /** Integer division truncating toward zero, as `int(float32(n) / float32(d))`
      computes for the operands the classifier divides. */
  function TruncDiv(n: int, d: int): (q: int)
    requires d > 0
    ensures 0 <= n ==> 0 <= q && q * d <= n < q * d + d
    ensures n < 0 ==> q <= 0 && q * d - d < n <= q * d
  {
    if n >= 0 then
      DivBounds(n, d);
      n / d
    else
      DivBounds(-n, d);
      assert -((-n) / d) * d == -(((-n) / d) * d);
      -((-n) / d)
  }

  /** Euclidean division of a non-negative dividend brackets it. */
  lemma DivBounds(m: int, d: int)
    requires m >= 0 && d > 0
    ensures 0 <= m / d && (m / d) * d <= m < (m / d) * d + d
  {
    assert m == (m / d) * d + m % d;
  }

  /** The all-photodiodes-above-threshold test of one sample group. */
  predicate UsableGroup(u: bv8, d: bv8, l: bv8, r: bv8) {
    && u as int > THRESHOLD_OUT && d as int > THRESHOLD_OUT
    && l as int > THRESHOLD_OUT && r as int > THRESHOLD_OUT
  }

  /** The threshold test of group i of the four sample sequences. */
  predicate Usable(u: seq<bv8>, d: seq<bv8>, l: seq<bv8>, r: seq<bv8>, i: int)
    requires 0 <= i < |u| && |u| == |d| == |l| == |r|
  {
    UsableGroup(u[i], d[i], l[i], r[i])
  }

  /** Truncating division is odd in its dividend. */
  lemma TruncDivOdd(n: int, d: int)
    requires d > 0
    ensures TruncDiv(-n, d) == -TruncDiv(n, d)
  {
  }

  /** A quotient truncated toward zero stays below k in magnitude when the
      dividend is below k times the divisor in magnitude. */
  lemma TruncDivBound(n: int, d: int, k: int)
    requires d > 0 && k >= 0 && -(k * d) < n < k * d
    ensures -k < TruncDiv(n, d) < k
  {
    var q := TruncDiv(n, d);
    if q >= k {
      assert q * d >= k * d by { MulMono(k, q, d); }
    } else if q <= -k {
      assert (-q) * d >= k * d by { MulMono(k, -q, d); }
    }
  }

  /** A truncated quotient has the sign of its dividend, or is 0. */
  lemma TruncDivSign(n: int, d: int)
    requires d > 0
    ensures n >= 0 ==> TruncDiv(n, d) >= 0
    ensures n <= 0 ==> TruncDiv(n, d) <= 0
  {
    if n == 0 {
      assert TruncDiv(n, d) == 0 / d == 0;
    }
  }

  lemma MulMono(a: int, b: int, d: int)
    requires a <= b && d > 0
    ensures a * d <= b * d
  {
  }

  /** The normalised difference `(a - b) * 100 / (a + b)` of two photodiode
      readings, truncated toward zero: strictly between -100 and 100, and
      signed as a - b. */
  function Ratio(a: bv8, b: bv8): (q: int)
    requires a as int > THRESHOLD_OUT && b as int > THRESHOLD_OUT
    ensures -100 < q < 100
    ensures (a as int >= b as int ==> q >= 0) && (a as int <= b as int ==> q <= 0)
  {
    var x, y := a as int, b as int;
    var n := 100 * (x - y);
    var s := x + y;
    assert -(100 * s) < n < 100 * s;
    TruncDivBound(n, s, 100);
    TruncDivSign(n, s);
    TruncDiv(n, s)
  }

  /** Swapping the two readings negates the ratio. */
  lemma RatioAntisymmetric(a: bv8, b: bv8)
    requires a as int > THRESHOLD_OUT && b as int > THRESHOLD_OUT
    ensures Ratio(a, b) == -Ratio(b, a)
  {
    var n := 100 * (a as int - b as int);
    assert 100 * (b as int - a as int) == -n;
    TruncDivOdd(n, a as int + b as int);
  }

  /** The first usable group among the first n, searching upward. */
  function First(u: seq<bv8>, d: seq<bv8>, l: seq<bv8>, r: seq<bv8>, i: nat, n: nat): (res: Option<nat>)
    requires i <= n <= |u| && |u| == |d| == |l| == |r|
    ensures res.Some? ==> i <= res.value < n && Usable(u, d, l, r, res.value)
    ensures res.Some? ==> forall j :: i <= j < res.value ==> !Usable(u, d, l, r, j)
    ensures res.None? ==> forall j :: i <= j < n ==> !Usable(u, d, l, r, j)
    decreases n - i
  {
    if i == n then None
    else if Usable(u, d, l, r, i) then Some(i)
    else First(u, d, l, r, i + 1, n)
  }

  /** The last usable group among the first n, searching downward from n. */
  function Last(u: seq<bv8>, d: seq<bv8>, l: seq<bv8>, r: seq<bv8>, n: nat): (res: Option<nat>)
    requires n <= |u| && |u| == |d| == |l| == |r|
    ensures res.Some? ==> res.value < n && Usable(u, d, l, r, res.value)
    ensures res.Some? ==> forall j :: res.value < j < n ==> !Usable(u, d, l, r, j)
    ensures res.None? ==> forall j :: 0 <= j < n ==> !Usable(u, d, l, r, j)
  {
    if n == 0 then None
    else if Usable(u, d, l, r, n - 1) then Some(n - 1)
    else Last(u, d, l, r, n - 1)
  }

  /** The upward and downward searches agree on whether a usable group exists,
      and the first one found never lies after the last one. */
  lemma {:induction false} FirstLastAgree(u: seq<bv8>, d: seq<bv8>, l: seq<bv8>, r: seq<bv8>, n: nat)
    requires n <= |u| && |u| == |d| == |l| == |r|
    ensures First(u, d, l, r, 0, n).Some? <==> Last(u, d, l, r, n).Some?
    ensures First(u, d, l, r, 0, n).Some? ==> First(u, d, l, r, 0, n).value <= Last(u, d, l, r, n).value
  {
    var f := First(u, d, l, r, 0, n);
    var g := Last(u, d, l, r, n);
    assert f.Some? ==> Usable(u, d, l, r, f.value);
    assert g.Some? ==> Usable(u, d, l, r, g.value);
  }

  /** The movement count derived from an accumulated ratio change. */
  function Discretise(sum: int): (c: int)
    ensures c == 1 <==> sum >= SENSITIVITY_1
    ensures c == -1 <==> sum <= -SENSITIVITY_1
    ensures c == 0 <==> -SENSITIVITY_1 < sum < SENSITIVITY_1
  {
    if sum >= SENSITIVITY_1 then 1 else if sum <= -SENSITIVITY_1 then -1 else 0
  }

  /** The sums grown by a drain's ratio changes, with the counts derived
      from them. */
  function Counted(a: Aux, ud: int, lr: int): (res: Aux)
    ensures res.udDelta == a.udDelta + ud && res.lrDelta == a.lrDelta + lr
    ensures res.udCount == Discretise(res.udDelta) && res.lrCount == Discretise(res.lrDelta)
    ensures res.(udDelta := a.udDelta, lrDelta := a.lrDelta, udCount := a.udCount, lrCount := a.lrCount) == a
  {
    var sums := a.(udDelta := a.udDelta + ud, lrDelta := a.lrDelta + lr);
    sums.(udCount := Discretise(sums.udDelta), lrCount := Discretise(sums.lrDelta))
  }

  /** The near/far bookkeeping, from the counts just derived and this drain's
      own ratio changes. */
  function NearFar(a: Aux, ud: int, lr: int): (res: Aux) {
    if a.udCount == 0 && a.lrCount == 0 then
      if Abs(ud) < SENSITIVITY_2 && Abs(lr) < SENSITIVITY_2 then
        var counted :=
          if ud == 0 && lr == 0 then a.(nearCount := a.nearCount + 1)
          else a.(farCount := a.farCount + 1);
        if counted.nearCount >= 10 && counted.farCount >= 2 then
          if ud == 0 && lr == 0 then counted.(state := NEAR_STATE)
          else if ud != 0 && lr != 0 then counted.(state := FAR_STATE)
          else counted
        else counted
      else a
    else if Abs(ud) < SENSITIVITY_2 && Abs(lr) < SENSITIVITY_2 && ud == 0 && lr == 0 then
      var counted := a.(nearCount := a.nearCount + 1);
      if counted.nearCount >= 10 then counted.(udCount := 0, lrCount := 0, udDelta := 0, lrDelta := 0)
      else counted
    else a
  }

  /** The ratio changes between the first and the last usable group. */
  function Deltas(u: seq<bv8>, d: seq<bv8>, l: seq<bv8>, r: seq<bv8>, first: nat, last: nat): (ds: (int, int))
    requires first < |u| && last < |u| && |u| == |d| == |l| == |r|
    requires Usable(u, d, l, r, first) && Usable(u, d, l, r, last)
    ensures -200 < ds.0 < 200 && -200 < ds.1 < 200
    ensures first == last ==> ds == (0, 0)
  {
    (Ratio(u[last], d[last]) - Ratio(u[first], d[first]),
     Ratio(l[last], r[last]) - Ratio(l[first], r[first]))
  }

  /** What processGestureData does to the gesture state for the first n
      sample groups. */
  function Process(a: Aux, u: seq<bv8>, d: seq<bv8>, l: seq<bv8>, r: seq<bv8>, n: nat): (res: Aux)
    requires n <= |u| && |u| == |d| == |l| == |r|
    ensures res.motion == a.motion
  {
    if n <= 4 then a
    else
      match First(u, d, l, r, 0, n)
      case None => a
      case Some(first) =>
        FirstLastAgree(u, d, l, r, n);
        var last := Last(u, d, l, r, n).value;
        var (ud, lr) := Deltas(u, d, l, r, first, last);
        NearFar(Counted(a, ud, lr), ud, lr)
  }

  /** With usable groups found at first and last, processing accumulates
      their ratio changes. */
  lemma ProcessFound(a: Aux, u: seq<bv8>, d: seq<bv8>, l: seq<bv8>, r: seq<bv8>, n: nat, first: nat, last: nat)
    requires n <= |u| && |u| == |d| == |l| == |r| && n > 4
    requires First(u, d, l, r, 0, n) == Some(first) && Last(u, d, l, r, n) == Some(last)
    ensures first < |u| && last < |u| && Usable(u, d, l, r, first) && Usable(u, d, l, r, last)
    ensures var ud := Ratio(u[last], d[last]) - Ratio(u[first], d[first]);
      var lr := Ratio(l[last], r[last]) - Ratio(l[first], r[first]);
      Process(a, u, d, l, r, n) == NearFar(Counted(a, ud, lr), ud, lr)
  {
  }

  /** Too few groups, or no usable group, leave the state as it was. */
  lemma ProcessIgnoresUnusableBlock(a: Aux, u: seq<bv8>, d: seq<bv8>, l: seq<bv8>, r: seq<bv8>, n: nat)
    requires n <= |u| && |u| == |d| == |l| == |r|
    requires n <= 4 || forall j :: 0 <= j < n ==> !Usable(u, d, l, r, j)
    ensures Process(a, u, d, l, r, n) == a
  {
    assert n > 4 ==> First(u, d, l, r, 0, n).None?;
  }

  /** With a usable group, the sums grow by the ratio change between the
      first and the last usable group, and unless the near counter resets
      them, each count is the sum discretised at plus or minus 50. */
  lemma ProcessAccumulates(a: Aux, u: seq<bv8>, d: seq<bv8>, l: seq<bv8>, r: seq<bv8>, n: nat, first: nat, last: nat)
    requires n <= |u| && |u| == |d| == |l| == |r| && n > 4
    requires first < n && Usable(u, d, l, r, first) && forall j :: 0 <= j < first ==> !Usable(u, d, l, r, j)
    requires last < n && Usable(u, d, l, r, last) && forall j :: last < j < n ==> !Usable(u, d, l, r, j)
    ensures var res := Process(a, u, d, l, r, n);
      var ud := Ratio(u[last], d[last]) - Ratio(u[first], d[first]);
      var lr := Ratio(l[last], r[last]) - Ratio(l[first], r[first]);
      || (res.udDelta == 0 && res.lrDelta == 0 && res.udCount == 0 && res.lrCount == 0
          && ud == 0 && lr == 0 && res.nearCount == a.nearCount + 1 && res.nearCount >= 10)
      || (&& res.udDelta == a.udDelta + ud && res.lrDelta == a.lrDelta + lr
          && res.udCount == Discretise(res.udDelta) && res.lrCount == Discretise(res.lrDelta))
  {
    assert First(u, d, l, r, 0, n) == Some(first);
    assert Last(u, d, l, r, n) == Some(last);
  }

  /** The classifier keeps the counts in -1..1 and the state in NA..FAR. */
  lemma ProcessKeepsAuxOk(a: Aux, u: seq<bv8>, d: seq<bv8>, l: seq<bv8>, r: seq<bv8>, n: nat)
    requires n <= |u| && |u| == |d| == |l| == |r| && AuxOk(a)
    ensures AuxOk(Process(a, u, d, l, r, n))
  {
  }

  /** The near/far rules: with both counts zero and a still hand, a drain with
      no change counts as near and any other as far, and once there have been
      ten near and two far drains the state becomes NEAR on a no-change drain
      and FAR on a drain where both ratios moved; with a count set, ten near
      drains reset the counts and sums; the motion never changes. */
  lemma NearFarRules(a: Aux, ud: int, lr: int)
    ensures var res := NearFar(a, ud, lr);
      var still := Abs(ud) < SENSITIVITY_2 && Abs(lr) < SENSITIVITY_2;
      var zero := ud == 0 && lr == 0;
      && res.motion == a.motion
      && (a.udCount == 0 && a.lrCount == 0 && still ==>
            && res.nearCount == a.nearCount + (if zero then 1 else 0)
            && res.farCount == a.farCount + (if zero then 0 else 1)
            && res.(nearCount := a.nearCount, farCount := a.farCount, state := a.state) == a
            && res.state == (if res.nearCount >= 10 && res.farCount >= 2 && zero then NEAR_STATE
                             else if res.nearCount >= 10 && res.farCount >= 2 && ud != 0 && lr != 0 then FAR_STATE
                             else a.state))
      && ((a.udCount != 0 || a.lrCount != 0) && zero ==>
            && res.nearCount == a.nearCount + 1 && res.farCount == a.farCount && res.state == a.state
            && (res.nearCount >= 10 ==> res.udCount == 0 && res.lrCount == 0 && res.udDelta == 0 && res.lrDelta == 0)
            && (res.nearCount < 10 ==> res == a.(nearCount := a.nearCount + 1)))
      && ((a.udCount != 0 || a.lrCount != 0) && !zero ==> res == a)
      && (!still ==> res == a)
  {
  }

  /** What decodeGesture does: a NEAR or FAR state decides the motion;
      otherwise the pair of counts selects a direction, and a pair outside
      the table leaves the motion as it was. */
  function Decode(a: Aux): (res: Aux)
    ensures res == a.(motion := res.motion)
  {
    if a.state == NEAR_STATE then a.(motion := DIR_NEAR)
    else if a.state == FAR_STATE then a.(motion := DIR_FAR)
    else if a.udCount == -1 && a.lrCount == 0 then a.(motion := DIR_UP)
    else if a.udCount == 1 && a.lrCount == 0 then a.(motion := DIR_DOWN)
    else if a.udCount == 0 && a.lrCount == 1 then a.(motion := DIR_RIGHT)
    else if a.udCount == 0 && a.lrCount == -1 then a.(motion := DIR_LEFT)
    else if a.udCount == -1 && a.lrCount == 1 then
      a.(motion := if Abs(a.udCount) > Abs(a.lrCount) then DIR_UP else DIR_RIGHT)
    else if a.udCount == 1 && a.lrCount == -1 then
      a.(motion := if Abs(a.udCount) > Abs(a.lrCount) then DIR_DOWN else DIR_LEFT)
    else if a.udCount == -1 && a.lrCount == -1 then
      a.(motion := if Abs(a.udCount) > Abs(a.lrCount) then DIR_UP else DIR_LEFT)
    else if a.udCount == 1 && a.lrCount == 1 then
      a.(motion := if Abs(a.udCount) > Abs(a.lrCount) then DIR_DOWN else DIR_RIGHT)
    else a
  }

  /** The direction table of decodeGesture for a classifier state. A
      diagonal pair always resolves to the horizontal direction, because
      the vertical count never exceeds the horizontal one in magnitude. */
  lemma DecodeTable(a: Aux)
    requires AuxOk(a)
    ensures a.state == NEAR_STATE ==> Decode(a).motion == DIR_NEAR
    ensures a.state == FAR_STATE ==> Decode(a).motion == DIR_FAR
    ensures a.state == NA_STATE ==>
      (Decode(a).motion ==
        if a.lrCount == 1 then DIR_RIGHT
        else if a.lrCount == -1 then DIR_LEFT
        else if a.udCount == -1 then DIR_UP
        else if a.udCount == 1 then DIR_DOWN
        else a.motion)
  {
  }

  /** Decoding twice is decoding once. */
  lemma DecodeIdempotent(a: Aux)
    ensures Decode(Decode(a)) == Decode(a)
  {
  }

  /** A block of samples whose first usable group sees the hand on the up
      photodiode and whose last usable group sees it on the down photodiode. */
  function SwipeSamples(first: bv8, last: bv8): (s: seq<bv8>)
    ensures |s| == 32 && s[0] == first && s[9] == last
    ensures forall i :: 0 < i < 32 && i != 9 ==> s[i] == 0
  {
    seq(32, i => if i == 0 then first else if i == 9 then last else 0)
  }

  /** Ten groups starting at (100, 20, 60, 60) and ending at (20, 100, 60, 60)
      move the up/down ratio from 66 to -66, and decode as UP from the reset
      state. */
  lemma UpwardSwipeDecodesUp()
    ensures var u, d, lr := SwipeSamples(100, 20), SwipeSamples(20, 100), SwipeSamples(60, 60);
      var res := Decode(Process(ZeroAux, u, d, lr, lr, 10));
      && res.udDelta == -132 && res.lrDelta == 0
      && res.udCount == -1 && res.lrCount == 0
      && res.motion == DIR_UP
  {
    var u, d, lr := SwipeSamples(100, 20), SwipeSamples(20, 100), SwipeSamples(60, 60);
    assert Ratio(100, 20) == 66;
    assert Ratio(20, 100) == -66;
    assert Ratio(60, 60) == 0;
    ProcessAccumulates(ZeroAux, u, d, lr, lr, 10, 0, 9);
  }
}
