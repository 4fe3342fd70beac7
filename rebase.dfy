/**
 * `adjust_spot_price` (utili.py): rescales a material's full forecast so
 * that its value at the fixed anchor month equals the user's spot price.
 */
module Rebase {
  import opened Wrappers
  import opened ArgMap
  import opened Series

  /** `target_date = '2023-01-01'` */
  const Anchor := Month(2023, 1)

  /** The position of the first row dated d, if any. */
  function FirstIndexOf(rows: seq<Point>, d: Month): (r: Option<nat>)
    ensures r.Some? ==> r.value < |rows| && rows[r.value].ds == d
    ensures r.Some? ==> forall j :: 0 <= j < r.value ==> rows[j].ds != d
    ensures r.None? ==> forall j :: 0 <= j < |rows| ==> rows[j].ds != d
  {
    FirstIndexFrom(rows, d, 0)
  }

  /** The position of the first row dated d at or after position k, if any. */
  function FirstIndexFrom(rows: seq<Point>, d: Month, k: nat): (r: Option<nat>)
    requires k <= |rows|
    ensures r.Some? ==> k <= r.value < |rows| && rows[r.value].ds == d
    ensures r.Some? ==> forall j :: k <= j < r.value ==> rows[j].ds != d
    ensures r.None? ==> forall j :: k <= j < |rows| ==> rows[j].ds != d
    decreases |rows| - k
  {
    if k == |rows| then None
    else if rows[k].ds == d then Some(k)
    else FirstIndexFrom(rows, d, k + 1)
  }

  /** Where the first anchor row is depends on the dates only. */
  lemma FirstIndexOfSameDates(a: seq<Point>, b: seq<Point>, d: Month)
    requires Dates(a) == Dates(b)
    ensures FirstIndexOf(a, d) == FirstIndexOf(b, d)
  {
    var ia, ib := FirstIndexOf(a, d), FirstIndexOf(b, d);
    assert forall j :: 0 <= j < |a| ==> a[j].ds == Dates(a)[j] == Dates(b)[j] == b[j].ds;
    if ia.Some? && ib.Some? {
      assert !(ia.value < ib.value) && !(ib.value < ia.value);
    }
  }

  /** Every value v becomes `v / a * s`; the dates are kept. */
  function Rescaled(rows: seq<Point>, a: real, s: real): (r: seq<Point>)
    requires a != 0.0
    ensures |r| == |rows| && Dates(r) == Dates(rows)
    ensures forall i {:trigger r[i]} :: 0 <= i < |rows| ==> r[i].yhat1 == rows[i].yhat1 / a * s
  {
    seq(|rows|, i requires 0 <= i < |rows| => Point(rows[i].ds, rows[i].yhat1 / a * s))
  }

  /** Two sequences of points with the same dates and the same values are equal. */
  lemma PointsEqual(x: seq<Point>, y: seq<Point>)
    requires Dates(x) == Dates(y) && Values(x) == Values(y)
    ensures x == y
  {
    assert |x| == |Dates(x)| == |Dates(y)| == |y|;
    forall i | 0 <= i < |x|
      ensures x[i] == y[i]
    {
      assert x[i].ds == Dates(x)[i] == Dates(y)[i] == y[i].ds;
      assert x[i].yhat1 == Values(x)[i] == Values(y)[i] == y[i].yhat1;
    }
  }

  /**
   * The rebased rows: the value of the first row dated at the anchor is
   * looked up, then every value v becomes `v / anchorValue * spot`.
   */
  function Rebased(rows: seq<Point>, spot: Value): (r: Result<seq<Point>, EstimateError>)
    ensures FirstIndexOf(rows, Anchor).None? ==> r == Failure(AnchorMissing)
    ensures FirstIndexOf(rows, Anchor).Some? ==>
      var a := rows[FirstIndexOf(rows, Anchor).value].yhat1;
      && (a == 0.0 ==> r == Failure(AnchorZero))
      && (a != 0.0 && spot.Null? ==> r == Failure(NullValue))
      && (a != 0.0 && !spot.Null? ==> r.Success?)
    ensures r.Success? ==> |r.value| == |rows| && Dates(r.value) == Dates(rows)
    ensures r.Success? ==>
      var k := FirstIndexOf(rows, Anchor).value;
      forall i {:trigger r.value[i]} :: 0 <= i < |rows| ==> r.value[i].yhat1 == rows[i].yhat1 / rows[k].yhat1 * AsReal(spot).value
    ensures r.Success? ==> r.value[FirstIndexOf(rows, Anchor).value].yhat1 == AsReal(spot).value
  {
    match FirstIndexOf(rows, Anchor)
    case None => Failure(AnchorMissing)
    case Some(k) =>
      var a := rows[k].yhat1;
      if a == 0.0 then Failure(AnchorZero)
      else match AsReal(spot)
        case None => Failure(NullValue)
        case Some(s) => Success(Rescaled(rows, a, s))
  }

  /** Row j of a rebased forecast. */
  lemma RebasedAt(rows: seq<Point>, spot: Value, j: nat)
    requires Rebased(rows, spot).Success? && j < |rows|
    ensures FirstIndexOf(rows, Anchor).Some? && |Rebased(rows, spot).value| == |rows|
    ensures Rebased(rows, spot).value[j].yhat1 == rows[j].yhat1 / rows[FirstIndexOf(rows, Anchor).value].yhat1 * AsReal(spot).value
  {
  }

  /**
   * Row i of the last h rows of a rebased forecast, read off the forecast
   * itself at its position j.
   */
  lemma RebasedTailAt(full: seq<Point>, spot: Value, h: nat, i: nat, j: nat, tail: seq<Point>)
    requires h <= |full| && i < h && j == |full| - h + i && Rebased(full, spot).Success?
    requires tail == Tail(Rebased(full, spot).value, h)
    ensures i < h <= |full| && j < |full| && FirstIndexOf(full, Anchor).Some? && |tail| == h
    ensures tail[i].yhat1 == full[j].yhat1 / full[FirstIndexOf(full, Anchor).value].yhat1 * AsReal(spot).value
  {
    RebasedAt(full, spot, j);
    TailAt(Rebased(full, spot).value, h, i, j);
  }

  lemma RescaledRatio(u: real, v: real, a: real, s: real)
    requires a != 0.0 && s != 0.0 && v != 0.0
    ensures v / a * s != 0.0 && (u / a * s) / (v / a * s) == u / v
  {
    var c := s / a;
    assert c != 0.0;
    assert u / a * s == u * c && v / a * s == v * c;
    assert (u * c) / (v * c) == u / v;
  }

  /** Rebasing onto a non-zero spot price keeps the ratio between any two values. */
  lemma RebasedKeepsRatios(rows: seq<Point>, spot: Value, i: nat, j: nat)
    requires Rebased(rows, spot).Success? && AsReal(spot).value != 0.0
    requires i < |rows| && j < |rows| && rows[j].yhat1 != 0.0
    ensures Rebased(rows, spot).value[j].yhat1 != 0.0
    ensures Rebased(rows, spot).value[i].yhat1 / Rebased(rows, spot).value[j].yhat1 == rows[i].yhat1 / rows[j].yhat1
  {
    var a := rows[FirstIndexOf(rows, Anchor).value].yhat1;
    RescaledRatio(rows[i].yhat1, rows[j].yhat1, a, AsReal(spot).value);
  }

  lemma RescaleCancels(v: real, w: real, a: real, p: real, q: real)
    requires a != 0.0 && p != 0.0 && w == v / a * p
    ensures w / p * q == v / a * q
  {
    assert w / p == v / a;
  }

  lemma CommonFactorCancels(v: real, w: real, a: real, c: real, s: real)
    requires a != 0.0 && c != 0.0 && w == v * c
    ensures w / (a * c) * s == v / a * s
  {
    assert w / (a * c) == v / a;
  }

  /** Point sequences with the same dates and the same values, row by row, are equal. */
  lemma SameValuesEqual(x: seq<Point>, y: seq<Point>)
    requires Dates(x) == Dates(y) && |x| == |y|
    requires forall i :: 0 <= i < |x| ==> x[i].yhat1 == y[i].yhat1
    ensures x == y
  {
    assert Values(x) == Values(y);
    PointsEqual(x, y);
  }

  lemma RescaledTwice(rows: seq<Point>, a: real, p: real, q: real)
    requires a != 0.0 && p != 0.0
    ensures Rescaled(Rescaled(rows, a, p), p, q) == Rescaled(rows, a, q)
  {
    var once := Rescaled(rows, a, p);
    var x, y := Rescaled(once, p, q), Rescaled(rows, a, q);
    forall i | 0 <= i < |rows|
      ensures x[i].yhat1 == y[i].yhat1
    {
      var v, w := rows[i].yhat1, once[i].yhat1;
      assert w == v / a * p;
      RescaleCancels(v, w, a, p, q);
    }
    SameValuesEqual(x, y);
  }

  lemma RescaledLevel(rows: seq<Point>, a: real, c: real, s: real)
    requires a != 0.0 && c != 0.0
    ensures Rescaled(Scaled(rows, c), a * c, s) == Rescaled(rows, a, s)
  {
    var scaled := Scaled(rows, c);
    var x, y := Rescaled(scaled, a * c, s), Rescaled(rows, a, s);
    forall i | 0 <= i < |rows|
      ensures x[i].yhat1 == y[i].yhat1
    {
      var v, w := rows[i].yhat1, scaled[i].yhat1;
      assert w == v * c;
      CommonFactorCancels(v, w, a, c, s);
    }
    SameValuesEqual(x, y);
  }

  /**
   * Rebasing twice is rebasing once onto the second price: the first
   * spot price leaves no trace. With s2 == s1 this is idempotence.
   */
  lemma RebaseTwice(rows: seq<Point>, s1: Value, s2: Value)
    requires Rebased(rows, s1).Success? && AsReal(s1).value != 0.0
    ensures Rebased(Rebased(rows, s1).value, s2) == Rebased(rows, s2)
  {
    var once := Rebased(rows, s1).value;
    var k := FirstIndexOf(rows, Anchor).value;
    FirstIndexOfSameDates(once, rows, Anchor);
    var a, p := rows[k].yhat1, AsReal(s1).value;
    assert once == Rescaled(rows, a, p);
    assert once[k].yhat1 == p;
    if !s2.Null? {
      var q := AsReal(s2).value;
      RescaledTwice(rows, a, p, q);
    }
  }

  /** The rebased series does not depend on the price level of the model's own forecast. */
  lemma RebaseIgnoresLevel(rows: seq<Point>, c: real, spot: Value)
    requires c != 0.0
    ensures Rebased(Scaled(rows, c), spot) == Rebased(rows, spot)
  {
    var scaled := Scaled(rows, c);
    FirstIndexOfSameDates(scaled, rows, Anchor);
    if FirstIndexOf(rows, Anchor).Some? && !spot.Null? {
      var k := FirstIndexOf(rows, Anchor).value;
      var a, s := rows[k].yhat1, AsReal(spot).value;
      assert scaled[k].yhat1 == a * c;
      if a != 0.0 {
        RescaledLevel(rows, a, c, s);
      }
    }
  }

  /**
   * `adjust_spot_price(full, spot)`: overwrites the frame's `yhat1` column
   * with the rebased values and returns the same frame. On an error the
   * frame is left as it was.
   */
  method AdjustSpotPrice(f: Frame, spot: Value) returns (r: Result<Frame, EstimateError>)
    modifies f
    ensures Rebased(old(f.rows), spot).Success? ==> r == Success(f) && f.rows == Rebased(old(f.rows), spot).value
    ensures Rebased(old(f.rows), spot).Failure? ==>
      r == Failure(Rebased(old(f.rows), spot).error) && f.rows == old(f.rows)
  {
    var k := FirstIndexOf(f.rows, Anchor);
    if k.None? {
      return Failure(AnchorMissing);
    }
    var target := f.rows[k.value].yhat1;
    if target == 0.0 {
      return Failure(AnchorZero);
    }
    var s := AsReal(spot);
    if s.None? {
      return Failure(NullValue);
    }
    var rows := f.rows;
    var recalculated := seq(|rows|, i requires 0 <= i < |rows| => rows[i].yhat1 / target * s.value);
    f.rows := seq(|rows|, i requires 0 <= i < |rows| => Point(rows[i].ds, recalculated[i]));
    r := Success(f);
  }
}
