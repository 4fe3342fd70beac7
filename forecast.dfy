/**
 * The materials that utili.py prices and `porphet_predict`, with the
 * trained forecasting model reduced to its return contract.
 */
module Forecast {
  import opened Wrappers
  import opened ArgMap
  import opened Series
  import Validation

  /** One material block of `product_estimate_price`, each with its own model. */
  datatype Material =
    | Copper | Alu | St37 | LabourHours | MediumCarbon | HighCarbon
    | NonalloyCast | GreyCastIron | NodularCastIron

  /** The args key that carries the material's quantity. */
  function Key(m: Material): string {
    match m
    case Copper => "copper"
    case Alu => "alu"
    case St37 => "st37"
    case LabourHours => "labour_hours"
    case MediumCarbon => "medium_carbon"
    case HighCarbon => "high_carbon"
    case NonalloyCast => "nonalloy_cast"
    case GreyCastIron => "grey_cast_iron"
    case NodularCastIron => "nodular_cast_iron"
  }

  /** The material whose quantity a key carries, if any. */
  function MaterialOf(k: string): (r: Option<Material>)
    ensures r.Some? ==> Key(r.value) == k
    ensures r.None? ==> forall m: Material :: Key(m) != k
  {
    if k == "copper" then Some(Copper)
    else if k == "alu" then Some(Alu)
    else if k == "st37" then Some(St37)
    else if k == "labour_hours" then Some(LabourHours)
    else if k == "medium_carbon" then Some(MediumCarbon)
    else if k == "high_carbon" then Some(HighCarbon)
    else if k == "nonalloy_cast" then Some(NonalloyCast)
    else if k == "grey_cast_iron" then Some(GreyCastIron)
    else if k == "nodular_cast_iron" then Some(NodularCastIron)
    else None
  }

  /** Every material has its own key: reading the key back gives the material. */
  lemma KeyRoundTrip(m: Material)
    ensures MaterialOf(Key(m)) == Some(m)
  {
    match m
    case Copper =>
    case Alu =>
    case St37 =>
    case LabourHours =>
    case MediumCarbon =>
    case HighCarbon =>
    case NonalloyCast =>
    case GreyCastIron =>
    case NodularCastIron =>
  }

  /** The six steel and iron blocks that look for a `p_` spot price. */
  predicate Rebasable(m: Material) {
    m in {St37, MediumCarbon, HighCarbon, NonalloyCast, GreyCastIron, NodularCastIron}
  }

  /** The args key of the material's spot price. */
  function SpotKey(m: Material): string {
    "p_" + Key(m)
  }

  /** A spot-price key is `p_` followed by the material's key, so it determines the material's key. */
  lemma SpotKeyParts(m: Material)
    ensures |SpotKey(m)| == |Key(m)| + 2 && SpotKey(m)[..2] == "p_" && SpotKey(m)[2..] == Key(m)
  {
    assert SpotKey(m)[2..] == ("p_" + Key(m))[2..];
  }

  /**
   * The blocks that rebase are exactly the materials whose keys validation
   * counts, and their spot-price keys are the counted spot-price keys:
   * copper, alu and labour_hours are neither rebased nor checked.
   */
  lemma RebasableIsCounted(m: Material)
    ensures Rebasable(m) <==> Validation.IsMaterialKey(Key(m))
    ensures Rebasable(m) <==> Validation.IsSpotPriceKey(SpotKey(m))
  {
    var k := Key(m);
    SpotKeyParts(m);
    assert Validation.AfterPrefix(SpotKey(m)) == k;
    assert "months" != k;
    match m
    case Copper =>
    case Alu =>
    case St37 =>
      assert k[..2] == "st";
    case LabourHours =>
    case MediumCarbon =>
      assert k[..2] == "me";
    case HighCarbon =>
      assert k[..2] == "hi";
    case NonalloyCast =>
      assert k[..2] == "no";
    case GreyCastIron =>
      assert k[..2] == "gr";
    case NodularCastIron =>
      assert k[..2] == "no";
  }

  /**
   * The trained model of a material, fitted on its CSV history: asked for
   * h future months it yields the historic predictions followed by the h
   * future ones, so at least h rows, each dated at a month start that
   * renders as `YYYY-MM`.
   */
  type Oracle = f: (Material, nat) -> seq<Point> |
    && (forall m: Material, h: nat :: h <= |f(m, h)|)
    && (forall m: Material, h: nat, i :: 0 <= i < |f(m, h)| ==> ValidMonth(f(m, h)[i].ds))
    witness (m: Material, h: nat) => seq(h, i => Point(Month(2023, 1), 1.0))

  /**
   * `forecasting_period` as `make_future_dataframe` and `tail` use it: a
   * positive whole number of months; anything else is refused.
   */
  function Horizon(period: Value): (r: Result<nat, EstimateError>)
    ensures r.Success? <==> period.Whole? && period.n >= 1
    ensures r.Success? ==> r.value == period.n
    ensures r.Failure? ==> r.error == BadHorizon
  {
    if period.Whole? && period.n >= 1 then Success(period.n) else Failure(BadHorizon)
  }

  /** What `porphet_predict` returns: the last h rows, and the whole forecast. */
  function Predicted(oracle: Oracle, m: Material, h: nat): (r: (seq<Point>, seq<Point>))
    ensures r.1 == oracle(m, h)
    ensures |r.0| == h && forall i, j {:trigger r.0[i], r.1[j]} :: 0 <= i < h && j == |r.1| - h + i ==> r.0[i] == r.1[j]
    ensures forall i :: 0 <= i < h ==> ValidMonth(r.0[i].ds)
  {
    var full := oracle(m, h);
    TailMonthsValid(oracle, m, h);
    (Tail(full, h), full)
  }

  /** Every row of a forecast's tail renders as `YYYY-MM`, as every row of the forecast does. */
  lemma TailMonthsValid(oracle: Oracle, m: Material, h: nat)
    ensures forall i :: 0 <= i < h ==> ValidMonth(Tail(oracle(m, h), h)[i].ds)
  {
    var full := oracle(m, h);
    forall i | 0 <= i < h
      ensures ValidMonth(Tail(full, h)[i].ds)
    {
      TailAt(full, h, i, |full| - h + i);
    }
  }

  /**
   * `porphet_predict(model_name, csv_file_name, forecasting_period)`:
   * two new frames, the tail first and the full forecast second.
   */
  method PorphetPredict(oracle: Oracle, m: Material, period: Value) returns (r: Result<(Frame, Frame), EstimateError>)
    ensures Horizon(period).Failure? ==> r == Failure(BadHorizon)
    ensures Horizon(period).Success? ==>
      && r.Success? && fresh(r.value.0) && fresh(r.value.1) && r.value.0 != r.value.1
      && r.value.0.rows == Predicted(oracle, m, Horizon(period).value).0
      && r.value.1.rows == Predicted(oracle, m, Horizon(period).value).1
  {
    var h :- Horizon(period);
    var forecast := new Frame(oracle(m, h));
    var tail := forecast.TakeTail(h);
    r := Success((tail, forecast));
  }
}
