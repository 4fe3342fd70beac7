/**
 * `product_estimate_price` (utili.py): one block per material key present
 * in args, run in a fixed order. A block forecasts the material, rebases
 * the forecast when its spot price is given, multiplies it by the quantity
 * and adds it, position by position, into a running total. The `ds`
 * column comes from the first block that ran in a fixed fallback order.
 */
module Aggregate {
  import opened Wrappers
  import opened ArgMap
  import opened Series
  import opened Rebase
  import opened Forecast

  /** `forecasting_period` when args has no `months`. */
  const DefaultMonths := 24

  /** The order in which the nine blocks run. */
  const ProcessingOrder: seq<Material> :=
    [Copper, Alu, St37, LabourHours, MediumCarbon, HighCarbon, NonalloyCast, GreyCastIron, NodularCastIron]

  /** The order in which the `ds` column falls back from one block's frame to the next. */
  const AxisOrder: seq<Material> :=
    [Alu, St37, LabourHours, GreyCastIron, NodularCastIron, NonalloyCast, MediumCarbon, Copper, HighCarbon]

  lemma EveryMaterialListed(m: Material)
    ensures m in ProcessingOrder && m in AxisOrder
  {
    match m
    case Copper =>
      assert ProcessingOrder[0] == m && AxisOrder[7] == m;
    case Alu =>
      assert ProcessingOrder[1] == m && AxisOrder[0] == m;
    case St37 =>
      assert ProcessingOrder[2] == m && AxisOrder[1] == m;
    case LabourHours =>
      assert ProcessingOrder[3] == m && AxisOrder[2] == m;
    case MediumCarbon =>
      assert ProcessingOrder[4] == m && AxisOrder[6] == m;
    case HighCarbon =>
      assert ProcessingOrder[5] == m && AxisOrder[8] == m;
    case NonalloyCast =>
      assert ProcessingOrder[6] == m && AxisOrder[5] == m;
    case GreyCastIron =>
      assert ProcessingOrder[7] == m && AxisOrder[3] == m;
    case NodularCastIron =>
      assert ProcessingOrder[8] == m && AxisOrder[4] == m;
  }

  /** `forecasting_period`: `args['months']` when present, otherwise 24. */
  function Period(args: Args): (v: Value)
    ensures "months" !in args.vals ==> Horizon(v) == Success(DefaultMonths)
  {
    if "months" in args.vals then args.vals["months"] else Whole(DefaultMonths)
  }

  lemma {:induction false} TailSameDates(a: seq<Point>, b: seq<Point>, n: nat)
    requires Dates(a) == Dates(b)
    ensures Dates(Tail(a, n)) == Dates(Tail(b, n))
  {
    assert |a| == |Dates(a)| == |Dates(b)| == |b|;
    if n < |a| {
      DatesSlice(a, 1);
      DatesSlice(b, 1);
      TailSameDates(a[1..], b[1..], n);
    }
  }

  // ---------------------------------------------------------------------
  // One block

  /**
   * The series a present block multiplies by its quantity: its tail, or,
   * for one of the six steel and iron blocks whose `p_` key is present,
   * the last h rows of the rebased full forecast.
   */
  function Baseline(args: Args, oracle: Oracle, h: nat, m: Material): (r: Result<seq<Point>, EstimateError>)
    ensures r.Success? ==> |r.value| == h && Dates(r.value) == Dates(Predicted(oracle, m, h).0)
    ensures r.Failure? ==> r.error in {AnchorMissing, AnchorZero, NullValue}
  {
    var (tail, full) := Predicted(oracle, m, h);
    if Rebasable(m) && SpotKey(m) in args.vals then
      var adjusted :- Rebased(full, args.vals[SpotKey(m)]);
      TailSameDates(adjusted, full, h);
      Success(Tail(adjusted, h))
    else
      Success(tail)
  }

  /** The months of a block's series are those of its forecast's tail, all renderable. */
  lemma PredictedMonthsValid(oracle: Oracle, m: Material, h: nat, rows: seq<Point>)
    requires Dates(rows) == Dates(Predicted(oracle, m, h).0)
    ensures forall i :: 0 <= i < |rows| ==> ValidMonth(rows[i].ds)
  {
    var (tail, full) := Predicted(oracle, m, h);
    forall i | 0 <= i < |rows|
      ensures ValidMonth(rows[i].ds)
    {
      assert rows[i].ds == Dates(rows)[i] == Dates(tail)[i] == tail[i].ds;
    }
  }

  /** `frame['yhat1'] *= quantity`: None as a quantity is a TypeError. */
  function Scale(base: Result<seq<Point>, EstimateError>, quantity: Value): (r: Result<seq<Point>, EstimateError>)
    ensures r.Success? <==> base.Success? && !quantity.Null?
    ensures r.Success? ==> |r.value| == |base.value| && Dates(r.value) == Dates(base.value)
    ensures r.Success? ==> forall i :: 0 <= i < |r.value| ==> r.value[i].yhat1 == base.value[i].yhat1 * AsReal(quantity).value
    ensures r.Failure? ==> if base.Failure? then r.error == base.error else r.error == NullValue
  {
    var b :- base;
    match AsReal(quantity)
    case None => Failure(NullValue)
    case Some(q) => Success(Scaled(b, q))
  }

  /** `args[key]`, read only by a block whose key is present. */
  function Quantity(args: Args, m: Material): Value {
    if Key(m) in args.vals then args.vals[Key(m)] else Null
  }

  /**
   * What block m leaves in its `*_predicted_values` frame: the forecast
   * (rebased when asked) scaled by the quantity, or the error that ends
   * the run.
   */
  function Outcome(args: Args, oracle: Oracle, m: Material): (r: Result<seq<Point>, EstimateError>)
    ensures r.Success? ==> Horizon(Period(args)).Success?
    ensures r.Success? ==> |r.value| == Horizon(Period(args)).value
    ensures r.Success? ==> Dates(r.value) == Dates(Predicted(oracle, m, Horizon(Period(args)).value).0)
    ensures r.Failure? ==> r.error in {BadHorizon, AnchorMissing, AnchorZero, NullValue}
  {
    var h :- Horizon(Period(args));
    Scale(Baseline(args, oracle, h, m), Quantity(args, m))
  }

  /** The outcome of every block, as one function of the material. */
  type Outcomes = Material -> Result<seq<Point>, EstimateError>

  function AllOutcomes(args: Args, oracle: Oracle): Outcomes {
    m => Outcome(args, oracle, m)
  }

  /** The number of rows a successful block yields. */
  function RowCount(args: Args): nat {
    match Horizon(Period(args))
    case Success(h) => h
    case Failure(_) => 0
  }

  /** Every successful outcome has n rows, each dated at a renderable month. */
  predicate Shaped(out: Outcomes, n: nat) {
    forall m :: out(m).Success? ==>
      && |out(m).value| == n
      && forall i :: 0 <= i < n ==> ValidMonth(out(m).value[i].ds)
  }

  lemma OutcomesShaped(args: Args, oracle: Oracle)
    ensures Shaped(AllOutcomes(args, oracle), RowCount(args))
  {
    var out := AllOutcomes(args, oracle);
    forall m | out(m).Success?
      ensures |out(m).value| == RowCount(args)
      ensures forall i :: 0 <= i < RowCount(args) ==> ValidMonth(out(m).value[i].ds)
    {
      assert out(m) == Outcome(args, oracle, m);
      PredictedMonthsValid(oracle, m, RowCount(args), out(m).value);
    }
  }

  // ---------------------------------------------------------------------
  // The run

  /** `total_product_values`: the integer 0 until the first block adds a series. */
  datatype Total = Zero | Sum(values: seq<real>)

  /** The running total at position i, reading the untouched 0 as 0 everywhere. */
  function At(t: Total, i: int): real {
    if t.Sum? && 0 <= i < |t.values| then t.values[i] else 0.0
  }

  /** `total_product_values += series`: positional addition. */
  function Plus(t: Total, xs: seq<real>): (r: Total)
    requires t.Sum? ==> |t.values| == |xs|
    ensures r.Sum? && |r.values| == |xs|
    ensures forall i :: 0 <= i < |xs| ==> r.values[i] == At(t, i) + xs[i]
  {
    match t
    case Zero => Sum(xs)
    case Sum(v) => Sum(seq(|xs|, i requires 0 <= i < |xs| => v[i] + xs[i]))
  }

  /**
   * The locals of `product_estimate_price` between blocks: the running
   * total, the scaled frame of every block that ran (the
   * `*_predicted_values` variables the fallback reads), and the blocks
   * that called the model, in order.
   */
  datatype Locals = Locals(total: Total, computed: map<Material, seq<Point>>, called: seq<Material>)

  const Start := Locals(Zero, map[], [])

  /** Every frame in the locals, and the total once it is a series, has n rows. */
  predicate Fits(st: Locals, n: nat) {
    && (st.total.Sum? ==> |st.total.values| == n)
    && (forall m :: m in st.computed ==>
          && st.total.Sum? && |st.computed[m]| == n
          && forall i :: 0 <= i < n ==> ValidMonth(st.computed[m][i].ds))
  }

  /** One `if '<material>' in args:` block. */
  function Step(args: Args, out: Outcomes, n: nat, st: Locals, m: Material): (r: Result<Locals, EstimateError>)
    requires Shaped(out, n) && Fits(st, n)
    ensures r.Success? <==> (Key(m) in args.vals ==> out(m).Success?)
    ensures r.Success? ==> Fits(r.value, n)
    ensures r.Failure? ==> r.error == out(m).error
  {
    if Key(m) !in args.vals then Success(st)
    else
      var c :- out(m);
      Success(Locals(Plus(st.total, Values(c)), st.computed[m := c], st.called + [m]))
  }

  /** The blocks ms run one after the other; the first failing block ends the run. */
  function Accumulate(args: Args, out: Outcomes, n: nat, st: Locals, ms: seq<Material>): (r: Result<Locals, EstimateError>)
    requires Shaped(out, n) && Fits(st, n)
    ensures r.Success? ==> Fits(r.value, n)
    ensures r.Failure? ==> exists m :: m in ms && Key(m) in args.vals && out(m).Failure? && r.error == out(m).error
    decreases |ms|
  {
    if ms == [] then Success(st)
    else
      var next :- Step(args, out, n, st, ms[0]);
      Accumulate(args, out, n, next, ms[1..])
  }

  /** The first material of order that is in s. */
  function FirstIn(order: seq<Material>, s: set<Material>): (r: Option<Material>)
    ensures r.None? <==> forall j :: 0 <= j < |order| ==> order[j] !in s
    ensures r.Some? ==> r.value in s
    ensures r.Some? ==> exists j :: 0 <= j < |order| && order[j] == r.value && (forall l :: 0 <= l < j ==> order[l] !in s)
  {
    if order == [] then None
    else if order[0] in s then Some(order[0])
    else
      var r := FirstIn(order[1..], s);
      assert forall j :: 1 <= j < |order| ==> order[j] == order[1..][j - 1];
      if r.Some? then
        var j :| 0 <= j < |order[1..]| && order[1..][j] == r.value && forall l :: 0 <= l < j ==> order[1..][l] !in s;
        assert order[j + 1] == r.value;
        r
      else r
  }

  /** One element of `total_product_df.to_dict(orient='records')`. */
  datatype Record = Record(ds: string, totalProductValue: real)

  lemma FormatThenParseAll(dates: seq<Month>)
    requires forall i :: 0 <= i < |dates| ==> ValidMonth(dates[i])
    ensures forall i :: 0 <= i < |dates| ==> ParseMonth(FormatMonth(dates[i])) == Some(dates[i])
  {
    forall i | 0 <= i < |dates|
      ensures ParseMonth(FormatMonth(dates[i])) == Some(dates[i])
    {
      FormatThenParse(dates[i]);
    }
  }

  /** The records: each date rendered `YYYY-MM`, paired with the total at its position. */
  function Records(dates: seq<Month>, totals: seq<real>): (r: seq<Record>)
    requires |dates| == |totals|
    requires forall i :: 0 <= i < |dates| ==> ValidMonth(dates[i])
    ensures |r| == |dates|
    ensures forall i :: 0 <= i < |r| ==> ParseMonth(r[i].ds) == Some(dates[i]) && r[i].totalProductValue == totals[i]
  {
    FormatThenParseAll(dates);
    seq(|dates|, i requires 0 <= i < |dates| => Record(FormatMonth(dates[i]), totals[i]))
  }

  /** After the blocks: the `ds` fallback chain, then the records. */
  function Finish(st: Locals, n: nat): (r: Result<seq<Record>, EstimateError>)
    requires Fits(st, n)
    ensures r.Failure? <==> st.computed == map[]
    ensures r.Failure? ==> r.error == NoMaterial
    ensures r.Success? ==> |r.value| == n
  {
    match FirstIn(AxisOrder, st.computed.Keys)
    case None =>
      assert forall m :: m in st.computed ==> m in AxisOrder by {
        forall m | m in st.computed ensures m in AxisOrder { EveryMaterialListed(m); }
      }
      Failure(NoMaterial)
    case Some(axis) => Success(Records(Dates(st.computed[axis]), st.total.values))
  }

  /** `product_estimate_price(args)`. */
  function EstimatePrice(args: Args, oracle: Oracle): Result<seq<Record>, EstimateError> {
    OutcomesShaped(args, oracle);
    var st :- Accumulate(args, AllOutcomes(args, oracle), RowCount(args), Start, ProcessingOrder);
    Finish(st, RowCount(args))
  }

  // ---------------------------------------------------------------------
  // What a run computes

  /** Block m's value at position i: its frame's row i, or 0 when the block adds nothing. */
  function Part(args: Args, out: Outcomes, m: Material, i: int): real {
    if Key(m) in args.vals && out(m).Success? && 0 <= i < |out(m).value| then out(m).value[i].yhat1 else 0.0
  }

  /** The sum of the blocks' values at position i. */
  function SumParts(args: Args, out: Outcomes, ms: seq<Material>, i: int): real {
    if ms == [] then 0.0 else Part(args, out, ms[0], i) + SumParts(args, out, ms[1..], i)
  }

  /** The blocks of ms whose key is present, in order: the blocks that call the model. */
  function Present(args: Args, ms: seq<Material>): (r: seq<Material>)
    ensures forall m :: m in r <==> m in ms && Key(m) in args.vals
  {
    if ms == [] then []
    else (if Key(ms[0]) in args.vals then [ms[0]] else []) + Present(args, ms[1..])
  }

  lemma StepAdds(args: Args, out: Outcomes, n: nat, st: Locals, m: Material, i: int)
    requires Shaped(out, n) && Fits(st, n) && Step(args, out, n, st, m).Success?
    requires 0 <= i < n
    ensures At(Step(args, out, n, st, m).value.total, i) == At(st.total, i) + Part(args, out, m, i)
  {
    if Key(m) in args.vals {
      var c := out(m).value;
      assert Values(c)[i] == c[i].yhat1;
    }
  }

  /** After a successful run, position i of the total holds the sum of the blocks' values there. */
  lemma {:induction false} AccumulateAdds(args: Args, out: Outcomes, n: nat, st: Locals, ms: seq<Material>, i: int)
    requires Shaped(out, n) && Fits(st, n) && Accumulate(args, out, n, st, ms).Success?
    requires 0 <= i < n
    ensures At(Accumulate(args, out, n, st, ms).value.total, i) == At(st.total, i) + SumParts(args, out, ms, i)
    decreases |ms|
  {
    if ms != [] {
      var next := Step(args, out, n, st, ms[0]).value;
      StepAdds(args, out, n, st, ms[0], i);
      AccumulateAdds(args, out, n, next, ms[1..], i);
    }
  }

  /** A run succeeds exactly when every present block of it succeeds. */
  lemma {:induction false} AccumulateSucceedsIff(args: Args, out: Outcomes, n: nat, st: Locals, ms: seq<Material>)
    requires Shaped(out, n) && Fits(st, n)
    ensures Accumulate(args, out, n, st, ms).Success? <==>
      forall m :: m in ms && Key(m) in args.vals ==> out(m).Success?
    decreases |ms|
  {
    if ms != [] {
      assert forall m :: m in ms <==> m == ms[0] || m in ms[1..];
      var step := Step(args, out, n, st, ms[0]);
      if step.Success? {
        AccumulateSucceedsIff(args, out, n, step.value, ms[1..]);
      }
    }
  }

  /** A successful run leaves a frame for exactly the present blocks, beside the ones it started with. */
  lemma {:induction false} AccumulateKeys(args: Args, out: Outcomes, n: nat, st: Locals, ms: seq<Material>)
    requires Shaped(out, n) && Fits(st, n) && Accumulate(args, out, n, st, ms).Success?
    ensures forall m :: m in Accumulate(args, out, n, st, ms).value.computed <==>
      m in st.computed || (m in ms && Key(m) in args.vals)
    decreases |ms|
  {
    if ms != [] {
      var next := Step(args, out, n, st, ms[0]).value;
      AccumulateKeys(args, out, n, next, ms[1..]);
      assert forall m :: m in ms <==> m == ms[0] || m in ms[1..];
    }
  }

  /** Each frame a successful run leaves for a present block is that block's outcome. */
  lemma {:induction false} AccumulateFrames(args: Args, out: Outcomes, n: nat, st: Locals, ms: seq<Material>)
    requires Shaped(out, n) && Fits(st, n) && Accumulate(args, out, n, st, ms).Success?
    requires forall m :: m in st.computed ==> out(m).Success? && st.computed[m] == out(m).value
    ensures forall m :: m in Accumulate(args, out, n, st, ms).value.computed ==>
      out(m).Success? && Accumulate(args, out, n, st, ms).value.computed[m] == out(m).value
    decreases |ms|
  {
    if ms != [] {
      var next := Step(args, out, n, st, ms[0]).value;
      AccumulateFrames(args, out, n, next, ms[1..]);
    }
  }

  /** A successful run calls the model once per present block, in the order the blocks run. */
  lemma {:induction false} AccumulateCalls(args: Args, out: Outcomes, n: nat, st: Locals, ms: seq<Material>)
    requires Shaped(out, n) && Fits(st, n) && Accumulate(args, out, n, st, ms).Success?
    ensures Accumulate(args, out, n, st, ms).value.called == st.called + Present(args, ms)
    decreases |ms|
  {
    if ms != [] {
      var next := Step(args, out, n, st, ms[0]).value;
      AccumulateCalls(args, out, n, next, ms[1..]);
      if Key(ms[0]) in args.vals {
        assert next.called == st.called + [ms[0]];
        assert Present(args, ms) == [ms[0]] + Present(args, ms[1..]);
      } else {
        assert Present(args, ms) == [] + Present(args, ms[1..]);
      }
    }
  }

  // ---------------------------------------------------------------------
  // Properties of `product_estimate_price`

  lemma StartFits(n: nat)
    ensures Fits(Start, n)
  {
  }

  /** Some block of args calls the model. */
  ghost predicate AnyPresent(args: Args) {
    exists m: Material :: Key(m) in args.vals
  }

  /** A run from the start over blocks ms that list every material, for any outcomes of the right shape. */
  lemma RunFromStart(args: Args, out: Outcomes, n: nat, ms: seq<Material>)
    requires Shaped(out, n) && forall m: Material :: m in ms
    ensures Fits(Start, n)
    ensures var run := Accumulate(args, out, n, Start, ms);
      && (run.Success? <==> forall m: Material :: Key(m) in args.vals ==> out(m).Success?)
      && (run.Success? ==> forall m: Material :: m in run.value.computed <==> Key(m) in args.vals)
      && (run.Success? ==> forall m: Material :: m in run.value.computed ==>
            out(m).Success? && run.value.computed[m] == out(m).value)
      && (run.Success? ==> run.value.called == Present(args, ms))
      && (run.Failure? ==> exists m: Material :: out(m).Failure? && run.error == out(m).error)
  {
    StartFits(n);
    AccumulateSucceedsIff(args, out, n, Start, ms);
    var run := Accumulate(args, out, n, Start, ms);
    if run.Success? {
      AccumulateKeys(args, out, n, Start, ms);
      AccumulateFrames(args, out, n, Start, ms);
      AccumulateCalls(args, out, n, Start, ms);
    }
  }

  /** The run from the start, over all nine blocks. */
  lemma RunFacts(args: Args, oracle: Oracle)
    ensures Shaped(AllOutcomes(args, oracle), RowCount(args)) && Fits(Start, RowCount(args))
    ensures var run := Accumulate(args, AllOutcomes(args, oracle), RowCount(args), Start, ProcessingOrder);
      && (run.Success? <==> forall m: Material :: Key(m) in args.vals ==> Outcome(args, oracle, m).Success?)
      && (run.Success? ==> forall m: Material :: m in run.value.computed <==> Key(m) in args.vals)
      && (run.Success? ==> forall m: Material :: m in run.value.computed ==>
            Outcome(args, oracle, m).Success? && run.value.computed[m] == Outcome(args, oracle, m).value)
      && (run.Success? ==> run.value.called == Present(args, ProcessingOrder))
      && (run.Failure? ==> run.error != NoMaterial)
  {
    OutcomesShaped(args, oracle);
    forall m: Material
      ensures m in ProcessingOrder
    {
      EveryMaterialListed(m);
    }
    RunFromStart(args, AllOutcomes(args, oracle), RowCount(args), ProcessingOrder);
  }

  /**
   * The estimate succeeds exactly when some material is present and every
   * present block succeeds.
   */
  lemma EstimatePriceSucceedsIff(args: Args, oracle: Oracle)
    ensures EstimatePrice(args, oracle).Success? <==>
      AnyPresent(args) && forall m: Material :: Key(m) in args.vals ==> Outcome(args, oracle, m).Success?
  {
    RunFacts(args, oracle);
  }

  /** No material at all, and only then, leaves the `ds` column without a frame. */
  lemma NoMaterialIff(args: Args, oracle: Oracle)
    ensures EstimatePrice(args, oracle) == Failure(NoMaterial) <==> !AnyPresent(args)
  {
    RunFacts(args, oracle);
  }

  /** A successful estimate has one record per forecast month: `months`, or 24 by default. */
  lemma OutputLength(args: Args, oracle: Oracle)
    requires EstimatePrice(args, oracle).Success?
    ensures "months" in args.vals ==> args.vals["months"] == Whole(|EstimatePrice(args, oracle).value|)
    ensures "months" !in args.vals ==> |EstimatePrice(args, oracle).value| == DefaultMonths
  {
    RunFacts(args, oracle);
    var m: Material :| Key(m) in args.vals;
    assert Outcome(args, oracle, m).Success?;
  }

  /** Row i of a successful estimate carries the sum over all present blocks of their row i. */
  lemma TotalIsSumOfParts(args: Args, oracle: Oracle)
    requires EstimatePrice(args, oracle).Success?
    ensures var r := EstimatePrice(args, oracle).value;
      forall i :: 0 <= i < |r| ==>
        r[i].totalProductValue == SumParts(args, AllOutcomes(args, oracle), ProcessingOrder, i)
  {
    var out, n := AllOutcomes(args, oracle), RowCount(args);
    RunFacts(args, oracle);
    var st := Accumulate(args, out, n, Start, ProcessingOrder).value;
    var axis := FirstIn(AxisOrder, st.computed.Keys).value;
    assert axis in st.computed;
    var r := EstimatePrice(args, oracle).value;
    forall i | 0 <= i < |r|
      ensures r[i].totalProductValue == SumParts(args, out, ProcessingOrder, i)
    {
      AccumulateAdds(args, out, n, Start, ProcessingOrder, i);
      assert r[i].totalProductValue == st.total.values[i] == At(st.total, i);
    }
  }

  /**
   * With one material present, row i of the estimate carries that block's
   * row i: the other eight blocks add nothing.
   */
  lemma SingleBlockTotals(args: Args, oracle: Oracle, m: Material)
    requires EstimatePrice(args, oracle).Success?
    requires Key(m) in args.vals && forall m2: Material :: m2 != m ==> Key(m2) !in args.vals
    ensures Outcome(args, oracle, m).Success?
    ensures var r, o := EstimatePrice(args, oracle).value, Outcome(args, oracle, m).value;
      |r| == |o| && forall i :: 0 <= i < |r| ==> r[i].totalProductValue == o[i].yhat1
  {
    var out := AllOutcomes(args, oracle);
    EstimatePriceSucceedsIff(args, oracle);
    OutputLength(args, oracle);
    TotalIsSumOfParts(args, oracle);
    var r, o := EstimatePrice(args, oracle).value, Outcome(args, oracle, m).value;
    forall i | 0 <= i < |r|
      ensures r[i].totalProductValue == o[i].yhat1
    {
      SingleBlockSum(args, out, m, i);
    }
  }

  /** With only m's key present, the sum over the processing order is m's part. */
  lemma SingleBlockSum(args: Args, out: Outcomes, m: Material, i: int)
    requires forall m2: Material :: m2 != m ==> Key(m2) !in args.vals
    ensures SumParts(args, out, ProcessingOrder, i) == Part(args, out, m, i)
  {
    var pre, post := ProcessingOrderSplit(m);
    assert ProcessingOrder == pre + ([m] + post);
    SumPartsAppend(args, out, pre, [m] + post, i);
    SumPartsAbsent(args, out, pre, i);
    SumPartsAbsent(args, out, post, i);
    assert ([m] + post)[1..] == post;
  }

  /** Blocks whose key is absent add nothing. */
  lemma {:induction false} SumPartsAbsent(args: Args, out: Outcomes, ms: seq<Material>, i: int)
    requires forall m :: m in ms ==> Key(m) !in args.vals
    ensures SumParts(args, out, ms, i) == 0.0
  {
    if ms != [] {
      SumPartsAbsent(args, out, ms[1..], i);
    }
  }

  /** What `Finish` reads: the frame of the first block in the fallback order, and the total. */
  lemma FinishReads(st: Locals, n: nat) returns (axis: Material)
    requires Fits(st, n) && st.computed != map[]
    ensures axis in st.computed && FirstIn(AxisOrder, st.computed.Keys) == Some(axis)
    ensures Finish(st, n).Success? && |Finish(st, n).value| == n
    ensures forall i :: 0 <= i < n ==>
      && ParseMonth(Finish(st, n).value[i].ds) == Some(st.computed[axis][i].ds)
      && Finish(st, n).value[i].totalProductValue == st.total.values[i]
  {
    var m0 :| m0 in st.computed;
    EveryMaterialListed(m0);
    var k :| 0 <= k < |AxisOrder| && AxisOrder[k] == m0;
    axis := FirstIn(AxisOrder, st.computed.Keys).value;
    var c := st.computed[axis];
    forall i | 0 <= i < n
      ensures Dates(c)[i] == c[i].ds
    {
    }
  }

  /** The `ds` column comes from the first block in the fallback order that left a frame. */
  lemma FinishFirstAxis(st: Locals, n: nat) returns (j: nat)
    requires Fits(st, n) && st.computed != map[]
    ensures j < |AxisOrder| && AxisOrder[j] in st.computed
    ensures forall l :: 0 <= l < j ==> AxisOrder[l] !in st.computed
    ensures Finish(st, n).Success? && |Finish(st, n).value| == n
    ensures forall i :: 0 <= i < n ==> ParseMonth(Finish(st, n).value[i].ds) == Some(st.computed[AxisOrder[j]][i].ds)
  {
    var axis := FinishReads(st, n);
    j :| 0 <= j < |AxisOrder| && AxisOrder[j] == axis && forall l :: 0 <= l < j ==> AxisOrder[l] !in st.computed.Keys;
  }

  /** The locals a successful estimate finishes from. */
  lemma SuccessfulRun(args: Args, oracle: Oracle) returns (st: Locals)
    requires EstimatePrice(args, oracle).Success?
    ensures Fits(st, RowCount(args)) && st.computed != map[]
    ensures EstimatePrice(args, oracle) == Finish(st, RowCount(args))
    ensures forall m: Material :: m in st.computed <==> Key(m) in args.vals
    ensures forall m :: m in st.computed ==>
      Outcome(args, oracle, m).Success? && st.computed[m] == Outcome(args, oracle, m).value
  {
    RunFacts(args, oracle);
    st := Accumulate(args, AllOutcomes(args, oracle), RowCount(args), Start, ProcessingOrder).value;
    var m :| Key(m) in args.vals;
    assert m in st.computed;
  }

  /** The total a successful estimate finishes from holds the sums of the block values. */
  lemma SuccessfulTotals(args: Args, oracle: Oracle) returns (st: Locals)
    requires EstimatePrice(args, oracle).Success?
    ensures Fits(st, RowCount(args)) && st.computed != map[]
    ensures EstimatePrice(args, oracle) == Finish(st, RowCount(args))
    ensures st.total.Sum? && forall i :: 0 <= i < RowCount(args) ==>
      st.total.values[i] == SumParts(args, AllOutcomes(args, oracle), ProcessingOrder, i)
  {
    var out, n := AllOutcomes(args, oracle), RowCount(args);
    OutcomesShaped(args, oracle);
    StartFits(n);
    st := Accumulate(args, out, n, Start, ProcessingOrder).value;
    forall i | 0 <= i < n
      ensures At(st.total, i) == SumParts(args, out, ProcessingOrder, i)
    {
      AccumulateAdds(args, out, n, Start, ProcessingOrder, i);
    }
  }

  /**
   * The records r are dated by the forecast of AxisOrder[j], the first
   * material in the fallback order whose key is present.
   */
  ghost predicate DatedBy(args: Args, oracle: Oracle, r: seq<Record>, j: int) {
    && 0 <= j < |AxisOrder| && Key(AxisOrder[j]) in args.vals
    && (forall l :: 0 <= l < j ==> Key(AxisOrder[l]) !in args.vals)
    && forall i :: 0 <= i < |r| ==> ParseMonth(r[i].ds) == Some(Predicted(oracle, AxisOrder[j], |r|).0[i].ds)
  }

  /**
   * The `ds` column of a successful estimate is the forecast months of the
   * first material in the fallback order whose key is present.
   */
  lemma DatesFromFirstPresent(args: Args, oracle: Oracle)
    requires EstimatePrice(args, oracle).Success?
    ensures exists j :: DatedBy(args, oracle, EstimatePrice(args, oracle).value, j)
  {
    var out, n := AllOutcomes(args, oracle), RowCount(args);
    OutcomesShaped(args, oracle);
    StartFits(n);
    assert Accumulate(args, out, n, Start, ProcessingOrder).Success?;
    var st := RunFrom(args, out, n, ProcessingOrder);
    var r := EstimatePrice(args, oracle).value;
    assert r == Finish(st, n).value;
    var m0 :| Key(m0) in args.vals;
    EveryMaterialListed(m0);
    assert m0 in st.computed;
    var j := FinishFirstAxis(st, n);
    var axis := AxisOrder[j];
    var c := st.computed[axis];
    assert out(axis) == Outcome(args, oracle, axis);
    var tail := Predicted(oracle, axis, n).0;
    assert Dates(c) == Dates(tail);
    forall i | 0 <= i < |r|
      ensures ParseMonth(r[i].ds) == Some(tail[i].ds)
    {
      assert c[i].ds == Dates(c)[i] == Dates(tail)[i] == tail[i].ds;
    }
    forall l | 0 <= l < j
      ensures Key(AxisOrder[l]) !in args.vals
    {
      EveryMaterialListed(AxisOrder[l]);
    }
    assert DatedBy(args, oracle, r, j);
  }

  // ---------------------------------------------------------------------
  // Order of the blocks

  lemma {:induction false} SumPartsAppend(args: Args, out: Outcomes, a: seq<Material>, b: seq<Material>, i: int)
    ensures SumParts(args, out, a + b, i) == SumParts(args, out, a, i) + SumParts(args, out, b, i)
    decreases |a|
  {
    if a == [] {
      assert a + b == b;
    } else {
      assert (a + b)[0] == a[0] && (a + b)[1..] == a[1..] + b;
      SumPartsAppend(args, out, a[1..], b, i);
    }
  }

  /** Taking the same element out of two permutations of each other leaves two permutations. */
  lemma RemoveFromBoth(a: seq<Material>, b: seq<Material>, j: nat)
    requires |a| > 0 && j < |b| && b[j] == a[0] && multiset(a) == multiset(b)
    ensures multiset(a[1..]) == multiset(b[..j] + b[j + 1..])
  {
    var x, b1, b2 := a[0], b[..j], b[j + 1..];
    assert a == [x] + a[1..];
    assert b == b1 + [x] + b2;
    assert multiset(a) == multiset{x} + multiset(a[1..]);
    assert multiset(b) == multiset{x} + multiset(b1 + b2) by {
      assert multiset(b) == multiset(b1) + multiset{x} + multiset(b2);
      assert multiset(b1 + b2) == multiset(b1) + multiset(b2);
    }
    assert multiset(a[1..]) == multiset(a) - multiset{x};
    assert multiset(b1 + b2) == multiset(b) - multiset{x};
  }

  /** Adding the blocks' values up in any order gives the same sum. */
  lemma {:induction false} SumPartsPermutation(args: Args, out: Outcomes, a: seq<Material>, b: seq<Material>, i: int)
    requires multiset(a) == multiset(b)
    ensures SumParts(args, out, a, i) == SumParts(args, out, b, i)
    decreases |a|
  {
    if a == [] {
      assert b == [] by {
        assert |b| == |multiset(b)| == 0;
      }
    } else {
      var x := a[0];
      assert x in multiset(b);
      var j :| 0 <= j < |b| && b[j] == x;
      var b1, b2 := b[..j], b[j + 1..];
      assert b == b1 + [x] + b2;
      assert a == [x] + a[1..];
      RemoveFromBoth(a, b, j);
      SumPartsPermutation(args, out, a[1..], b1 + b2, i);
      SumPartsAppend(args, out, b1, b2, i);
      SumPartsAppend(args, out, b1 + [x], b2, i);
      SumPartsAppend(args, out, b1, [x], i);
      assert SumParts(args, out, [x], i) == Part(args, out, x, i) + SumParts(args, out, [], i);
    }
  }

  /** What a successful run over any sequence of blocks leaves behind. */
  lemma RunFrom(args: Args, out: Outcomes, n: nat, ms: seq<Material>) returns (st: Locals)
    requires Shaped(out, n) && Fits(Start, n) && Accumulate(args, out, n, Start, ms).Success?
    ensures st == Accumulate(args, out, n, Start, ms).value && Fits(st, n)
    ensures forall m :: m in st.computed <==> m in ms && Key(m) in args.vals
    ensures forall m :: m in st.computed ==> out(m).Success? && st.computed[m] == out(m).value
  {
    st := Accumulate(args, out, n, Start, ms).value;
    AccumulateKeys(args, out, n, Start, ms);
    AccumulateFrames(args, out, n, Start, ms);
  }

  lemma FramesAgree(x: map<Material, seq<Point>>, y: map<Material, seq<Point>>, out: Outcomes)
    requires forall m :: m in x <==> m in y
    requires forall m :: m in x ==> out(m).Success? && x[m] == out(m).value
    requires forall m :: m in y ==> out(m).Success? && y[m] == out(m).value
    ensures x == y
  {
    assert x.Keys == y.Keys;
  }

  /** Two runs over the same blocks in different orders leave the same frames and total. */
  lemma PermutedRun(args: Args, out: Outcomes, n: nat, ms1: seq<Material>, ms2: seq<Material>)
    requires Shaped(out, n) && Fits(Start, n) && multiset(ms1) == multiset(ms2)
    requires Accumulate(args, out, n, Start, ms1).Success?
    ensures Accumulate(args, out, n, Start, ms2).Success?
    ensures Accumulate(args, out, n, Start, ms2).value.computed == Accumulate(args, out, n, Start, ms1).value.computed
    ensures Accumulate(args, out, n, Start, ms1).value.computed != map[] ==>
      Accumulate(args, out, n, Start, ms2).value.total == Accumulate(args, out, n, Start, ms1).value.total
    ensures Finish(Accumulate(args, out, n, Start, ms2).value, n) == Finish(Accumulate(args, out, n, Start, ms1).value, n)
  {
    assert forall m :: m in ms1 <==> m in ms2 by {
      forall m ensures m in ms1 <==> m in ms2 {
        assert m in ms1 <==> m in multiset(ms1);
      }
    }
    AccumulateSucceedsIff(args, out, n, Start, ms1);
    AccumulateSucceedsIff(args, out, n, Start, ms2);
    var s1 := RunFrom(args, out, n, ms1);
    var s2 := RunFrom(args, out, n, ms2);
    FramesAgree(s1.computed, s2.computed, out);
    if s1.computed != map[] {
      forall i | 0 <= i < n
        ensures s1.total.values[i] == s2.total.values[i]
      {
        AccumulateAdds(args, out, n, Start, ms1, i);
        AccumulateAdds(args, out, n, Start, ms2, i);
        SumPartsPermutation(args, out, ms1, ms2, i);
        assert At(s1.total, i) == At(s2.total, i);
      }
      FinishIgnoresCalls(s1, s2, n);
    }
  }

  /** `Finish` reads the frames and the total, not the record of calls. */
  lemma FinishIgnoresCalls(s1: Locals, s2: Locals, n: nat)
    requires Fits(s1, n) && Fits(s2, n)
    requires s1.computed == s2.computed && s1.total == s2.total
    ensures Finish(s1, n) == Finish(s2, n)
  {
  }

  /**
   * Running the blocks in any other order gives the same estimate whenever
   * the estimate succeeds: the order of the blocks decides only which
   * failure is reported.
   */
  lemma OrderIndependent(args: Args, oracle: Oracle, ms: seq<Material>)
    requires multiset(ms) == multiset(ProcessingOrder)
    requires EstimatePrice(args, oracle).Success?
    ensures var out, n := AllOutcomes(args, oracle), RowCount(args);
      && Shaped(out, n) && Fits(Start, n)
      && Accumulate(args, out, n, Start, ms).Success?
      && Finish(Accumulate(args, out, n, Start, ms).value, n) == EstimatePrice(args, oracle)
  {
    var out, n := AllOutcomes(args, oracle), RowCount(args);
    OutcomesShaped(args, oracle);
    StartFits(n);
    assert Accumulate(args, out, n, Start, ProcessingOrder).Success?;
    PermutedRun(args, out, n, ProcessingOrder, ms);
  }

  // ---------------------------------------------------------------------
  // Which args the estimate reads

  lemma {:induction false} AccumulateSameOutcomes(a: Args, b: Args, outA: Outcomes, outB: Outcomes, n: nat, st: Locals, ms: seq<Material>)
    requires Shaped(outA, n) && Shaped(outB, n) && Fits(st, n)
    requires forall m: Material :: Key(m) in a.vals <==> Key(m) in b.vals
    requires forall m: Material :: Key(m) in a.vals ==> outA(m) == outB(m)
    ensures Accumulate(a, outA, n, st, ms) == Accumulate(b, outB, n, st, ms)
    decreases |ms|
  {
    if ms != [] {
      var step := Step(a, outA, n, st, ms[0]);
      assert step == Step(b, outB, n, st, ms[0]);
      if step.Success? {
        AccumulateSameOutcomes(a, b, outA, outB, n, step.value, ms[1..]);
      }
    }
  }

  /** Two args maps that agree on every key the blocks look up. */
  ghost predicate SameInputs(a: Args, b: Args) {
    && ("months" in a.vals <==> "months" in b.vals)
    && ("months" in a.vals ==> a.vals["months"] == b.vals["months"])
    && (forall m: Material :: Key(m) in a.vals <==> Key(m) in b.vals)
    && (forall m: Material :: Key(m) in a.vals ==> a.vals[Key(m)] == b.vals[Key(m)])
    && (forall m: Material :: Rebasable(m) ==> (SpotKey(m) in a.vals <==> SpotKey(m) in b.vals))
    && (forall m: Material :: Rebasable(m) && SpotKey(m) in a.vals ==> a.vals[SpotKey(m)] == b.vals[SpotKey(m)])
  }

  /** The estimate reads only `months`, the nine quantity keys and the six counted spot-price keys. */
  lemma SameInputsSameEstimate(a: Args, b: Args, oracle: Oracle)
    requires SameInputs(a, b)
    ensures EstimatePrice(a, oracle) == EstimatePrice(b, oracle)
  {
    SameInputsSameOutcomes(a, b, oracle);
    SameOutcomesSameEstimate(a, b, oracle);
  }

  /** Two runs with the same row count, the same blocks and the same outcomes give the same estimate. */
  lemma SameOutcomesSameEstimate(a: Args, b: Args, oracle: Oracle)
    requires RowCount(a) == RowCount(b)
    requires forall m: Material :: Key(m) in a.vals <==> Key(m) in b.vals
    requires forall m: Material :: Key(m) in a.vals ==> AllOutcomes(a, oracle)(m) == AllOutcomes(b, oracle)(m)
    ensures EstimatePrice(a, oracle) == EstimatePrice(b, oracle)
  {
    var n := RowCount(a);
    OutcomesShaped(a, oracle);
    OutcomesShaped(b, oracle);
    StartFits(n);
    AccumulateSameOutcomes(a, b, AllOutcomes(a, oracle), AllOutcomes(b, oracle), n, Start, ProcessingOrder);
    var acc := Accumulate(a, AllOutcomes(a, oracle), n, Start, ProcessingOrder);
    EstimateIs(a, oracle, acc);
    EstimateIs(b, oracle, acc);
  }

  /** An estimate is the finished run of the blocks, or the error that stopped the run. */
  lemma EstimateIs(args: Args, oracle: Oracle, acc: Result<Locals, EstimateError>)
    requires Shaped(AllOutcomes(args, oracle), RowCount(args)) && Fits(Start, RowCount(args))
    requires acc == Accumulate(args, AllOutcomes(args, oracle), RowCount(args), Start, ProcessingOrder)
    ensures acc.Failure? ==> EstimatePrice(args, oracle) == Failure(acc.error)
    ensures acc.Success? ==> EstimatePrice(args, oracle) == Finish(acc.value, RowCount(args))
  {
  }

  /** Two args maps that agree on every key the blocks look up run the same blocks to the same outcomes. */
  lemma SameInputsSameOutcomes(a: Args, b: Args, oracle: Oracle)
    requires SameInputs(a, b)
    ensures RowCount(a) == RowCount(b)
    ensures forall m: Material :: Key(m) in a.vals <==> Key(m) in b.vals
    ensures forall m: Material :: Key(m) in a.vals ==> AllOutcomes(a, oracle)(m) == AllOutcomes(b, oracle)(m)
  {
    assert Period(a) == Period(b);
    forall m: Material | Key(m) in a.vals
      ensures AllOutcomes(a, oracle)(m) == AllOutcomes(b, oracle)(m)
    {
      SameInputsSameOutcome(a, b, oracle, m);
    }
  }

  /** Block m reads only `months`, its own quantity and its own spot price. */
  lemma SameInputsSameOutcome(a: Args, b: Args, oracle: Oracle, m: Material)
    requires SameInputs(a, b)
    ensures Outcome(a, oracle, m) == Outcome(b, oracle, m)
  {
    assert Period(a) == Period(b);
    assert Quantity(a, m) == Quantity(b, m);
    if Horizon(Period(a)).Success? {
      var h := Horizon(Period(a)).value;
      assert Baseline(a, oracle, h, m) == Baseline(b, oracle, h, m);
    }
  }

  lemma KeysUnprefixed(m: Material)
    ensures |Key(m)| >= 3 && Key(m)[..2] != "p_"
  {
    match m
    case Copper => assert Key(m)[..2] == "co";
    case Alu => assert Key(m)[..2] == "al";
    case St37 => assert Key(m)[..2] == "st";
    case LabourHours => assert Key(m)[..2] == "la";
    case MediumCarbon => assert Key(m)[..2] == "me";
    case HighCarbon => assert Key(m)[..2] == "hi";
    case NonalloyCast => assert Key(m)[..2] == "no";
    case GreyCastIron => assert Key(m)[..2] == "gr";
    case NodularCastIron => assert Key(m)[..2] == "no";
  }

  /**
   * A `p_` key of copper, alu or labour_hours changes nothing: those blocks
   * never look for a spot price.
   */
  lemma UncountedSpotPriceIgnored(args: Args, oracle: Oracle, m: Material, v: Value)
    requires args.Valid() && !Rebasable(m) && SpotKey(m) !in args.vals
    ensures EstimatePrice(Insert(args, SpotKey(m), v), oracle) == EstimatePrice(args, oracle)
  {
    var args2 := Insert(args, SpotKey(m), v);
    forall m2: Material
      ensures Key(m2) != SpotKey(m)
      ensures Rebasable(m2) ==> SpotKey(m2) != SpotKey(m)
    {
      KeysUnprefixed(m2);
      if SpotKey(m2) == SpotKey(m) {
        SpotKeyParts(m);
        SpotKeyParts(m2);
        assert Key(m2) == SpotKey(m2)[2..] == SpotKey(m)[2..] == Key(m);
        KeyRoundTrip(m);
        KeyRoundTrip(m2);
      }
    }
    assert SameInputs(args2, args);
    SameInputsSameEstimate(args2, args, oracle);
  }

  // ---------------------------------------------------------------------
  // Quantities

  /** The sum over blocks other than m does not see a change to m's value. */
  lemma {:induction false} SumPartsUnchanged(a: Args, b: Args, outA: Outcomes, outB: Outcomes, ms: seq<Material>, m: Material, i: int)
    requires forall x: Material :: x != m ==> Part(a, outA, x, i) == Part(b, outB, x, i)
    requires m !in ms
    ensures SumParts(b, outB, ms, i) == SumParts(a, outA, ms, i)
    decreases |ms|
  {
    if ms != [] {
      assert ms[0] != m;
      SumPartsUnchanged(a, b, outA, outB, ms[1..], m, i);
    }
  }

  /** Changing only block m's value by d changes the sum by d when m runs once. */
  lemma SumPartsShiftOne(a: Args, b: Args, outA: Outcomes, outB: Outcomes, pre: seq<Material>, post: seq<Material>, m: Material, i: int, d: real)
    requires forall x: Material :: x != m ==> Part(a, outA, x, i) == Part(b, outB, x, i)
    requires Part(b, outB, m, i) == Part(a, outA, m, i) + d
    requires m !in pre && m !in post
    ensures SumParts(b, outB, pre + [m] + post, i) == SumParts(a, outA, pre + [m] + post, i) + d
  {
    assert pre + [m] + post == pre + ([m] + post);
    assert ([m] + post)[0] == m && ([m] + post)[1..] == post;
    SumPartsAppend(a, outA, pre, [m] + post, i);
    SumPartsAppend(b, outB, pre, [m] + post, i);
    SumPartsUnchanged(a, b, outA, outB, pre, m, i);
    SumPartsUnchanged(a, b, outA, outB, post, m, i);
  }

  /** Each material runs exactly once in the processing order. */
  lemma ProcessingOrderSplit(m: Material) returns (pre: seq<Material>, post: seq<Material>)
    ensures ProcessingOrder == pre + [m] + post && m !in pre && m !in post
  {
    var po := ProcessingOrder;
    match m
    case Copper => pre, post := po[..0], po[1..];
    case Alu => pre, post := po[..1], po[2..];
    case St37 => pre, post := po[..2], po[3..];
    case LabourHours => pre, post := po[..3], po[4..];
    case MediumCarbon => pre, post := po[..4], po[5..];
    case HighCarbon => pre, post := po[..5], po[6..];
    case NonalloyCast => pre, post := po[..6], po[7..];
    case GreyCastIron => pre, post := po[..7], po[8..];
    case NodularCastIron => pre, post := po[..8], po[9..];
  }

  /** args with material m's quantity replaced by x. */
  function Requantified(args: Args, m: Material, x: real): (r: Args)
    requires Key(m) in args.vals
    ensures r.keys == args.keys && r.vals.Keys == args.vals.Keys + {Key(m)}
    ensures r.vals[Key(m)] == Num(x) && forall k :: k in args.vals && k != Key(m) ==> r.vals[k] == args.vals[k]
  {
    Args(args.keys, args.vals[Key(m) := Num(x)])
  }

  /** Replacing a present quantity keeps a well-formed dict well formed. */
  lemma RequantifiedValid(args: Args, m: Material, x: real)
    requires args.Valid() && Key(m) in args.vals
    ensures Requantified(args, m, x).Valid()
  {
  }

  /** A new quantity for m leaves the period, every baseline and every other quantity as they were. */
  lemma RequantifiedInputs(args: Args, oracle: Oracle, m: Material, x: real)
    requires Key(m) in args.vals
    ensures Period(Requantified(args, m, x)) == Period(args)
    ensures forall m2: Material :: Key(m2) in Requantified(args, m, x).vals <==> Key(m2) in args.vals || m2 == m
    ensures forall m2: Material :: Baseline(Requantified(args, m, x), oracle, RowCount(args), m2) == Baseline(args, oracle, RowCount(args), m2)
    ensures forall m2: Material :: m2 != m ==> Quantity(Requantified(args, m, x), m2) == Quantity(args, m2)
  {
    var args2 := Requantified(args, m, x);
    KeysUnprefixed(m);
    var h := RowCount(args);
    forall m2: Material
      ensures Baseline(args2, oracle, h, m2) == Baseline(args, oracle, h, m2)
      ensures Key(m2) in args2.vals <==> Key(m2) in args.vals || m2 == m
      ensures m2 != m ==> Quantity(args2, m2) == Quantity(args, m2)
    {
      KeysUnprefixed(m2);
      if m2 != m {
        KeyRoundTrip(m);
        KeyRoundTrip(m2);
      }
    }
  }

  /** Two argument sets with the same period, baseline and quantity for m give m the same outcome. */
  lemma SameOutcome(a: Args, b: Args, oracle: Oracle, m: Material)
    requires Period(a) == Period(b) && Quantity(a, m) == Quantity(b, m)
    requires Baseline(a, oracle, RowCount(a), m) == Baseline(b, oracle, RowCount(a), m)
    ensures Outcome(a, oracle, m) == Outcome(b, oracle, m)
  {
  }

  /** A new quantity for m leaves every other block's outcome as it was. */
  lemma RequantifiedOthers(args: Args, oracle: Oracle, m: Material, x: real)
    requires Key(m) in args.vals
    ensures forall m2: Material :: m2 != m ==> Outcome(Requantified(args, m, x), oracle, m2) == Outcome(args, oracle, m2)
  {
    var args2 := Requantified(args, m, x);
    RequantifiedInputs(args, oracle, m, x);
    forall m2: Material | m2 != m
      ensures Outcome(args2, oracle, m2) == Outcome(args, oracle, m2)
    {
      SameOutcome(args, args2, oracle, m2);
    }
  }

  /** A new quantity for m leaves the period and m's own baseline as they were. */
  lemma RequantifiedOwnInputs(args: Args, oracle: Oracle, m: Material, x: real)
    requires Key(m) in args.vals
    ensures Period(Requantified(args, m, x)) == Period(args)
    ensures Baseline(Requantified(args, m, x), oracle, RowCount(args), m) == Baseline(args, oracle, RowCount(args), m)
  {
    KeysUnprefixed(m);
  }

  /** With a new quantity x, m's outcome is its baseline scaled by x instead of the old quantity. */
  lemma RequantifiedSelf(args: Args, oracle: Oracle, m: Material, x: real)
    requires Key(m) in args.vals && Outcome(args, oracle, m).Success?
    ensures Baseline(args, oracle, RowCount(args), m).Success?
    ensures var base := Baseline(args, oracle, RowCount(args), m).value;
      var o, o2 := Outcome(args, oracle, m), Outcome(Requantified(args, m, x), oracle, m);
      && o2.Success? && |o.value| == |o2.value| == |base| && Dates(o2.value) == Dates(o.value)
      && forall i :: 0 <= i < |base| ==>
           o.value[i].yhat1 == base[i].yhat1 * AsReal(args.vals[Key(m)]).value && o2.value[i].yhat1 == base[i].yhat1 * x
  {
    RequantifiedOwnInputs(args, oracle, m, x);
    SelfScaled(args, Requantified(args, m, x), oracle, m, x);
  }

  /** Two args maps that agree on m's period and baseline, b holding x as m's quantity: both scale one baseline. */
  lemma SelfScaled(a: Args, b: Args, oracle: Oracle, m: Material, x: real)
    requires Key(m) in a.vals && Key(m) in b.vals && b.vals[Key(m)] == Num(x)
    requires Period(b) == Period(a) && Outcome(a, oracle, m).Success?
    requires Baseline(b, oracle, RowCount(a), m) == Baseline(a, oracle, RowCount(a), m)
    ensures Baseline(a, oracle, RowCount(a), m).Success?
    ensures var base := Baseline(a, oracle, RowCount(a), m).value;
      var o, o2 := Outcome(a, oracle, m), Outcome(b, oracle, m);
      && o2.Success? && |o.value| == |o2.value| == |base| && Dates(o2.value) == Dates(o.value)
      && forall i :: 0 <= i < |base| ==>
           o.value[i].yhat1 == base[i].yhat1 * AsReal(a.vals[Key(m)]).value && o2.value[i].yhat1 == base[i].yhat1 * x
  {
    OutcomeHorizon(a, oracle, m);
    OutcomeIsScaled(a, oracle, m);
    RescaledOutcome(a, b, oracle, m, x);
    ScaledPair(Outcome(a, oracle, m), Outcome(b, oracle, m), Baseline(a, oracle, RowCount(a), m), a.vals[Key(m)], x);
  }

  /** b's outcome for m is a's baseline scaled by b's quantity x. */
  lemma RescaledOutcome(a: Args, b: Args, oracle: Oracle, m: Material, x: real)
    requires Key(m) in b.vals && b.vals[Key(m)] == Num(x)
    requires Period(b) == Period(a) && Horizon(Period(a)).Success?
    requires Baseline(b, oracle, RowCount(a), m) == Baseline(a, oracle, RowCount(a), m)
    ensures Outcome(b, oracle, m) == Scale(Baseline(a, oracle, RowCount(a), m), Num(x))
  {
    SamePeriodSameRowCount(a, b);
    OutcomeIsScaled(b, oracle, m);
  }

  /** A block that succeeds had a valid horizon. */
  lemma OutcomeHorizon(args: Args, oracle: Oracle, m: Material)
    requires Outcome(args, oracle, m).Success?
    ensures Horizon(Period(args)).Success?
  {
  }

  /** The row count depends on the period alone. */
  lemma SamePeriodSameRowCount(a: Args, b: Args)
    requires Period(a) == Period(b)
    ensures RowCount(a) == RowCount(b)
    ensures Horizon(Period(a)).Success? <==> Horizon(Period(b)).Success?
  {
  }

  /** A block that succeeds had its key present: a missing key is a None quantity. */
  lemma OutcomePresent(args: Args, oracle: Oracle, m: Material)
    requires Outcome(args, oracle, m).Success?
    ensures Key(m) in args.vals
  {
  }

  /** The row count of a valid period is its number of months. */
  lemma HorizonRowCount(args: Args)
    requires Horizon(Period(args)).Success?
    ensures RowCount(args) == Horizon(Period(args)).value
  {
  }

  /** A present block that gets as far as its horizon scales its baseline by its quantity. */
  lemma OutcomeIsScaled(args: Args, oracle: Oracle, m: Material)
    requires Key(m) in args.vals && Horizon(Period(args)).Success?
    ensures Outcome(args, oracle, m) == Scale(Baseline(args, oracle, RowCount(args), m), args.vals[Key(m)])
  {
  }

  /** A baseline that scales by one quantity scales by any number x too, row by row. */
  lemma ScaledPair(o: Result<seq<Point>, EstimateError>, o2: Result<seq<Point>, EstimateError>,
                   base: Result<seq<Point>, EstimateError>, q: Value, x: real)
    requires o == Scale(base, q) && o2 == Scale(base, Num(x)) && o.Success?
    ensures base.Success?
    ensures && o2.Success? && |o.value| == |o2.value| == |base.value| && Dates(o2.value) == Dates(o.value)
            && forall i :: 0 <= i < |base.value| ==>
                 o.value[i].yhat1 == base.value[i].yhat1 * AsReal(q).value && o2.value[i].yhat1 == base.value[i].yhat1 * x
  {
  }

  /** Row i of a scaled series is row i of its baseline times the quantity. */
  lemma ScaleAt(o: Result<seq<Point>, EstimateError>, base: Result<seq<Point>, EstimateError>, q: Value, i: nat)
    requires o == Scale(base, q) && o.Success? && i < |o.value|
    ensures base.Success? && i < |base.value|
    ensures o.value[i].yhat1 == base.value[i].yhat1 * AsReal(q).value
  {
  }

  /**
   * Row i of a block's baseline: row j = |full| - h + i of the model's full
   * forecast, rebased onto the block's spot price when that price is given.
   */
  lemma BaselineAt(args: Args, oracle: Oracle, h: nat, m: Material, i: nat, j: nat)
    requires Baseline(args, oracle, h, m).Success? && i < |Baseline(args, oracle, h, m).value|
    requires j == |oracle(m, h)| - h + i
    ensures var full := oracle(m, h);
      && i < h <= |full| && j < |full|
      && (Rebasable(m) && SpotKey(m) in args.vals ==>
            && Rebased(full, args.vals[SpotKey(m)]).Success?
            && Baseline(args, oracle, h, m).value[i] == Rebased(full, args.vals[SpotKey(m)]).value[j])
      && (!(Rebasable(m) && SpotKey(m) in args.vals) ==> Baseline(args, oracle, h, m).value[i] == full[j])
  {
    if Rebasable(m) && SpotKey(m) in args.vals {
      BaselineRebasedAt(args, oracle, h, m, i, j);
    } else {
      BaselinePlainAt(args, oracle, h, m, i, j);
    }
  }

  /** BaselineAt for a steel or iron block whose spot price is given. */
  lemma BaselineRebasedAt(args: Args, oracle: Oracle, h: nat, m: Material, i: nat, j: nat)
    requires Baseline(args, oracle, h, m).Success? && i < |Baseline(args, oracle, h, m).value|
    requires j == |oracle(m, h)| - h + i
    requires Rebasable(m) && SpotKey(m) in args.vals
    ensures var full := oracle(m, h);
      && i < h <= |full| && j < |full|
      && Rebased(full, args.vals[SpotKey(m)]).Success?
      && Baseline(args, oracle, h, m).value[i] == Rebased(full, args.vals[SpotKey(m)]).value[j]
      && Baseline(args, oracle, h, m).value[i].yhat1 == Rebased(full, args.vals[SpotKey(m)]).value[j].yhat1
  {
    BaselineRebased(args, oracle, h, m);
    TailAt(Rebased(oracle(m, h), args.vals[SpotKey(m)]).value, h, i, j);
  }

  /** BaselineAt for any other block. */
  lemma BaselinePlainAt(args: Args, oracle: Oracle, h: nat, m: Material, i: nat, j: nat)
    requires Baseline(args, oracle, h, m).Success? && i < |Baseline(args, oracle, h, m).value|
    requires j == |oracle(m, h)| - h + i
    requires !(Rebasable(m) && SpotKey(m) in args.vals)
    ensures var full := oracle(m, h);
      && i < h <= |full| && j < |full|
      && Baseline(args, oracle, h, m).value[i] == full[j]
  {
    BaselinePlain(args, oracle, h, m);
    TailAt(oracle(m, h), h, i, j);
  }

  /** A steel or iron block whose spot price is given takes the last h rows of its rebased forecast. */
  lemma BaselineRebased(args: Args, oracle: Oracle, h: nat, m: Material)
    requires Baseline(args, oracle, h, m).Success? && Rebasable(m) && SpotKey(m) in args.vals
    ensures h <= |oracle(m, h)| && Rebased(oracle(m, h), args.vals[SpotKey(m)]).Success?
    ensures Baseline(args, oracle, h, m).value == Tail(Rebased(oracle(m, h), args.vals[SpotKey(m)]).value, h)
  {
  }

  /** Any other block takes the last h rows of its forecast as they are. */
  lemma BaselinePlain(args: Args, oracle: Oracle, h: nat, m: Material)
    requires !(Rebasable(m) && SpotKey(m) in args.vals)
    ensures h <= |oracle(m, h)| && Baseline(args, oracle, h, m) == Success(Tail(oracle(m, h), h))
  {
  }

  /**
   * Row i of a successful block: row j = |full| - h + i of the model's full
   * forecast (h the number of forecast months), rebased when the block's
   * spot price is given (row j of the rebased forecast is full[j] divided
   * by the anchor month's value, times the spot price), times the block's
   * quantity.
   */
  lemma OutcomeValues(args: Args, oracle: Oracle, m: Material, i: nat, j: nat)
    requires Outcome(args, oracle, m).Success? && i < |Outcome(args, oracle, m).value|
    requires j == |oracle(m, Horizon(Period(args)).value)| - Horizon(Period(args)).value + i
    ensures Key(m) in args.vals && Horizon(Period(args)).Success?
    ensures var full := oracle(m, Horizon(Period(args)).value);
      && j < |full|
      && (Rebasable(m) && SpotKey(m) in args.vals ==>
            && Rebased(full, args.vals[SpotKey(m)]).Success? && FirstIndexOf(full, Anchor).Some?
            && Rebased(full, args.vals[SpotKey(m)]).value[j].yhat1 ==
                 full[j].yhat1 / full[FirstIndexOf(full, Anchor).value].yhat1 * AsReal(args.vals[SpotKey(m)]).value
            && Outcome(args, oracle, m).value[i].yhat1 ==
                 Rebased(full, args.vals[SpotKey(m)]).value[j].yhat1 * AsReal(args.vals[Key(m)]).value)
      && (!(Rebasable(m) && SpotKey(m) in args.vals) ==>
            Outcome(args, oracle, m).value[i].yhat1 == full[j].yhat1 * AsReal(args.vals[Key(m)]).value)
  {
    if Rebasable(m) && SpotKey(m) in args.vals {
      OutcomeValuesRebased(args, oracle, m, i, j);
    } else {
      OutcomeValuesPlain(args, oracle, m, i, j);
    }
  }

  /** OutcomeValues for a steel or iron block whose spot price is given. */
  lemma OutcomeValuesRebased(args: Args, oracle: Oracle, m: Material, i: nat, j: nat)
    requires Outcome(args, oracle, m).Success? && i < |Outcome(args, oracle, m).value|
    requires j == |oracle(m, Horizon(Period(args)).value)| - Horizon(Period(args)).value + i
    requires Rebasable(m) && SpotKey(m) in args.vals
    ensures Key(m) in args.vals && Horizon(Period(args)).Success?
    ensures var full := oracle(m, Horizon(Period(args)).value);
      && j < |full|
      && Rebased(full, args.vals[SpotKey(m)]).Success? && FirstIndexOf(full, Anchor).Some?
      && Rebased(full, args.vals[SpotKey(m)]).value[j].yhat1 ==
           full[j].yhat1 / full[FirstIndexOf(full, Anchor).value].yhat1 * AsReal(args.vals[SpotKey(m)]).value
      && Outcome(args, oracle, m).value[i].yhat1 ==
           Rebased(full, args.vals[SpotKey(m)]).value[j].yhat1 * AsReal(args.vals[Key(m)]).value
  {
    OutcomeScaledRebased(args, oracle, m, i, j);
    RebasedAt(oracle(m, Horizon(Period(args)).value), args.vals[SpotKey(m)], j);
  }

  /** Row i of a steel or iron block whose spot price is given is row j of the rebased forecast times the quantity. */
  lemma OutcomeScaledRebased(args: Args, oracle: Oracle, m: Material, i: nat, j: nat)
    requires Outcome(args, oracle, m).Success? && i < |Outcome(args, oracle, m).value|
    requires j == |oracle(m, Horizon(Period(args)).value)| - Horizon(Period(args)).value + i
    requires Rebasable(m) && SpotKey(m) in args.vals
    ensures Key(m) in args.vals && Horizon(Period(args)).Success?
    ensures var full := oracle(m, Horizon(Period(args)).value);
      && j < |full|
      && Rebased(full, args.vals[SpotKey(m)]).Success?
      && Outcome(args, oracle, m).value[i].yhat1 ==
           Rebased(full, args.vals[SpotKey(m)]).value[j].yhat1 * AsReal(args.vals[Key(m)]).value
  {
    OutcomeHorizon(args, oracle, m);
    OutcomePresent(args, oracle, m);
    HorizonRowCount(args);
    OutcomeIsScaled(args, oracle, m);
    BaselineRebased(args, oracle, RowCount(args), m);
    ScaledTailRows();
  }

  /** Row i of a scaled tail is row j = |s| - h + i of the whole sequence, times the quantity. */
  lemma ScaledTailRows()
    ensures forall base: Result<seq<Point>, EstimateError>, q: Value, s: seq<Point>, h: nat, i: nat, j: nat
              {:trigger Scale(base, q).value[i], s[j], Tail(s, h)} ::
              && Scale(base, q).Success? && base == Success(Tail(s, h)) && h <= |s| && i < h && j == |s| - h + i
              ==> Scale(base, q).value[i].yhat1 == s[j].yhat1 * AsReal(q).value
  {
    forall base: Result<seq<Point>, EstimateError>, q: Value, s: seq<Point>, h: nat, i: nat, j: nat
      | && Scale(base, q).Success? && base == Success(Tail(s, h)) && h <= |s| && i < h && j == |s| - h + i
      ensures Scale(base, q).value[i].yhat1 == s[j].yhat1 * AsReal(q).value
    {
      TailAt(s, h, i, j);
    }
  }

  /** OutcomeValues for any other block. */
  lemma OutcomeValuesPlain(args: Args, oracle: Oracle, m: Material, i: nat, j: nat)
    requires Outcome(args, oracle, m).Success? && i < |Outcome(args, oracle, m).value|
    requires j == |oracle(m, Horizon(Period(args)).value)| - Horizon(Period(args)).value + i
    requires !(Rebasable(m) && SpotKey(m) in args.vals)
    ensures Key(m) in args.vals && Horizon(Period(args)).Success?
    ensures var full := oracle(m, Horizon(Period(args)).value);
      && j < |full|
      && Outcome(args, oracle, m).value[i].yhat1 == full[j].yhat1 * AsReal(args.vals[Key(m)]).value
  {
    OutcomeRow(args, oracle, m, i);
    BaselinePlainAt(args, oracle, Horizon(Period(args)).value, m, i, j);
  }

  /** Row i of a successful block is row i of its baseline times the block's quantity. */
  lemma OutcomeRow(args: Args, oracle: Oracle, m: Material, i: nat)
    requires Outcome(args, oracle, m).Success? && i < |Outcome(args, oracle, m).value|
    ensures Key(m) in args.vals && Horizon(Period(args)).Success?
    ensures var b := Baseline(args, oracle, Horizon(Period(args)).value, m);
      && b.Success? && i < |b.value|
      && Outcome(args, oracle, m).value[i].yhat1 == b.value[i].yhat1 * AsReal(args.vals[Key(m)]).value
  {
    OutcomeHorizon(args, oracle, m);
    OutcomePresent(args, oracle, m);
    HorizonRowCount(args);
    OutcomeIsScaled(args, oracle, m);
    ScaleAt(Outcome(args, oracle, m), Baseline(args, oracle, RowCount(args), m), args.vals[Key(m)], i);
  }

  /** A new quantity for m changes m's outcome by the factor it scales, and no other outcome. */
  lemma RequantifiedOutcomes(args: Args, oracle: Oracle, m: Material, x: real)
    requires Key(m) in args.vals && Outcome(args, oracle, m).Success?
    ensures RowCount(Requantified(args, m, x)) == RowCount(args)
    ensures forall m2: Material :: Key(m2) in Requantified(args, m, x).vals <==> Key(m2) in args.vals
    ensures forall m2: Material :: m2 != m ==> Outcome(Requantified(args, m, x), oracle, m2) == Outcome(args, oracle, m2)
    ensures Baseline(args, oracle, RowCount(args), m).Success?
    ensures var base := Baseline(args, oracle, RowCount(args), m).value;
      var o, o2 := Outcome(args, oracle, m), Outcome(Requantified(args, m, x), oracle, m);
      && o2.Success? && |o.value| == |o2.value| == |base| && Dates(o2.value) == Dates(o.value)
      && forall i :: 0 <= i < |base| ==>
           o.value[i].yhat1 == base[i].yhat1 * AsReal(args.vals[Key(m)]).value && o2.value[i].yhat1 == base[i].yhat1 * x
  {
    RequantifiedInputs(args, oracle, m, x);
    RequantifiedOthers(args, oracle, m, x);
    RequantifiedSelf(args, oracle, m, x);
  }

  /** Locals with the same blocks, whose frames carry the same months, finish with the same `ds` column. */
  lemma FinishSameDates(st: Locals, st2: Locals, n: nat)
    requires Fits(st, n) && Fits(st2, n) && st.computed != map[]
    requires st.computed.Keys == st2.computed.Keys
    requires forall m :: m in st.computed ==> Dates(st.computed[m]) == Dates(st2.computed[m])
    ensures Finish(st, n).Success? && Finish(st2, n).Success?
    ensures |Finish(st2, n).value| == |Finish(st, n).value|
    ensures forall i :: 0 <= i < |Finish(st, n).value| ==> Finish(st2, n).value[i].ds == Finish(st, n).value[i].ds
  {
    var axis := FinishReads(st, n);
    var axis2 := FinishReads(st2, n);
    var c, c2 := st.computed[axis], st2.computed[axis];
    var r, r2 := Finish(st, n).value, Finish(st2, n).value;
    forall i | 0 <= i < n
      ensures r2[i].ds == r[i].ds
    {
      assert c[i].ds == Dates(c)[i] == Dates(c2)[i] == c2[i].ds;
      ParseThenFormat(r2[i].ds);
      ParseThenFormat(r[i].ds);
    }
  }

  /** A successful estimate stays successful when a present quantity changes. */
  lemma RequantifiedStillSucceeds(args: Args, oracle: Oracle, m: Material, x: real)
    requires Key(m) in args.vals && EstimatePrice(args, oracle).Success?
    ensures EstimatePrice(Requantified(args, m, x), oracle).Success?
  {
    EstimatePriceSucceedsIff(args, oracle);
    RequantifiedOutcomes(args, oracle, m, x);
    EstimatePriceSucceedsIff(Requantified(args, m, x), oracle);
  }

  /** A successful estimate keeps its months when a present quantity changes. */
  lemma RequantifiedSucceeds(args: Args, oracle: Oracle, m: Material, x: real)
    requires Key(m) in args.vals && EstimatePrice(args, oracle).Success?
    ensures EstimatePrice(Requantified(args, m, x), oracle).Success?
    ensures var r, r2 := EstimatePrice(args, oracle).value, EstimatePrice(Requantified(args, m, x), oracle).value;
      |r2| == |r| && forall i :: 0 <= i < |r| ==> r2[i].ds == r[i].ds
  {
    var args2, n := Requantified(args, m, x), RowCount(args);
    RequantifiedStillSucceeds(args, oracle, m, x);
    RequantifiedDates(args, oracle, m, x);
    var out, out2 := AllOutcomes(args, oracle), AllOutcomes(args2, oracle);
    OutcomesShaped(args, oracle);
    OutcomesShaped(args2, oracle);
    StartFits(n);
    assert Accumulate(args, out, n, Start, ProcessingOrder).Success?;
    assert Accumulate(args2, out2, n, Start, ProcessingOrder).Success?;
    var st := RunFrom(args, out, n, ProcessingOrder);
    var st2 := RunFrom(args2, out2, n, ProcessingOrder);
    RunsSameDates(args, out, out2, n, st, st2);
  }

  /** Block m's outcome succeeds under a and under b, with the same months. */
  ghost predicate DatesAgree(a: Args, outA: Outcomes, outB: Outcomes) {
    forall m: Material :: Key(m) in a.vals ==>
      outA(m).Success? && outB(m).Success? && Dates(outA(m).value) == Dates(outB(m).value)
  }

  /** Two runs that left frames for the same blocks, carrying the same months, give the same `ds` column. */
  lemma RunsSameDates(a: Args, outA: Outcomes, outB: Outcomes, n: nat, st: Locals, st2: Locals)
    requires Fits(st, n) && Fits(st2, n) && AnyPresent(a) && DatesAgree(a, outA, outB)
    requires forall m :: m in st.computed <==> m in ProcessingOrder && Key(m) in a.vals
    requires forall m :: m in st2.computed <==> m in st.computed
    requires forall m :: m in st.computed ==> st.computed[m] == outA(m).value && st2.computed[m] == outB(m).value
    ensures Finish(st, n).Success? && Finish(st2, n).Success? && |Finish(st2, n).value| == |Finish(st, n).value|
    ensures forall i :: 0 <= i < |Finish(st, n).value| ==> Finish(st2, n).value[i].ds == Finish(st, n).value[i].ds
  {
    var m0 :| Key(m0) in a.vals;
    EveryMaterialListed(m0);
    assert m0 in st.computed;
    assert st.computed.Keys == st2.computed.Keys;
    FinishSameDates(st, st2, n);
  }

  /** A new quantity for m changes no block's success, and no block's months. */
  lemma RequantifiedDates(args: Args, oracle: Oracle, m: Material, x: real)
    requires Key(m) in args.vals && EstimatePrice(args, oracle).Success?
    ensures RowCount(Requantified(args, m, x)) == RowCount(args)
    ensures forall m2: Material :: Key(m2) in Requantified(args, m, x).vals <==> Key(m2) in args.vals
    ensures AnyPresent(args) && DatesAgree(args, AllOutcomes(args, oracle), AllOutcomes(Requantified(args, m, x), oracle))
  {
    EstimatePriceSucceedsIff(args, oracle);
    RequantifiedOutcomes(args, oracle, m, x);
    var out, out2 := AllOutcomes(args, oracle), AllOutcomes(Requantified(args, m, x), oracle);
    forall m2: Material | Key(m2) in args.vals
      ensures out(m2).Success? && out2(m2).Success? && Dates(out(m2).value) == Dates(out2(m2).value)
    {
      assert out(m2) == Outcome(args, oracle, m2) && out2(m2) == Outcome(Requantified(args, m, x), oracle, m2);
    }
  }

  /**
   * outB is outA with only block m's outcome changed, from base scaled by
   * q to base scaled by x, and a and b have the same keys present.
   */
  ghost predicate OnlyRequantified(a: Args, b: Args, outA: Outcomes, outB: Outcomes, m: Material, base: seq<Point>, q: real, x: real) {
    && (forall m2: Material :: Key(m2) in b.vals <==> Key(m2) in a.vals)
    && (forall m2: Material :: m2 != m ==> outB(m2) == outA(m2))
    && Key(m) in a.vals && outA(m).Success? && outB(m).Success?
    && |outA(m).value| == |outB(m).value| == |base|
    && forall i :: 0 <= i < |base| ==> outA(m).value[i].yhat1 == base[i].yhat1 * q && outB(m).value[i].yhat1 == base[i].yhat1 * x
  }

  /** The outcomes before and after m's quantity changes, read through `AllOutcomes`. */
  lemma RequantifiedOuts(args: Args, oracle: Oracle, m: Material, x: real)
    requires Key(m) in args.vals && Outcome(args, oracle, m).Success?
    ensures Baseline(args, oracle, RowCount(args), m).Success? && !args.vals[Key(m)].Null?
    ensures OnlyRequantified(args, Requantified(args, m, x), AllOutcomes(args, oracle), AllOutcomes(Requantified(args, m, x), oracle),
                             m, Baseline(args, oracle, RowCount(args), m).value, AsReal(args.vals[Key(m)]).value, x)
  {
    var args2 := Requantified(args, m, x);
    var out, out2 := AllOutcomes(args, oracle), AllOutcomes(args2, oracle);
    RequantifiedOutcomes(args, oracle, m, x);
    assert out(m) == Outcome(args, oracle, m) && out2(m) == Outcome(args2, oracle, m);
    forall m2: Material | m2 != m
      ensures out2(m2) == out(m2)
    {
      assert out(m2) == Outcome(args, oracle, m2) && out2(m2) == Outcome(args2, oracle, m2);
    }
  }

  /** Changing m's quantity moves every sum of block values by the change times m's baseline. */
  lemma RequantifiedSums(args: Args, oracle: Oracle, m: Material, x: real)
    requires Key(m) in args.vals && Outcome(args, oracle, m).Success?
    ensures Baseline(args, oracle, RowCount(args), m).Success? && !args.vals[Key(m)].Null?
    ensures SumsShifted(args, Requantified(args, m, x), AllOutcomes(args, oracle), AllOutcomes(Requantified(args, m, x), oracle),
                        Baseline(args, oracle, RowCount(args), m).value, AsReal(args.vals[Key(m)]).value, x)
  {
    RequantifiedOuts(args, oracle, m, x);
    var out, out2 := AllOutcomes(args, oracle), AllOutcomes(Requantified(args, m, x), oracle);
    ShiftSums(args, Requantified(args, m, x), out, out2, m, Baseline(args, oracle, RowCount(args), m).value, AsReal(args.vals[Key(m)]).value, x);
  }

  /** When only block m's outcome changes, from base * q to base * x, only its value moves. */
  lemma RequantifiedParts(a: Args, b: Args, outA: Outcomes, outB: Outcomes, m: Material, base: seq<Point>, q: real, x: real, i: int)
    requires forall m2: Material :: Key(m2) in b.vals <==> Key(m2) in a.vals
    requires forall m2: Material :: m2 != m ==> outB(m2) == outA(m2)
    requires Key(m) in a.vals && outA(m).Success? && outB(m).Success?
    requires |outA(m).value| == |outB(m).value| == |base| && 0 <= i < |base|
    requires outA(m).value[i].yhat1 == base[i].yhat1 * q && outB(m).value[i].yhat1 == base[i].yhat1 * x
    ensures forall m2: Material :: m2 != m ==> Part(a, outA, m2, i) == Part(b, outB, m2, i)
    ensures Part(b, outB, m, i) == Part(a, outA, m, i) + (x - q) * base[i].yhat1
  {
    ShiftByQuantity(base[i].yhat1, q, x);
  }

  /** r2 is r with every total moved by (x - q) times base at its month. */
  ghost predicate ShiftedBy(r: seq<Record>, r2: seq<Record>, base: Result<seq<Point>, EstimateError>, q: Value, x: real) {
    && base.Success? && AsReal(q).Some?
    && |r2| == |r| == |base.value|
    && forall i :: 0 <= i < |r| ==>
         r2[i].totalProductValue == r[i].totalProductValue + (x - AsReal(q).value) * base.value[i].yhat1
  }

  /** At every month, the sum of block values under b is that under a moved by (x - q) times base. */
  ghost predicate SumsShifted(a: Args, b: Args, outA: Outcomes, outB: Outcomes, base: seq<Point>, q: real, x: real) {
    forall i :: 0 <= i < |base| ==>
      SumParts(b, outB, ProcessingOrder, i) == SumParts(a, outA, ProcessingOrder, i) + (x - q) * base[i].yhat1
  }

  /** When only block m's outcome changes, from base * q to base * x, every sum moves by (x - q) * base. */
  lemma ShiftSums(a: Args, b: Args, outA: Outcomes, outB: Outcomes, m: Material, base: seq<Point>, q: real, x: real)
    requires OnlyRequantified(a, b, outA, outB, m, base, q, x)
    ensures SumsShifted(a, b, outA, outB, base, q, x)
  {
    var pre, post := ProcessingOrderSplit(m);
    forall i | 0 <= i < |base|
      ensures SumParts(b, outB, ProcessingOrder, i) == SumParts(a, outA, ProcessingOrder, i) + (x - q) * base[i].yhat1
    {
      RequantifiedParts(a, b, outA, outB, m, base, q, x, i);
      SumPartsShiftOne(a, b, outA, outB, pre, post, m, i, (x - q) * base[i].yhat1);
    }
  }

  /**
   * The estimate is linear in each quantity: replacing material m's quantity
   * q by x moves every total by (x - q) times m's baseline at that month,
   * and leaves every month as it was.
   */
  lemma QuantityLinear(args: Args, oracle: Oracle, m: Material, x: real)
    requires Key(m) in args.vals && EstimatePrice(args, oracle).Success?
    ensures EstimatePrice(Requantified(args, m, x), oracle).Success?
    ensures ShiftedBy(EstimatePrice(args, oracle).value, EstimatePrice(Requantified(args, m, x), oracle).value,
                      Baseline(args, oracle, RowCount(args), m), args.vals[Key(m)], x)
    ensures forall i :: 0 <= i < |EstimatePrice(args, oracle).value| ==>
      EstimatePrice(Requantified(args, m, x), oracle).value[i].ds == EstimatePrice(args, oracle).value[i].ds
  {
    var args2, n := Requantified(args, m, x), RowCount(args);
    var st := SuccessfulTotals(args, oracle);
    EstimatePriceSucceedsIff(args, oracle);
    RequantifiedOutcomes(args, oracle, m, x);
    RequantifiedSucceeds(args, oracle, m, x);
    RequantifiedSums(args, oracle, m, x);
    var st2 := SuccessfulTotals(args2, oracle);
    var axis := FinishReads(st, n);
    var axis2 := FinishReads(st2, n);
  }

  lemma ShiftByQuantity(b: real, q: real, x: real)
    ensures b * x == b * q + (x - q) * b
  {
  }

  // ---------------------------------------------------------------------
  // The imperative blocks

  /**
   * The frame one present block leaves: `porphet_predict`, then
   * `adjust_spot_price` and `.tail` when the spot price is given, then
   * `*= args[key]`.
   */
  method BlockFrame(args: Args, oracle: Oracle, period: Value, m: Material) returns (r: Result<seq<Point>, EstimateError>)
    requires period == Period(args) && Key(m) in args.vals
    ensures r == Outcome(args, oracle, m)
  {
    var frames :- PorphetPredict(oracle, m, period);
    var h := Horizon(period).value;
    var predicted, full := frames.0, frames.1;
    if Rebasable(m) && SpotKey(m) in args.vals {
      var adjusted :- AdjustSpotPrice(full, args.vals[SpotKey(m)]);
      predicted := adjusted.TakeTail(h);
    }
    assert Baseline(args, oracle, h, m) == Success(predicted.rows);
    var q := AsReal(args.vals[Key(m)]);
    if q.None? {
      return Failure(NullValue);
    }
    predicted.ScaleBy(q.value);
    r := Success(predicted.rows);
  }

  /**
   * When goal is the run over ms[k..] from st, and r is block ms[k] from
   * st, then a failing r is the goal, and a successful r leaves the run
   * over ms[k + 1..] as the goal.
   */
  lemma Advance(args: Args, out: Outcomes, n: nat, goal: Result<Locals, EstimateError>, st: Locals, ms: seq<Material>, k: nat, r: Result<Locals, EstimateError>)
    requires Shaped(out, n) && Fits(st, n) && k < |ms|
    requires goal == Accumulate(args, out, n, st, ms[k..]) && r == Step(args, out, n, st, ms[k])
    ensures r.Failure? ==> goal == Failure(r.error)
    ensures r.Success? ==> Fits(r.value, n) && goal == Accumulate(args, out, n, r.value, ms[k + 1..])
  {
    assert ms[k..][0] == ms[k] && ms[k..][1..] == ms[k + 1..];
  }

  /** One `if '<material>' in args:` block, acting on the locals: it is Step for block m. */
  method Block(args: Args, oracle: Oracle, period: Value, st: Locals, m: Material) returns (r: Result<Locals, EstimateError>)
    requires period == Period(args) && Fits(st, RowCount(args))
    ensures Shaped(AllOutcomes(args, oracle), RowCount(args))
    ensures r == Step(args, AllOutcomes(args, oracle), RowCount(args), st, m)
  {
    OutcomesShaped(args, oracle);
    if Key(m) !in args.vals {
      return Success(st);
    }
    var c :- BlockFrame(args, oracle, period, m);
    r := Success(Locals(Plus(st.total, Values(c)), st.computed[m := c], st.called + [m]));
  }

  /** The material at position j of order is the first of s in order when none before it is in s. */
  lemma {:induction false} FirstInAt(order: seq<Material>, s: set<Material>, j: nat)
    requires j < |order| && order[j] in s && forall x :: x in order[..j] ==> x !in s
    ensures FirstIn(order, s) == Some(order[j])
  {
    if j > 0 {
      assert order[0] in order[..j];
      assert order[1..][..j - 1] == order[1..j];
      assert forall x :: x in order[1..j] ==> x in order[..j];
      FirstInAt(order[1..], s, j - 1);
    }
  }

  /**
   * The nine `if '<material>' in args:` blocks, in order; the first error
   * ends the call. utili.py spells the nine blocks out one after the
   * other; they differ only in the material, so here one block body runs
   * for each material of ProcessingOrder.
   */
  method RunBlocks(args: Args, oracle: Oracle, period: Value) returns (r: Result<Locals, EstimateError>)
    requires period == Period(args)
    ensures Shaped(AllOutcomes(args, oracle), RowCount(args))
    ensures r == Accumulate(args, AllOutcomes(args, oracle), RowCount(args), Start, ProcessingOrder)
  {
    ghost var out, n := AllOutcomes(args, oracle), RowCount(args);
    OutcomesShaped(args, oracle);
    ghost var goal := Accumulate(args, out, n, Start, ProcessingOrder);
    var st := Start;
    var i := 0;
    while i < |ProcessingOrder|
      invariant 0 <= i <= |ProcessingOrder| && Fits(st, n)
      invariant goal == Accumulate(args, out, n, st, ProcessingOrder[i..])
    {
      var step := Block(args, oracle, period, st, ProcessingOrder[i]);
      Advance(args, out, n, goal, st, ProcessingOrder, i, step);
      if step.Failure? {
        return Failure(step.error);
      }
      st := step.value;
      i := i + 1;
    }
    r := Success(st);
  }

  /**
   * The `ds` fallback chain: the frame of Alu if that block ran, else
   * St37, LabourHours, GreyCastIron, NodularCastIron, NonalloyCast,
   * MediumCarbon, Copper, HighCarbon; None when no block ran.
   */
  method AxisOf(computed: map<Material, seq<Point>>) returns (axis: Option<Material>)
    ensures axis == FirstIn(AxisOrder, computed.Keys)
  {
    ghost var keys := computed.Keys;
    if Alu in computed {
      axis := Some(Alu);
      FirstInAt(AxisOrder, keys, 0);
    } else if St37 in computed {
      axis := Some(St37);
      FirstInAt(AxisOrder, keys, 1);
    } else if LabourHours in computed {
      axis := Some(LabourHours);
      FirstInAt(AxisOrder, keys, 2);
    } else if GreyCastIron in computed {
      axis := Some(GreyCastIron);
      FirstInAt(AxisOrder, keys, 3);
    } else if NodularCastIron in computed {
      axis := Some(NodularCastIron);
      FirstInAt(AxisOrder, keys, 4);
    } else if NonalloyCast in computed {
      axis := Some(NonalloyCast);
      FirstInAt(AxisOrder, keys, 5);
    } else if MediumCarbon in computed {
      axis := Some(MediumCarbon);
      FirstInAt(AxisOrder, keys, 6);
    } else if Copper in computed {
      axis := Some(Copper);
      FirstInAt(AxisOrder, keys, 7);
    } else if HighCarbon in computed {
      axis := Some(HighCarbon);
      FirstInAt(AxisOrder, keys, 8);
    } else {
      axis := None;
      assert forall j :: 0 <= j < |AxisOrder| ==> AxisOrder[j] !in keys;
    }
  }

  /**
   * The records: the `ds` column of the chosen frame, each month rendered
   * `YYYY-MM`, beside the total. When no block ran, the chain's last
   * branch names a variable that was never assigned (NameError).
   */
  method FinishBlocks(st: Locals, ghost n: nat) returns (r: Result<seq<Record>, EstimateError>)
    requires Fits(st, n)
    ensures r == Finish(st, n)
  {
    var axis := AxisOf(st.computed);
    if axis.None? {
      return Failure(NoMaterial);
    }
    r := Success(Records(Dates(st.computed[axis.value]), st.total.values));
  }

  /** `product_estimate_price(args)`. */
  method ProductEstimatePrice(args: Args, oracle: Oracle) returns (r: Result<seq<Record>, EstimateError>)
    ensures r == EstimatePrice(args, oracle)
  {
    var period: Value;
    if "months" in args.vals {
      period := args.vals["months"];
    } else {
      period := Whole(DefaultMonths);
    }
    var st :- RunBlocks(args, oracle, period);
    r := FinishBlocks(st, RowCount(args));
  }
}
