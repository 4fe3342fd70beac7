/**
 * The `/calculate/` and `/plot/` endpoints (main.py): the optional query
 * parameters are copied into the `materials` dict, the dict is validated,
 * and only then is the estimate computed.
 */
module Api {
  import opened Wrappers
  import opened ArgMap
  import opened Series
  import opened Validation
  import opened Forecast
  import opened Aggregate

  /** The sixteen query parameters; a parameter left out of the query is None. */
  datatype Query = Query(
    st37: Option<real>, copper: Option<real>, pSt37: Option<real>, pHighCarbon: Option<real>,
    alu: Option<real>, labour: Option<real>, highCarbon: Option<real>, mediumCarbon: Option<real>,
    pMediumCarbon: Option<real>, pNodularCastIron: Option<real>, nodularCastIron: Option<real>,
    greyCastIron: Option<real>, pGreyCastIron: Option<real>, nonalloyCast: Option<real>,
    pNonalloyCast: Option<real>, months: Option<int>)

  /** One `if x is not None: materials[key] = x` statement: the key and the parameter's value. */
  datatype Param = Param(key: string, value: Option<Value>)

  /** A float parameter as a dict value. */
  function Float(x: Option<real>): (r: Option<Value>)
    ensures r.Some? <==> x.Some?
    ensures r.Some? ==> r.value == Num(x.value)
  {
    match x
    case None => None
    case Some(v) => Some(Num(v))
  }

  /** The int parameter `months` as a dict value. */
  function Int(x: Option<int>): (r: Option<Value>)
    ensures r.Some? <==> x.Some?
    ensures r.Some? ==> r.value == Whole(x.value)
  {
    match x
    case None => None
    case Some(v) => Some(Whole(v))
  }

  /** The assignments in the order the endpoints make them; `labour` is stored as `labour_hours`. */
  function Params(q: Query): (r: seq<Param>)
    ensures |r| == 16 && forall i :: 0 <= i < |r| ==> r[i].value != Some(Null)
  {
    [ Param("st37", Float(q.st37)),
      Param("copper", Float(q.copper)),
      Param("p_st37", Float(q.pSt37)),
      Param("alu", Float(q.alu)),
      Param("labour_hours", Float(q.labour)),
      Param("high_carbon", Float(q.highCarbon)),
      Param("p_high_carbon", Float(q.pHighCarbon)),
      Param("grey_cast_iron", Float(q.greyCastIron)),
      Param("p_grey_cast_iron", Float(q.pGreyCastIron)),
      Param("nodular_cast_iron", Float(q.nodularCastIron)),
      Param("p_nodular_cast_iron", Float(q.pNodularCastIron)),
      Param("nonalloy_cast", Float(q.nonalloyCast)),
      Param("p_nonalloy_cast", Float(q.pNonalloyCast)),
      Param("medium_carbon", Float(q.mediumCarbon)),
      Param("p_medium_carbon", Float(q.pMediumCarbon)),
      Param("months", Int(q.months)) ]
  }

  /** The keys the endpoints can write, in order. */
  const ParamKeys: seq<string> :=
    [ "st37", "copper", "p_st37", "alu", "labour_hours", "high_carbon", "p_high_carbon",
      "grey_cast_iron", "p_grey_cast_iron", "nodular_cast_iron", "p_nodular_cast_iron",
      "nonalloy_cast", "p_nonalloy_cast", "medium_carbon", "p_medium_carbon", "months" ]

  lemma ParamsKeys(q: Query)
    ensures |Params(q)| == |ParamKeys|
    ensures forall i :: 0 <= i < |ParamKeys| ==> Params(q)[i].key == ParamKeys[i]
  {
  }

  /** No key is written twice. */
  lemma ParamKeysDistinct()
    ensures forall i, j :: 0 <= i < j < |ParamKeys| ==> ParamKeys[i] != ParamKeys[j]
  {
  }

  /** The assignments ps made in order on the dict a, skipping the None ones. */
  function Fill(a: Args, ps: seq<Param>): (r: Args)
    requires a.Valid()
    ensures r.Valid()
    decreases |ps|
  {
    if ps == [] then a
    else
      var next := if ps[0].value.Some? then Insert(a, ps[0].key, ps[0].value.value) else a;
      Fill(next, ps[1..])
  }

  /** The keys of the assignments that are made, in order. */
  function PresentKeys(ps: seq<Param>): (r: seq<string>)
    ensures forall k :: k in r <==> exists i :: 0 <= i < |ps| && ps[i].key == k && ps[i].value.Some?
  {
    if ps == [] then []
    else
      var rest := PresentKeys(ps[1..]);
      assert forall i :: 1 <= i < |ps| ==> ps[i] == ps[1..][i - 1];
      assert forall k :: k in rest ==> exists i :: 0 <= i < |ps| && ps[i].key == k && ps[i].value.Some? by {
        forall k | k in rest
          ensures exists i :: 0 <= i < |ps| && ps[i].key == k && ps[i].value.Some?
        {
          var j :| 0 <= j < |ps[1..]| && ps[1..][j].key == k && ps[1..][j].value.Some?;
          assert ps[j + 1].key == k && ps[j + 1].value.Some?;
        }
      }
      (if ps[0].value.Some? then [ps[0].key] else []) + rest
  }

  ghost predicate DistinctKeys(ps: seq<Param>) {
    forall i, j :: 0 <= i < j < |ps| ==> ps[i].key != ps[j].key
  }

  ghost predicate Fresh(a: Args, ps: seq<Param>) {
    forall i :: 0 <= i < |ps| ==> ps[i].key !in a.vals
  }

  lemma DistinctTail(ps: seq<Param>)
    requires ps != [] && DistinctKeys(ps)
    ensures DistinctKeys(ps[1..]) && forall i :: 0 <= i < |ps[1..]| ==> ps[1..][i].key != ps[0].key
  {
    forall i, j | 0 <= i < j < |ps[1..]|
      ensures ps[1..][i].key != ps[1..][j].key
    {
      assert ps[1..][i] == ps[i + 1] && ps[1..][j] == ps[j + 1];
    }
    forall i | 0 <= i < |ps[1..]|
      ensures ps[1..][i].key != ps[0].key
    {
      assert ps[1..][i] == ps[i + 1];
    }
  }

  lemma FreshTail(a: Args, next: Args, ps: seq<Param>)
    requires ps != [] && DistinctKeys(ps) && Fresh(a, ps)
    requires forall k :: k in next.vals ==> k in a.vals || k == ps[0].key
    ensures Fresh(next, ps[1..])
  {
    DistinctTail(ps);
    forall i | 0 <= i < |ps[1..]|
      ensures ps[1..][i].key !in next.vals
    {
      assert ps[1..][i] == ps[i + 1];
    }
  }

  /** Fresh, distinct keys go to the end of the order, in the order they are assigned. */
  lemma {:induction false} FillKeys(a: Args, ps: seq<Param>)
    requires a.Valid() && DistinctKeys(ps) && Fresh(a, ps)
    ensures Fill(a, ps).keys == a.keys + PresentKeys(ps)
    decreases |ps|
  {
    if ps != [] {
      var p := ps[0];
      var next := if p.value.Some? then Insert(a, p.key, p.value.value) else a;
      DistinctTail(ps);
      FreshTail(a, next, ps);
      FillKeys(next, ps[1..]);
      var rest := PresentKeys(ps[1..]);
      assert Fill(a, ps) == Fill(next, ps[1..]);
      if p.value.Some? {
        assert next.keys == a.keys + [p.key];
        assert PresentKeys(ps) == [p.key] + rest;
        assert (a.keys + [p.key]) + rest == a.keys + ([p.key] + rest);
      } else {
        assert PresentKeys(ps) == rest;
      }
    }
  }

  /**
   * After the assignments, key ps[i].key is present exactly when its value
   * is not None, and then holds that value; every other key keeps what it
   * had.
   */
  lemma {:induction false} FillVals(a: Args, ps: seq<Param>)
    requires a.Valid() && DistinctKeys(ps)
    ensures forall i :: 0 <= i < |ps| && ps[i].value.Some? ==>
      ps[i].key in Fill(a, ps).vals && Fill(a, ps).vals[ps[i].key] == ps[i].value.value
    ensures forall k :: (forall i :: 0 <= i < |ps| ==> ps[i].key != k || ps[i].value.None?) ==>
      (k in Fill(a, ps).vals <==> k in a.vals) && (k in a.vals ==> Fill(a, ps).vals[k] == a.vals[k])
    decreases |ps|
  {
    if ps != [] {
      var next := if ps[0].value.Some? then Insert(a, ps[0].key, ps[0].value.value) else a;
      var tail := ps[1..];
      assert forall i :: 1 <= i < |ps| ==> ps[i] == tail[i - 1];
      DistinctTail(ps);
      FillVals(next, tail);
      var f := Fill(a, ps);
      assert f == Fill(next, tail);
    }
  }

  /** The `materials` dict the endpoints build from a query. */
  function RequestArgs(q: Query): (r: Args)
    ensures r.Valid()
  {
    Fill(Args([], map[]), Params(q))
  }

  /** The request dict's keys are the given parameters, in the endpoints' order. */
  lemma RequestKeysInOrder(q: Query)
    ensures RequestArgs(q).keys == PresentKeys(Params(q))
  {
    ParamsKeys(q);
    ParamKeysDistinct();
    FillKeys(Args([], map[]), Params(q));
  }

  /**
   * Each parameter is in the dict exactly when it was given, under its
   * key, with its value; nothing else is.
   */
  lemma RequestValues(q: Query)
    ensures forall i :: 0 <= i < 16 ==>
      (ParamKeys[i] in RequestArgs(q).vals <==> Params(q)[i].value.Some?)
      && (Params(q)[i].value.Some? ==> RequestArgs(q).vals[ParamKeys[i]] == Params(q)[i].value.value)
    ensures forall k :: k in RequestArgs(q).vals ==> k in ParamKeys
  {
    var ps := Params(q);
    ParamsKeys(q);
    ParamKeysDistinct();
    FillVals(Args([], map[]), ps);
  }

  /** Assignments that never write None leave a dict without None without one. */
  lemma {:induction false} FillNoNull(a: Args, ps: seq<Param>)
    requires a.Valid()
    requires forall k :: k in a.vals ==> a.vals[k] != Null
    requires forall i :: 0 <= i < |ps| ==> ps[i].value != Some(Null)
    ensures forall k :: k in Fill(a, ps).vals ==> Fill(a, ps).vals[k] != Null
    decreases |ps|
  {
    if ps != [] {
      var next := if ps[0].value.Some? then Insert(a, ps[0].key, ps[0].value.value) else a;
      assert forall i :: 0 <= i < |ps[1..]| ==> ps[1..][i] == ps[i + 1];
      FillNoNull(next, ps[1..]);
    }
  }

  /** The dict never holds None: a parameter that is None is not written. */
  lemma RequestHasNoNull(q: Query)
    ensures forall k :: k in RequestArgs(q).vals ==> RequestArgs(q).vals[k] != Null
  {
    FillNoNull(Args([], map[]), Params(q));
  }

  /** No parameter is written under the key `labour`. */
  lemma LabourIsNoKey()
    ensures "labour" !in ParamKeys
  {
    forall i | 0 <= i < |ParamKeys|
      ensures ParamKeys[i] != "labour"
    {
      var k := ParamKeys[i];
      assert |k| != 6 || k[0] != 'l';
    }
  }

  /** The `labour` parameter is stored as `labour_hours`: the key `labour` never occurs. */
  lemma LabourStoredAsLabourHours(q: Query)
    ensures "labour" !in RequestArgs(q).vals
    ensures "labour_hours" in RequestArgs(q).vals <==> q.labour.Some?
    ensures q.labour.Some? ==> RequestArgs(q).vals["labour_hours"] == Num(q.labour.value)
  {
    RequestValues(q);
    LabourIsNoKey();
    assert ParamKeys[4] == "labour_hours" && Params(q)[4].value == Float(q.labour);
  }

  /** Each guarded assignment of ps in turn: a parameter that is None is skipped. */
  method Assign(d: Dict, ps: seq<Param>)
    requires d.Valid()
    modifies d
    ensures d.Valid() && d.Snapshot() == Fill(old(d.Snapshot()), ps)
  {
    var i := 0;
    while i < |ps|
      invariant 0 <= i <= |ps| && d.Valid()
      invariant Fill(d.Snapshot(), ps[i..]) == Fill(old(d.Snapshot()), ps)
    {
      assert ps[i..][0] == ps[i] && ps[i..][1..] == ps[i + 1..];
      if ps[i].value.Some? {
        d.Set(ps[i].key, ps[i].value.value);
      }
      i := i + 1;
    }
    assert ps[i..] == [];
  }

  /**
   * Building `materials`: a fresh dict, then the sixteen statements
   * `if x is not None: materials[key] = x`, in order.
   */
  method BuildArgs(q: Query) returns (args: Args)
    ensures args == RequestArgs(q)
  {
    var materials := new Dict();
    Assign(materials, Params(q));
    args := materials.Snapshot();
  }

  /** What an endpoint answers: an HTTP 400 with a detail text, a server error, or the records. */
  datatype ApiError = BadRequest(detail: string) | ServerError(error: EstimateError)

  /** `validate_arguments(materials)` then `product_estimate_price(materials)`. */
  function Respond(args: Args, oracle: Oracle): (r: Result<seq<Record>, ApiError>)
    requires args.Valid()
  {
    match Validate(args)
    case Fail(e) => Failure(BadRequest(Message(e)))
    case Pass => EstimatePrice(args, oracle).MapFailure(e => ServerError(e))
  }

  /**
   * `calculate` and `plot` alike: build the dict, validate it (a failure
   * is the 400 response) and only then estimate. `plot` goes on to draw
   * the records, which this model leaves out.
   */
  method Answer(q: Query, oracle: Oracle) returns (r: Result<seq<Record>, ApiError>)
    ensures r == Respond(RequestArgs(q), oracle)
  {
    var materials := BuildArgs(q);
    var verdict := Validate(materials);
    if verdict.Fail? {
      return Failure(BadRequest(Message(verdict.error)));
    }
    var predictions := ProductEstimatePrice(materials, oracle);
    r := predictions.MapFailure(e => ServerError(e));
  }

  // ---------------------------------------------------------------------
  // Properties of the endpoints

  /** A rejected request never reaches the models: its answer is the same whatever they forecast. */
  lemma RejectionIgnoresModels(q: Query, o1: Oracle, o2: Oracle)
    requires Validate(RequestArgs(q)).Fail?
    ensures Respond(RequestArgs(q), o1) == Respond(RequestArgs(q), o2)
    ensures Respond(RequestArgs(q), o1).Failure? && Respond(RequestArgs(q), o1).error.BadRequest?
  {
  }

  /**
   * A request that passes validation and carries any counted spot price
   * carries one for every counted material it gives.
   */
  lemma AcceptedMeansAllOrNothing(q: Query)
    requires Validate(RequestArgs(q)).Pass?
    ensures HasSpotPrice(RequestArgs(q)) ==>
      forall k :: k in RequestArgs(q).vals && IsMaterialKey(k) ==> "p_" + k in RequestArgs(q).vals
  {
    ValidatePassesIff(RequestArgs(q));
    RequestHasNoNull(q);
  }
}
