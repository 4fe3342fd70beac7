/**
 * `validate_arguments` (utili.py): the pairing rules between material
 * weights and spot prices, decided over the request map before any
 * forecast is made.
 */
module Validation {
  import opened Wrappers
  import opened ArgMap

  /** Keys that never count, neither as a material nor (after `p_`) as a spot price. */
  const NonMaterialKeys: set<string> := {"labour_hours", "alu", "months", "copper"}

  /** `key.startswith('p_')` */
  predicate HasSpotPrefix(k: string) {
    |k| >= 2 && k[..2] == "p_"
  }

  /** A key that goes into `spot_price_keys`. */
  predicate IsSpotPriceKey(k: string) {
    HasSpotPrefix(k) && AfterPrefix(k) !in NonMaterialKeys
  }

  /** A key that goes into `material_keys`. */
  predicate IsMaterialKey(k: string) {
    k !in NonMaterialKeys && !HasSpotPrefix(k)
  }

  /** `key[2:]`: the key without its first two characters (empty when shorter). */
  function AfterPrefix(k: string): (r: string)
    ensures |k| >= 2 ==> k == k[..2] + r
  {
    if |k| >= 2 then k[2..] else []
  }

  /** No excluded key itself starts with `p_`. */
  lemma NonMaterialKeysUnprefixed()
    ensures forall k :: k in NonMaterialKeys ==> !HasSpotPrefix(k)
  {
    assert "labour_hours"[0] == 'l' && "alu"[0] == 'a' && "months"[0] == 'm' && "copper"[0] == 'c';
  }

  /** `"p_" + m` strips back to `m`. */
  lemma SpotKeyOf(m: string)
    ensures HasSpotPrefix("p_" + m) && AfterPrefix("p_" + m) == m
  {
    assert ("p_" + m)[..2] == "p_";
    assert ("p_" + m)[2..] == m;
  }

  /** The spot-price keys of the map, in insertion order. */
  function SpotPriceKeys(keys: seq<string>): seq<string>
  {
    if keys == [] then []
    else (if IsSpotPriceKey(keys[0]) then [keys[0]] else []) + SpotPriceKeys(keys[1..])
  }
  /** The comprehension keeps exactly the spot-price keys of the map. */
  lemma {:induction false} SpotPriceKeysMembers(keys: seq<string>)
    ensures forall k :: k in SpotPriceKeys(keys) <==> k in keys && IsSpotPriceKey(k)
  {
    if keys != [] {
      SpotPriceKeysMembers(keys[1..]);
      assert keys == [keys[0]] + keys[1..];
    }
  }


  /** The material keys of the map, in insertion order. */
  function MaterialKeys(keys: seq<string>): seq<string>
  {
    if keys == [] then []
    else (if IsMaterialKey(keys[0]) then [keys[0]] else []) + MaterialKeys(keys[1..])
  }
  /** The comprehension keeps exactly the material keys of the map. */
  lemma {:induction false} MaterialKeysMembers(keys: seq<string>)
    ensures forall k :: k in MaterialKeys(keys) <==> k in keys && IsMaterialKey(k)
  {
    if keys != [] {
      MaterialKeysMembers(keys[1..]);
      assert keys == [keys[0]] + keys[1..];
    }
  }


  /** The two client errors (HTTP 400) that validation raises, each naming a material. */
  datatype ValidationError = WeightMissing(material: string) | SpotPriceMissing(material: string)

  /** Validation passes (returns None) or raises one error. */
  datatype Verdict = Pass | Fail(error: ValidationError)

  /** The `detail` text of the raised HTTPException. */
  function Message(e: ValidationError): string {
    match e
    case WeightMissing(m) => "Weight for " + m + " is missing while its spot price is provided."
    case SpotPriceMissing(m) => "Spot price for " + m + " is missing while other materials have spot prices."
  }

  /**
   * The first loop: the material of the first spot-price key, in order,
   * whose material is not among the material keys.
   */
  function FirstUnweighted(spots: seq<string>, materials: seq<string>): (r: Option<string>)
    ensures r.None? <==> forall s :: s in spots ==> AfterPrefix(s) in materials
    ensures r.Some? ==> r.value !in materials
  {
    if spots == [] then None
    else if AfterPrefix(spots[0]) !in materials then assert spots[0] in spots; Some(AfterPrefix(spots[0]))
    else FirstUnweighted(spots[1..], materials)
  }

  /**
   * The second loop: the first material key, in order, that has no spot
   * price and whose value is not None.
   */
  function FirstUnpriced(materials: seq<string>, spots: seq<string>, vals: map<string, Value>): (r: Option<string>)
    requires forall m :: m in materials ==> m in vals
    ensures r.None? <==> forall m :: m in materials ==> "p_" + m in spots || vals[m] == Null
    ensures r.Some? ==> r.value in materials && "p_" + r.value !in spots && vals[r.value] != Null
  {
    if materials == [] then None
    else if "p_" + materials[0] !in spots && vals[materials[0]] != Null then Some(materials[0])
    else FirstUnpriced(materials[1..], spots, vals)
  }

  /** `validate_arguments(args)`: the pairing check runs to completion before the all-or-nothing check. */
  function Validate(args: Args): Verdict
    requires args.Valid()
  {
    MaterialKeysMembers(args.keys);
    var spots := SpotPriceKeys(args.keys);
    var materials := MaterialKeys(args.keys);
    match FirstUnweighted(spots, materials)
    case Some(m) => Fail(WeightMissing(m))
    case None =>
      if spots == [] then Pass
      else match FirstUnpriced(materials, spots, args.vals)
        case Some(m) => Fail(SpotPriceMissing(m))
        case None => Pass
  }

  // ---------------------------------------------------------------------
  // The rules stated directly over the request map.

  /** Every counted spot price `p_M` comes with a material key `M`. */
  ghost predicate PairingHolds(args: Args) {
    forall k :: k in args.keys && IsSpotPriceKey(k) ==> AfterPrefix(k) in args.keys && IsMaterialKey(AfterPrefix(k))
  }

  /** Some counted spot price is present. */
  ghost predicate HasSpotPrice(args: Args) {
    exists k :: k in args.keys && IsSpotPriceKey(k)
  }

  /** When any spot price is given, every counted material whose value is not None has one. */
  ghost predicate AllOrNothingHolds(args: Args) {
    HasSpotPrice(args) ==>
      forall k :: k in args.vals && IsMaterialKey(k) && args.vals[k] != Null ==> "p_" + k in args.vals
  }

  /** Key i is a counted spot price whose weight is missing. */
  ghost predicate Unweighted(args: Args, i: int) {
    && 0 <= i < |args.keys|
    && IsSpotPriceKey(args.keys[i])
    && !(AfterPrefix(args.keys[i]) in args.keys && IsMaterialKey(AfterPrefix(args.keys[i])))
  }

  /** Key i is a counted material with a value and without a spot price. */
  ghost predicate Unpriced(args: Args, i: int) {
    && 0 <= i < |args.keys|
    && IsMaterialKey(args.keys[i])
    && args.keys[i] in args.vals
    && args.vals[args.keys[i]] != Null
    && "p_" + args.keys[i] !in args.keys
  }

  lemma SpotPriceKeysNonEmpty(keys: seq<string>)
    ensures SpotPriceKeys(keys) != [] <==> exists k :: k in keys && IsSpotPriceKey(k)
  {
    SpotPriceKeysMembers(keys);
    var spots := SpotPriceKeys(keys);
    if spots != [] {
      assert spots[0] in spots;
    }
  }

  /** For a material key, "has a spot-price key" is the same over the filtered list and over the map. */
  lemma SpotPriceOfMaterial(keys: seq<string>, m: string)
    requires IsMaterialKey(m)
    ensures "p_" + m in SpotPriceKeys(keys) <==> "p_" + m in keys
  {
    SpotPriceKeysMembers(keys);
    SpotKeyOf(m);
  }

  /** Validation passes exactly when both rules hold. */
  lemma ValidatePassesIff(args: Args)
    requires args.Valid()
    ensures Validate(args).Pass? <==> PairingHolds(args) && AllOrNothingHolds(args)
  {
    var spots := SpotPriceKeys(args.keys);
    var materials := MaterialKeys(args.keys);
    SpotPriceKeysMembers(args.keys);
    MaterialKeysMembers(args.keys);
    SpotPriceKeysNonEmpty(args.keys);
    forall m | m in materials
      ensures "p_" + m in spots <==> "p_" + m in args.vals
    {
      SpotPriceOfMaterial(args.keys, m);
    }
  }

  /** With no counted spot price, validation always passes. */
  lemma NoSpotPriceMeansPass(args: Args)
    requires args.Valid() && !HasSpotPrice(args)
    ensures Validate(args) == Pass
  {
    SpotPriceKeysNonEmpty(args.keys);
  }

  lemma {:induction false} FirstUnweightedAt(keys: seq<string>, materials: seq<string>, i: nat)
    requires i < |keys| && IsSpotPriceKey(keys[i]) && AfterPrefix(keys[i]) !in materials
    requires forall j :: 0 <= j < i && IsSpotPriceKey(keys[j]) ==> AfterPrefix(keys[j]) in materials
    ensures FirstUnweighted(SpotPriceKeys(keys), materials) == Some(AfterPrefix(keys[i]))
  {
    var rest := SpotPriceKeys(keys[1..]);
    if i == 0 {
      assert SpotPriceKeys(keys) == [keys[0]] + rest;
    } else {
      FirstUnweightedAt(keys[1..], materials, i - 1);
      if IsSpotPriceKey(keys[0]) {
        assert SpotPriceKeys(keys) == [keys[0]] + rest;
        assert ([keys[0]] + rest)[1..] == rest;
      } else {
        assert SpotPriceKeys(keys) == [] + rest == rest;
      }
    }
  }

  lemma {:induction false} FirstUnpricedAt(keys: seq<string>, spots: seq<string>, vals: map<string, Value>, i: nat)
    requires forall k :: k in keys ==> k in vals
    requires forall k :: k in MaterialKeys(keys) ==> k in vals
    requires i < |keys| && IsMaterialKey(keys[i]) && "p_" + keys[i] !in spots && vals[keys[i]] != Null
    requires forall j :: 0 <= j < i && IsMaterialKey(keys[j]) ==> "p_" + keys[j] in spots || vals[keys[j]] == Null
    ensures FirstUnpriced(MaterialKeys(keys), spots, vals) == Some(keys[i])
  {
    MaterialKeysMembers(keys);
    var rest := MaterialKeys(keys[1..]);
    MaterialKeysMembers(keys[1..]);
    if i == 0 {
      assert MaterialKeys(keys) == [keys[0]] + rest;
    } else {
      FirstUnpricedAt(keys[1..], spots, vals, i - 1);
      if IsMaterialKey(keys[0]) {
        assert MaterialKeys(keys) == [keys[0]] + rest;
        assert ([keys[0]] + rest)[1..] == rest;
      } else {
        assert MaterialKeys(keys) == [] + rest == rest;
      }
    }
  }

  /**
   * The pairing check names the material of the FIRST unpaired spot price in
   * insertion order, whatever the all-or-nothing check would say.
   */
  lemma ValidateReportsFirstUnweighted(args: Args, i: nat)
    requires args.Valid()
    requires Unweighted(args, i) && forall j :: 0 <= j < i ==> !Unweighted(args, j)
    ensures Validate(args) == Fail(WeightMissing(AfterPrefix(args.keys[i])))
  {
    var materials := MaterialKeys(args.keys);
    MaterialKeysMembers(args.keys);
    forall j | 0 <= j < i && IsSpotPriceKey(args.keys[j])
      ensures AfterPrefix(args.keys[j]) in materials
    {
      assert !Unweighted(args, j);
    }
    FirstUnweightedAt(args.keys, materials, i);
  }

  /**
   * Once every spot price is paired and one is present, the all-or-nothing
   * check names the FIRST unpriced material in insertion order.
   */
  lemma ValidateReportsFirstUnpriced(args: Args, i: nat)
    requires args.Valid() && PairingHolds(args) && HasSpotPrice(args)
    requires Unpriced(args, i) && forall j :: 0 <= j < i ==> !Unpriced(args, j)
    ensures Validate(args) == Fail(SpotPriceMissing(args.keys[i]))
  {
    var spots := SpotPriceKeys(args.keys);
    var materials := MaterialKeys(args.keys);
    SpotPriceKeysMembers(args.keys);
    MaterialKeysMembers(args.keys);
    SpotPriceKeysNonEmpty(args.keys);
    assert FirstUnweighted(spots, materials).None?;
    forall j | 0 <= j <= i && IsMaterialKey(args.keys[j])
      ensures "p_" + args.keys[j] in spots <==> "p_" + args.keys[j] in args.keys
    {
      SpotPriceOfMaterial(args.keys, args.keys[j]);
    }
    forall j | 0 <= j < i && IsMaterialKey(args.keys[j])
      ensures "p_" + args.keys[j] in spots || args.vals[args.keys[j]] == Null
    {
      assert !Unpriced(args, j);
    }
    FirstUnpricedAt(args.keys, spots, args.vals, i);
  }

  lemma {:induction false} SpotPriceKeysAppend(a: seq<string>, b: seq<string>)
    ensures SpotPriceKeys(a + b) == SpotPriceKeys(a) + SpotPriceKeys(b)
  {
    if a == [] {
      assert a + b == b;
    } else {
      var h := if IsSpotPriceKey(a[0]) then [a[0]] else [];
      var x, y := SpotPriceKeys(a[1..]), SpotPriceKeys(b);
      SpotPriceKeysAppend(a[1..], b);
      assert (a + b)[0] == a[0] && (a + b)[1..] == a[1..] + b;
      assert SpotPriceKeys(a + b) == h + (x + y);
      assert SpotPriceKeys(a) == h + x;
      assert h + (x + y) == (h + x) + y;
    }
  }


  lemma {:induction false} MaterialKeysAppend(a: seq<string>, b: seq<string>)
    ensures MaterialKeys(a + b) == MaterialKeys(a) + MaterialKeys(b)
  {
    if a == [] {
      assert a + b == b;
    } else {
      var h := if IsMaterialKey(a[0]) then [a[0]] else [];
      var x, y := MaterialKeys(a[1..]), MaterialKeys(b);
      MaterialKeysAppend(a[1..], b);
      assert (a + b)[0] == a[0] && (a + b)[1..] == a[1..] + b;
      assert MaterialKeys(a + b) == h + (x + y);
      assert MaterialKeys(a) == h + x;
      assert h + (x + y) == (h + x) + y;
    }
  }


  lemma {:induction false} FirstUnpricedSameValues(materials: seq<string>, spots: seq<string>, vals: map<string, Value>, vals': map<string, Value>)
    requires forall m :: m in materials ==> m in vals && m in vals' && vals[m] == vals'[m]
    ensures FirstUnpriced(materials, spots, vals) == FirstUnpriced(materials, spots, vals')
  {
    if materials != [] {
      FirstUnpricedSameValues(materials[1..], spots, vals, vals');
    }
  }

  /**
   * A key in the exclusion set, or its `p_` form, never affects the verdict:
   * adding `alu`, `copper`, `p_alu`, `p_copper`, `months`, ... to a request
   * leaves validation as it was.
   */
  lemma ExcludedKeyIsIgnored(args: Args, k: string, v: Value)
    requires args.Valid() && k !in args.vals
    requires k in NonMaterialKeys || (HasSpotPrefix(k) && AfterPrefix(k) in NonMaterialKeys)
    ensures Validate(Insert(args, k, v)) == Validate(args)
  {
    var args' := Insert(args, k, v);
    NonMaterialKeysUnprefixed();
    SpotPriceKeysAppend(args.keys, [k]);
    MaterialKeysAppend(args.keys, [k]);
    assert SpotPriceKeys([k]) == [] by {
      assert [k][1..] == [];
      assert SpotPriceKeys([k]) == (if IsSpotPriceKey(k) then [k] else []) + SpotPriceKeys([]);
    }
    assert MaterialKeys([k]) == [] by {
      assert [k][1..] == [];
      assert MaterialKeys([k]) == (if IsMaterialKey(k) then [k] else []) + MaterialKeys([]);
    }
    MaterialKeysMembers(args.keys);
    assert SpotPriceKeys(args'.keys) == SpotPriceKeys(args.keys);
    assert MaterialKeys(args'.keys) == MaterialKeys(args.keys);
    FirstUnpricedSameValues(MaterialKeys(args.keys), SpotPriceKeys(args.keys), args.vals, args'.vals);
  }

  /** Different errors have different messages: a message names its material. */
  lemma MessageDeterminesError(e1: ValidationError, e2: ValidationError)
    requires Message(e1) == Message(e2)
    ensures e1 == e2
  {
    var s := Message(e1);
    assert s[0] == Message(e2)[0];
    match e1
    case WeightMissing(m1) =>
      var m2 := e2.material;
      var suffix := " is missing while its spot price is provided.";
      assert |m1| == |m2|;
      assert m1 == s[11..11 + |m1|];
      assert m2 == s[11..11 + |m2|];
    case SpotPriceMissing(m1) =>
      var m2 := e2.material;
      var suffix := " is missing while other materials have spot prices.";
      assert |m1| == |m2|;
      assert m1 == s[15..15 + |m1|];
      assert m2 == s[15..15 + |m2|];
  }

  // ---------------------------------------------------------------------
  // Requests as the endpoints build them

  /** A key that does not start with `p` has no spot-price prefix. */
  lemma NotSpotPrefixed(k: string)
    requires |k| >= 1 && k[0] != 'p'
    ensures !HasSpotPrefix(k)
  {
    if |k| >= 2 {
      assert k[..2][0] == k[0];
    }
  }

  /** alu is never a counted material: st37 with its spot price, and alu without one, is accepted. */
  lemma AluNeedsNoSpotPrice(w: real, p: real, a: real)
    ensures Validate(Args(["st37", "p_st37", "alu"], map["st37" := Num(w), "p_st37" := Num(p), "alu" := Num(a)])) == Pass
  {
    var args := Args(["st37", "p_st37", "alu"], map["st37" := Num(w), "p_st37" := Num(p), "alu" := Num(a)]);
    NotSpotPrefixed("st37");
    NotSpotPrefixed("alu");
    SpotKeyOf("st37");
    assert IsMaterialKey("st37") && !IsMaterialKey("alu") && !IsMaterialKey("p_st37");
    assert !IsSpotPriceKey("st37") && !IsSpotPriceKey("alu") && AfterPrefix("p_st37") == "st37";
    assert PairingHolds(args);
    assert AllOrNothingHolds(args);
    ValidatePassesIff(args);
  }

  /** A spot price alone is refused for want of its weight. */
  lemma LoneSpotPrice(p: real)
    ensures Validate(Args(["p_st37"], map["p_st37" := Num(p)])) == Fail(WeightMissing("st37"))
  {
  }

  /** Of two unpaired spot prices, the one inserted first is reported. */
  lemma FirstUnpairedReported(p1: real, p2: real)
    ensures Validate(Args(["p_high_carbon", "p_grey_cast_iron"], map["p_high_carbon" := Num(p1), "p_grey_cast_iron" := Num(p2)]))
      == Fail(WeightMissing("high_carbon"))
  {
  }

  /** The pairing check runs first: an unpaired spot price is reported before an unpriced material. */
  lemma PairingCheckedFirst(w: real, p: real)
    ensures Validate(Args(["st37", "p_high_carbon"], map["st37" := Num(w), "p_high_carbon" := Num(p)]))
      == Fail(WeightMissing("high_carbon"))
  {
    var args := Args(["st37", "p_high_carbon"], map["st37" := Num(w), "p_high_carbon" := Num(p)]);
    SpotKeyOf("high_carbon");
    assert AfterPrefix("p_high_carbon") == "high_carbon" && "high_carbon" !in args.keys;
    NotSpotPrefixed("st37");
    ValidateReportsFirstUnweighted(args, 1);
  }

  /** Once one material has a spot price, a counted material without one is refused. */
  lemma UnpricedMaterialReported(w1: real, p: real, w2: real)
    ensures Validate(Args(["st37", "p_st37", "high_carbon"], map["st37" := Num(w1), "p_st37" := Num(p), "high_carbon" := Num(w2)]))
      == Fail(SpotPriceMissing("high_carbon"))
  {
    var args := Args(["st37", "p_st37", "high_carbon"], map["st37" := Num(w1), "p_st37" := Num(p), "high_carbon" := Num(w2)]);
    PricedSt37Paired(args);
    HighCarbonFirstUnpriced(args);
    ValidateReportsFirstUnpriced(args, 2);
  }

  /** How the keys st37, p_st37 and high_carbon are classified. */
  lemma St37HighCarbonKinds()
    ensures IsMaterialKey("st37") && IsMaterialKey("high_carbon") && !IsMaterialKey("p_st37")
    ensures IsSpotPriceKey("p_st37") && AfterPrefix("p_st37") == "st37"
    ensures "p_" + "st37" == "p_st37" && "p_" + "high_carbon" == "p_high_carbon"
  {
    SpotKeyOf("st37");
    SpotKeyOf("high_carbon");
    NotSpotPrefixed("st37");
    NotSpotPrefixed("high_carbon");
  }

  /** st37 with its spot price, next to a material key, pairs every spot price. */
  lemma PricedSt37Paired(args: Args)
    requires args.keys == ["st37", "p_st37", "high_carbon"]
    ensures PairingHolds(args) && HasSpotPrice(args)
  {
    St37HighCarbonKinds();
    NotSpotPrefixed("high_carbon");
    assert args.keys[1] == "p_st37";
  }

  /** In that dict, high_carbon is the first counted material without its spot price. */
  lemma HighCarbonFirstUnpriced(args: Args)
    requires args.keys == ["st37", "p_st37", "high_carbon"]
    requires "high_carbon" in args.vals && args.vals["high_carbon"] != Null
    ensures !Unpriced(args, 0) && !Unpriced(args, 1) && Unpriced(args, 2)
  {
    St37HighCarbonKinds();
    assert args.keys[1] == "p_st37" && "p_high_carbon" !in args.keys;
  }
}
