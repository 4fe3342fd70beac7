/**
 * The request map that main.py builds and utili.py reads: a Python dict
 * from string keys to values, which remembers the order of insertion.
 */
module ArgMap {
  import opened Wrappers

  /** A value stored in the map: Python None, a float, or an int. */
  datatype Value = Null | Num(x: real) | Whole(n: int)

  /**
   * The value as a factor in `series * value`; None is not a number
   * (Python raises TypeError).
   */
  function AsReal(v: Value): (r: Option<real>)
    ensures r.None? <==> v.Null?
    ensures v.Num? ==> r == Some(v.x)
    ensures v.Whole? ==> r == Some(v.n as real)
  {
    match v
    case Null => None
    case Num(x) => Some(x)
    case Whole(n) => Some(n as real)
  }

  /** An insertion-ordered dict: its keys in order, and what each maps to. */
  datatype Args = Args(keys: seq<string>, vals: map<string, Value>) {

    /** Each key occurs once, and the keys are exactly the domain of the map. */
    ghost predicate Valid() {
      && (forall i, j :: 0 <= i < j < |keys| ==> keys[i] != keys[j])
      && (forall k :: k in vals <==> k in keys)
    }
  }

  /**
   * `d[k] = v`: a new key goes to the end of the order, an existing key
   * keeps its place and gets the new value.
   */
  function Insert(a: Args, k: string, v: Value): (r: Args)
    requires a.Valid()
    ensures r.Valid()
    ensures r.vals == a.vals[k := v]
    ensures k in a.vals ==> r.keys == a.keys
    ensures k !in a.vals ==> r.keys == a.keys + [k]
  {
    if k in a.vals then Args(a.keys, a.vals[k := v]) else Args(a.keys + [k], a.vals[k := v])
  }

  /** A dict that is filled by successive assignments, as `materials` is in main.py. */
  class Dict {
    var keys: seq<string>
    var vals: map<string, Value>

    ghost predicate Valid()
      reads this
    {
      Snapshot().Valid()
    }

    /** The dict's current contents as a value. */
    function Snapshot(): Args
      reads this
    {
      Args(keys, vals)
    }

    /** `{}` */
    constructor ()
      ensures Valid() && Snapshot() == Args([], map[])
    {
      keys := [];
      vals := map[];
    }

    /** `self[k] = v` */
    method Set(k: string, v: Value)
      requires Valid()
      modifies this
      ensures Valid()
      ensures Snapshot() == Insert(old(Snapshot()), k, v)
    {
      if k !in vals {
        keys := keys + [k];
      }
      vals := vals[k := v];
    }
  }
}
