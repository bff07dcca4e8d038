/** Loosely typed JSON values as the ETL scripts receive them from the remote
    API and from the interchange files, with the few Python built-ins the
    scripts apply to them (`dict.get`, `float()`, `len()`). */
module Json {
  import opened Collections

  /** A decoded JSON value. `Bool` and `Int` stay apart from `Number` because
      Python keeps `True`, `3` and `3.0` apart. */
  datatype Value =
    | Null
    | Bool(b: bool)
    | Int(i: int)
    | Number(r: real)
    | Str(s: string)
    | List(items: seq<Value>)
    | Object(fields: map<string, Value>)

  /** A raw or processed record: a JSON object. */
  type Item = map<string, Value>

  /** The exceptions the scripts can raise on an unexpected value. */
  datatype PyError =
    | TypeError(culprit: Value)    // float(None), float([...]), len(3), ...
    | ValueError(text: string)     // float("abc")
    | OverflowError(culprit: Value) // float(10 ** 400)

  /** A dict display `{k0: v0, k1: v1, ...}`: the entries in order, a later
      duplicate key overwriting an earlier one. */
  function Record(keys: seq<string>, values: seq<Value>): Item
    requires |keys| == |values|
    decreases |keys|
  {
    if keys == [] then map[]
    else Record(keys[..|keys| - 1], values[..|values| - 1])[keys[|keys| - 1] := values[|values| - 1]]
  }

  predicate Distinct(keys: seq<string>)
  {
    forall i, j :: 0 <= i < j < |keys| ==> keys[i] != keys[j]
  }

  /** A record holds exactly the keys of its display ... */
  lemma {:induction false} RecordKeys(keys: seq<string>, values: seq<Value>)
    requires |keys| == |values|
    ensures Record(keys, values).Keys == set k | k in keys
    decreases |keys|
  {
    if keys != [] {
      var n := |keys| - 1;
      RecordKeys(keys[..n], values[..n]);
      assert keys == keys[..n] + [keys[n]];
    }
  }

  /** ... and, when no key repeats, the value written beside each. */
  lemma {:induction false} RecordAt(keys: seq<string>, values: seq<Value>, i: nat)
    requires |keys| == |values| && Distinct(keys) && i < |keys|
    ensures keys[i] in Record(keys, values) && Record(keys, values)[keys[i]] == values[i]
    decreases |keys|
  {
    var n := |keys| - 1;
    if i < n {
      RecordAt(keys[..n], values[..n], i);
      assert keys[..n][i] == keys[i] != keys[n];
    }
  }

  /** `item.get(key, default)`. */
  function GetOr(item: Item, key: string, default: Value): Value
  {
    if key in item then item[key] else default
  }

  /** `item.get(key)`: a missing key reads as `None`. */
  function Get(item: Item, key: string): Value
  {
    GetOr(item, key, Null)
  }

  /** `item.get('category') == name`. */
  predicate HasCategory(item: Item, name: string)
  {
    Get(item, "category") == Str(name)
  }

  /** The least magnitude of an int that `float()` rounds past the largest
      double, 2 ** 1024 - 2 ** 970. */
  const FloatOverflow: int := 0xffff_ffff_ffff_fc00_0000_0000_0000_0000_0000_0000_0000_0000_0000_0000_0000_0000_0000_0000_0000_0000_0000_0000_0000_0000_0000_0000_0000_0000_0000_0000_0000_0000_0000_0000_0000_0000_0000_0000_0000_0000_0000_0000_0000_0000_0000_0000_0000_0000_0000_0000_0000_0000_0000_0000_0000_0000_0000_0000_0000_0000_0000_0000_0000_0000

  /** Python's `float(v)`. Parsing the text of a string is the library's
      business and is passed in as `parseFloat`. An int converts unless its
      magnitude reaches `FloatOverflow`. */
  function ToFloat(v: Value, parseFloat: string -> Option<real>): (r: Result<real, PyError>)
    ensures r.Ok? <==> v.Bool? || v.Number? || (v.Int? && -FloatOverflow < v.i < FloatOverflow)
                       || (v.Str? && parseFloat(v.s).Some?)
    ensures r.Ok? && (v.Int? || v.Number?) ==> r.value == (if v.Int? then v.i as real else v.r)
    ensures v.Bool? ==> r == Ok(if v.b then 1.0 else 0.0)
    ensures v.Int? && !(-FloatOverflow < v.i < FloatOverflow) ==> r == Err(OverflowError(v))
    ensures v.Str? && parseFloat(v.s).Some? ==> r == Ok(parseFloat(v.s).value)
    ensures v.Str? && parseFloat(v.s).None? ==> r == Err(ValueError(v.s))
    ensures v.Null? || v.List? || v.Object? ==> r == Err(TypeError(v))
  {
    match v
    case Bool(b) => Ok(if b then 1.0 else 0.0)
    case Int(i) => if -FloatOverflow < i < FloatOverflow then Ok(i as real) else Err(OverflowError(v))
    case Number(x) => Ok(x)
    case Str(s) =>
      (match parseFloat(s)
       case Some(x) => Ok(x)
       case None => Err(ValueError(s)))
    case _ => Err(TypeError(v))
  }

  /** Python's `len(v)`: the number of characters, elements or keys of a
      string, list or object; anything else raises `TypeError`. */
  function Len(v: Value): (r: Result<nat, PyError>)
    ensures r.Ok? <==> v.Str? || v.List? || v.Object?
    ensures v.Str? ==> r == Ok(|v.s|)
    ensures v.List? ==> r == Ok(|v.items|)
    ensures v.Object? ==> r == Ok(|v.fields|)
    ensures r.Err? ==> r.error == TypeError(v)
  {
    match v
    case Str(s) => Ok(|s|)
    case List(xs) => Ok(|xs|)
    case Object(m) => Ok(|m|)
    case _ => Err(TypeError(v))
  }
}
