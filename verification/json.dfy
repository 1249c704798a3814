/** An already-parsed JSON document and the building blocks of a
    non-strict shape validator over it: strings, booleans, arrays whose
    items all pass one validator, string-keyed records, and required,
    optional and defaulted object entries. The schemas of the manifest
    (module `Schema`) are assembled from these. */
module Json {
  import opened Results

  /** A JSON value. Objects are finite maps, since a parsed JavaScript
      object holds each key once. Numbers are never accepted by the
      manifest schema, so their payload is kept as an integer. */
  datatype Json =
    | Null
    | Bool(b: bool)
    | Str(s: string)
    | Num(n: int)
    | Arr(items: seq<Json>)
    | Obj(fields: map<string, Json>)

  /** Why a value was rejected: the object keys leading to it and the shape
      that was expected there. The wording is this model's own. */
  datatype Issue = Issue(path: seq<string>, expected: string)

  /** The issue `e`, seen from the object that holds it under `key`. */
  function Under(key: string, e: Issue): Issue {
    Issue([key] + e.path, e.expected)
  }

  // ---------------------------------------------------------------------
  // Encoders: the JSON a typed value is read back from.

  function FromString(s: string): Json {
    Str(s)
  }

  function FromBool(b: bool): Json {
    Bool(b)
  }

  function FromStrings(xs: seq<string>): (j: Json)
    ensures j.Arr? && |j.items| == |xs|
    ensures forall i :: 0 <= i < |xs| ==> j.items[i] == Str(xs[i])
  {
    Arr(seq(|xs|, i requires 0 <= i < |xs| => Str(xs[i])))
  }

  function FromStringMap(m: map<string, string>): (j: Json)
    ensures j.Obj? && j.fields.Keys == m.Keys
    ensures forall k :: k in m ==> j.fields[k] == Str(m[k])
  {
    Obj(map k | k in m :: Str(m[k]))
  }

  /** An object with an entry for `key` exactly when `v` is present. */
  function WithOptional<T>(o: map<string, Json>, key: string, v: Option<T>, encode: T -> Json): (r: map<string, Json>)
    ensures v.None? ==> r == o
    ensures v.Some? ==> r == o[key := encode(v.value)]
  {
    match v
    case None => o
    case Some(x) => o[key := encode(x)]
  }

  /** `v` encoded, when present. */
  function Encoded<T>(v: Option<T>, encode: T -> Json): Option<Json> {
    match v
    case None => None
    case Some(x) => Some(encode(x))
  }

  // ---------------------------------------------------------------------
  // Shapes, stated declaratively.

  predicate IsStringArray(j: Json) {
    j.Arr? && forall i :: 0 <= i < |j.items| ==> j.items[i].Str?
  }

  predicate IsStringRecord(j: Json) {
    j.Obj? && forall k :: k in j.fields ==> j.fields[k].Str?
  }

  /** `v` records exactly what `o` holds under `key`: absent stays absent. */
  predicate OptionalMatches<T>(o: map<string, Json>, key: string, v: Option<T>, encode: T -> Json) {
    match v
    case None => key !in o
    case Some(x) => key in o && o[key] == encode(x)
  }

  /** `o` with every key outside `keys` dropped. */
  function Only(o: map<string, Json>, keys: set<string>): (r: map<string, Json>)
    ensures r.Keys == o.Keys * keys
    ensures forall k :: k in r ==> r[k] == o[k]
  {
    map k | k in o && k in keys :: o[k]
  }

  // ---------------------------------------------------------------------
  // Validators.

  function AsString(j: Json): (r: Result<string, Issue>)
    ensures r.Ok? <==> j.Str?
    ensures r.Ok? ==> j == FromString(r.value)
  {
    match j
    case Str(s) => Ok(s)
    case _ => Err(Issue([], "string"))
  }

  function AsBool(j: Json): (r: Result<bool, Issue>)
    ensures r.Ok? <==> j.Bool?
    ensures r.Ok? ==> j == FromBool(r.value)
  {
    match j
    case Bool(b) => Ok(b)
    case _ => Err(Issue([], "boolean"))
  }

  function AsObject(j: Json): (r: Result<map<string, Json>, Issue>)
    ensures r.Ok? <==> j.Obj?
    ensures r.Ok? ==> j == Obj(r.value)
  {
    match j
    case Obj(o) => Ok(o)
    case _ => Err(Issue([], "object"))
  }

  /** Validates the items one by one, in order; the first rejected item
      rejects the whole sequence. */
  function Items<T>(xs: seq<Json>, item: Json -> Result<T, Issue>): (r: Result<seq<T>, Issue>)
    ensures r.Ok? <==> forall i :: 0 <= i < |xs| ==> item(xs[i]).Ok?
    ensures r.Ok? ==> |r.value| == |xs|
    ensures r.Ok? ==> forall i :: 0 <= i < |xs| ==> r.value[i] == item(xs[i]).value
    decreases |xs|
  {
    if xs == [] then
      Ok([])
    else
      var head :- item(xs[0]);
      var tail :- Items(xs[1..], item);
      Ok([head] + tail)
  }

  /** An array whose every item passes `item`; the result keeps the order. */
  function ArrayOf<T>(j: Json, item: Json -> Result<T, Issue>): (r: Result<seq<T>, Issue>)
    ensures r.Ok? <==> j.Arr? && forall i :: 0 <= i < |j.items| ==> item(j.items[i]).Ok?
    ensures r.Ok? ==> |r.value| == |j.items|
    ensures r.Ok? ==> forall i :: 0 <= i < |j.items| ==> r.value[i] == item(j.items[i]).value
  {
    match j
    case Arr(xs) => Items(xs, item)
    case _ => Err(Issue([], "array"))
  }

  /** An object whose every value passes `item`; the keys stay the same. */
  function RecordOf<T>(j: Json, item: Json -> Result<T, Issue>): (r: Result<map<string, T>, Issue>)
    ensures r.Ok? <==> j.Obj? && forall k :: k in j.fields ==> item(j.fields[k]).Ok?
    ensures r.Ok? ==> r.value.Keys == j.fields.Keys
    ensures r.Ok? ==> forall k :: k in j.fields ==> r.value[k] == item(j.fields[k]).value
  {
    match j
    case Obj(o) =>
      if forall k :: k in o ==> item(o[k]).Ok? then
        Ok(map k | k in o :: item(o[k]).value)
      else
        Err(Issue([], "record"))
    case _ => Err(Issue([], "object"))
  }

  function StringArray(j: Json): (r: Result<seq<string>, Issue>)
    ensures r.Ok? <==> IsStringArray(j)
    ensures r.Ok? ==> j == FromStrings(r.value)
  {
    ArrayOf(j, AsString)
  }

  function StringRecord(j: Json): (r: Result<map<string, string>, Issue>)
    ensures r.Ok? <==> IsStringRecord(j)
    ensures r.Ok? ==> j == FromStringMap(r.value)
  {
    RecordOf(j, AsString)
  }

  /** The entry `key`, which must be present and pass `item`. */
  function Required<T>(o: map<string, Json>, key: string, item: Json -> Result<T, Issue>): (r: Result<T, Issue>)
    ensures r.Ok? <==> key in o && item(o[key]).Ok?
    ensures r.Ok? ==> r.value == item(o[key]).value
  {
    if key in o then item(o[key]).MapErr(e => Under(key, e)) else Err(Issue([key], "present"))
  }

  /** The entry `key` if present, which must then pass `item`. */
  function Optional<T>(o: map<string, Json>, key: string, item: Json -> Result<T, Issue>): (r: Result<Option<T>, Issue>)
    ensures r.Ok? <==> key !in o || item(o[key]).Ok?
    ensures r.Ok? ==> (r.value.Some? <==> key in o)
    ensures r.Ok? && key in o ==> r.value.value == item(o[key]).value
  {
    if key in o then
      match item(o[key])
      case Ok(v) => Ok(Some(v))
      case Err(e) => Err(Under(key, e))
    else
      Ok(None)
  }

  /** The entry `key` if present, which must then pass `item`; `default`
      when absent. */
  function WithDefault<T>(o: map<string, Json>, key: string, item: Json -> Result<T, Issue>, default: T): (r: Result<T, Issue>)
    ensures r.Ok? <==> key !in o || item(o[key]).Ok?
    ensures r.Ok? && key in o ==> r.value == item(o[key]).value
    ensures key !in o ==> r == Ok(default)
  {
    if key in o then item(o[key]).MapErr(e => Under(key, e)) else Ok(default)
  }

  // ---------------------------------------------------------------------
  // Round trips of the leaf encoders.

  lemma StringArrayRoundTrip(xs: seq<string>)
    ensures StringArray(FromStrings(xs)) == Ok(xs)
  {
    var r := StringArray(FromStrings(xs));
    assert r.Ok?;
    assert FromStrings(r.value) == FromStrings(xs);
    FromStringsInjective(r.value, xs);
  }

  lemma FromStringsInjective(xs: seq<string>, ys: seq<string>)
    requires FromStrings(xs) == FromStrings(ys)
    ensures xs == ys
  {
    assert |xs| == |ys|;
    forall i | 0 <= i < |xs|
      ensures xs[i] == ys[i]
    {
      assert FromStrings(xs).items[i] == Str(xs[i]);
    }
  }

  lemma FromStringMapInjective(m: map<string, string>, n: map<string, string>)
    requires FromStringMap(m) == FromStringMap(n)
    ensures m == n
  {
    assert m.Keys == n.Keys;
    forall k | k in m
      ensures m[k] == n[k]
    {
      assert FromStringMap(m).fields[k] == Str(m[k]);
    }
  }

  lemma StringRecordRoundTrip(m: map<string, string>)
    ensures StringRecord(FromStringMap(m)) == Ok(m)
  {
    var r := StringRecord(FromStringMap(m));
    assert r.Ok?;
    assert r.value.Keys == m.Keys;
    forall k | k in m
      ensures r.value[k] == m[k]
    {
      assert FromStringMap(m).fields[k] == Str(m[k]);
    }
    assert r.value == m;
  }
}
