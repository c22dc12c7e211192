/** Parsed JSON and the keyed-container reads Swift's `JSONDecoder`
    performs on it. Byte-level parsing is not modelled: a document is
    already a `JVal`. */
module Json {
  import opened Wrappers

  datatype JVal =
    | JNull
    | JBool(b: bool)
    | JNum(n: int)
    | JStr(s: string)
    | JArr(items: seq<JVal>)
    | JObj(fields: JObject)

  type JObject = map<string, JVal>

  /** The `DecodingError` cases a keyed read can raise, with the key read. */
  datatype DecodeError =
    | KeyNotFound(key: string)
    | ValueNotFound(key: string)
    | TypeMismatch(key: string)

  /** `key` holds a value other than `null`: what `decodeIfPresent` treats
      as present. */
  predicate Present(obj: JObject, key: string) {
    key in obj && obj[key] != JNull
  }

  /** A JSON value used where a keyed container is expected. */
  function AsObject(v: JVal, key: string): (r: Result<JObject, DecodeError>)
    ensures r.Ok? <==> v.JObj?
    ensures r.Ok? ==> r.value == v.fields
  {
    match v
    case JObj(o) => Ok(o)
    case JNull => Err(ValueNotFound(key))
    case _ => Err(TypeMismatch(key))
  }

  /** `decode(String.self, forKey:)`: missing key, `null` and a non-string
      each fail with their own error. */
  function RequiredString(obj: JObject, key: string): (r: Result<string, DecodeError>)
    ensures r.Ok? <==> key in obj && obj[key].JStr?
    ensures r.Ok? ==> r.value == obj[key].s
    ensures key !in obj ==> r == Err(KeyNotFound(key))
    ensures key in obj && obj[key].JNull? ==> r == Err(ValueNotFound(key))
  {
    if key !in obj then Err(KeyNotFound(key))
    else match obj[key]
      case JStr(s) => Ok(s)
      case JNull => Err(ValueNotFound(key))
      case _ => Err(TypeMismatch(key))
  }

  /** `decode(Bool.self, forKey:)`. */
  function RequiredBool(obj: JObject, key: string): (r: Result<bool, DecodeError>)
    ensures r.Ok? <==> key in obj && obj[key].JBool?
    ensures r.Ok? ==> r.value == obj[key].b
    ensures key !in obj ==> r == Err(KeyNotFound(key))
  {
    if key !in obj then Err(KeyNotFound(key))
    else match obj[key]
      case JBool(b) => Ok(b)
      case JNull => Err(ValueNotFound(key))
      case _ => Err(TypeMismatch(key))
  }

  /** `decodeIfPresent(String.self, forKey:)`, a three-way result: absent
      or `null` gives `Ok(None)`, a string gives `Ok(Some)`, anything else
      is a type mismatch. */
  function OptString(obj: JObject, key: string): (r: Result<Option<string>, DecodeError>)
    ensures r == Ok(None) <==> !Present(obj, key)
    ensures r.Ok? && r.value.Some? <==> key in obj && obj[key].JStr?
    ensures r.Ok? && r.value.Some? ==> r.value.value == obj[key].s
    ensures r.Err? ==> r.error == TypeMismatch(key)
  {
    if !Present(obj, key) then Ok(None)
    else match obj[key]
      case JStr(s) => Ok(Some(s))
      case _ => Err(TypeMismatch(key))
  }

  /** `decodeIfPresent(Bool.self, forKey:)`. */
  function OptBool(obj: JObject, key: string): (r: Result<Option<bool>, DecodeError>)
    ensures r == Ok(None) <==> !Present(obj, key)
    ensures r.Ok? && r.value.Some? <==> key in obj && obj[key].JBool?
    ensures r.Ok? && r.value.Some? ==> r.value.value == obj[key].b
    ensures r.Err? ==> r.error == TypeMismatch(key)
  {
    if !Present(obj, key) then Ok(None)
    else match obj[key]
      case JBool(b) => Ok(Some(b))
      case _ => Err(TypeMismatch(key))
  }

  /** Decodes the elements of a JSON array in order; the first element
      that fails fails the whole array. */
  function DecodeEach<T>(items: seq<JVal>, decodeItem: JVal -> Result<T, DecodeError>): (r: Result<seq<T>, DecodeError>)
    ensures r.Ok? <==> forall i :: 0 <= i < |items| ==> decodeItem(items[i]).Ok?
    ensures r.Ok? ==> |r.value| == |items|
    ensures r.Ok? ==> forall i :: 0 <= i < |items| ==> decodeItem(items[i]) == Ok(r.value[i])
    ensures r.Err? ==> exists i ::
      && 0 <= i < |items| && decodeItem(items[i]) == Err(r.error)
      && forall j :: 0 <= j < i ==> decodeItem(items[j]).Ok?
  {
    if |items| == 0 then Ok([])
    else
      var head :- decodeItem(items[0]);
      var rest := DecodeEach(items[1..], decodeItem);
      assert forall i :: 1 <= i < |items| ==> items[i] == items[1..][i - 1];
      if rest.Err? then
        var k :| 0 <= k < |items[1..]| && decodeItem(items[1..][k]) == Err(rest.error)
          && forall j :: 0 <= j < k ==> decodeItem(items[1..][j]).Ok?;
        assert decodeItem(items[k + 1]) == Err(rest.error);
        Err(rest.error)
      else
        Ok([head] + rest.value)
  }

  /** `decodeIfPresent([T].self, forKey:)` with `decodeItem` decoding each element. */
  function OptArray<T>(obj: JObject, key: string, decodeItem: JVal -> Result<T, DecodeError>): (r: Result<Option<seq<T>>, DecodeError>)
    ensures r == Ok(None) <==> !Present(obj, key)
    ensures r.Ok? && r.value.Some? ==> key in obj && obj[key].JArr?
    ensures r.Ok? && r.value.Some? ==> DecodeEach(obj[key].items, decodeItem) == Ok(r.value.value)
    ensures Present(obj, key) && obj[key].JArr? ==> (r.Ok? <==> DecodeEach(obj[key].items, decodeItem).Ok?)
    ensures Present(obj, key) && !obj[key].JArr? ==> r == Err(TypeMismatch(key))
  {
    if !Present(obj, key) then Ok(None)
    else match obj[key]
      case JArr(items) =>
        var decoded :- DecodeEach(items, decodeItem);
        Ok(Some(decoded))
      case _ => Err(TypeMismatch(key))
  }

  /** `decode([T].self, forKey:)`: the array is required. */
  function RequiredArray<T>(obj: JObject, key: string, decodeItem: JVal -> Result<T, DecodeError>): (r: Result<seq<T>, DecodeError>)
    ensures r.Ok? ==> key in obj && obj[key].JArr? && DecodeEach(obj[key].items, decodeItem) == r
    ensures key in obj && obj[key].JArr? ==> r == DecodeEach(obj[key].items, decodeItem)
    ensures key !in obj ==> r == Err(KeyNotFound(key))
    ensures key in obj && obj[key].JNull? ==> r == Err(ValueNotFound(key))
  {
    if key !in obj then Err(KeyNotFound(key))
    else match obj[key]
      case JArr(items) => DecodeEach(items, decodeItem)
      case JNull => Err(ValueNotFound(key))
      case _ => Err(TypeMismatch(key))
  }

  /** One element of a `[String]` array stored under `key`. */
  function StringItem(key: string, v: JVal): (r: Result<string, DecodeError>)
    ensures r.Ok? <==> v.JStr?
    ensures r.Ok? ==> r.value == v.s
  {
    match v
    case JStr(s) => Ok(s)
    case JNull => Err(ValueNotFound(key))
    case _ => Err(TypeMismatch(key))
  }

  /** `decodeIfPresent([String].self, forKey:)`. */
  function OptStringList(obj: JObject, key: string): (r: Result<Option<seq<string>>, DecodeError>)
    ensures r == Ok(None) <==> !Present(obj, key)
    ensures r.Ok? && r.value.Some? <==> key in obj && IsStringArray(obj[key])
    ensures r.Ok? && r.value.Some? ==> r.value.value == Strings(obj[key].items)
  {
    OptArray(obj, key, v => StringItem(key, v))
  }

  predicate IsStringArray(v: JVal) {
    v.JArr? && forall i :: 0 <= i < |v.items| ==> v.items[i].JStr?
  }

  function Strings(items: seq<JVal>): (r: seq<string>)
    requires forall i :: 0 <= i < |items| ==> items[i].JStr?
    ensures |r| == |items| && forall i :: 0 <= i < |items| ==> r[i] == items[i].s
  {
    seq(|items|, i requires 0 <= i < |items| => items[i].s)
  }

  /** Encoding side of the same containers: a string list as a JSON array. */
  function StringArray(ss: seq<string>): (v: JVal)
    ensures IsStringArray(v) && Strings(v.items) == ss
  {
    JArr(seq(|ss|, i requires 0 <= i < |ss| => JStr(ss[i])))
  }
}
