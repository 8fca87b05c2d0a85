/**
 * JSON values as `response.json()` hands them to the crawler, and the two
 * Python operations the crawler applies to them: iterating a body with
 * `for unit in body` and subscripting a unit with `unit['key']`.
 */
module Json {
  import opened Wrappers
  import opened Failures

  /** A decoded JSON value. Objects are Python dicts after decoding (a later
      duplicate key has replaced an earlier one). */
  datatype Json =
    | JNull
    | JBool(b: bool)
    | JNum(n: int)
    | JStr(s: string)
    | JArr(items: seq<Json>)
    | JObj(fields: map<string, Json>)

  /** `for unit in body`: a list yields its elements; a dict yields its keys
      and a string its characters, and both kinds of unit are strings, which
      raise TypeError at the first `unit['key']`, so only an empty dict or an
      empty string iterates cleanly; a number, a boolean or null is not
      iterable at all. */
  function Units(body: Json): (r: Result<seq<Json>, Fault>)
    ensures r.Success? <==> body.JArr? || body == JObj(map[]) || body == JStr("")
    ensures r.Success? && body.JArr? ==> r.value == body.items
    ensures r.Success? && !body.JArr? ==> r.value == []
    ensures r.Failure? ==> r.error == (if body.JObj? || body.JStr? then NotSubscriptable else NotIterable)
  {
    match body
    case JArr(items) => Success(items)
    case JObj(fields) => if |fields| == 0 then Success([]) else Failure(NotSubscriptable)
    case JStr(s) => if s == "" then Success([]) else Failure(NotSubscriptable)
    case _ => Failure(NotIterable)
  }

  /** The unit is a JSON object holding every one of `keys`. */
  ghost predicate HasKeys(unit: Json, keys: seq<string>) {
    unit.JObj? && forall i :: 0 <= i < |keys| ==> keys[i] in unit.fields
  }

  /** `f` is the exception raised by evaluating `unit[keys[0]], unit[keys[1]], …`
      left to right: TypeError for a non-object, otherwise KeyError for the
      first absent key. */
  ghost predicate LookupFault(unit: Json, keys: seq<string>, f: Fault) {
    if !unit.JObj? then f == NotSubscriptable
    else exists i :: 0 <= i < |keys| && FirstAbsent(unit.fields, keys, i) && f == MissingKey(keys[i])
  }

  /** `keys[i]` is absent from `fields` and every earlier key is present. */
  ghost predicate FirstAbsent(fields: map<string, Json>, keys: seq<string>, i: int) {
    0 <= i < |keys| && keys[i] !in fields && forall j :: 0 <= j < i ==> keys[j] in fields
  }

  /** Reads `keys` out of `unit` in order, as a constructor call whose
      arguments are `unit['k0'], unit['k1'], …` does. */
  function Lookup(unit: Json, keys: seq<string>): (r: Result<seq<Json>, Fault>)
    ensures r.Success? <==> HasKeys(unit, keys)
    ensures r.Success? ==> |r.value| == |keys| && forall i :: 0 <= i < |keys| ==> r.value[i] == unit.fields[keys[i]]
    ensures r.Failure? ==> LookupFault(unit, keys, r.error)
  {
    match unit
    case JObj(fields) => Pick(fields, keys)
    case _ => Failure(NotSubscriptable)
  }

  /** The in-order field reads of `Lookup` on an object's fields. */
  function Pick(fields: map<string, Json>, keys: seq<string>): (r: Result<seq<Json>, Fault>)
    ensures r.Success? <==> forall i :: 0 <= i < |keys| ==> keys[i] in fields
    ensures r.Success? ==> |r.value| == |keys| && forall i :: 0 <= i < |keys| ==> r.value[i] == fields[keys[i]]
    ensures r.Failure? ==> exists i :: FirstAbsent(fields, keys, i) && r.error == MissingKey(keys[i])
    decreases |keys|
  {
    if keys == [] then Success([])
    else if keys[0] !in fields then
      assert FirstAbsent(fields, keys, 0);
      Failure(MissingKey(keys[0]))
    else
      match Pick(fields, keys[1..])
      case Failure(f) =>
        assert exists i :: FirstAbsent(fields, keys, i) && f == MissingKey(keys[i]) by {
          var i :| FirstAbsent(fields, keys[1..], i) && f == MissingKey(keys[1..][i]);
          assert FirstAbsent(fields, keys, i + 1);
        }
        Failure(f)
      case Success(vs) =>
        assert forall i :: 1 <= i < |keys| ==> keys[i] == keys[1..][i - 1];
        Success([fields[keys[0]]] + vs)
  }
}
