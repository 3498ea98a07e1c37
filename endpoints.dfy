/**
 * The argument checks every endpoint may run before its request:
 * `requiredParams` (every listed key must be given) and `requiredAnyParams`
 * (at least one must be). A key counts as given when it is set and its
 * value is not PHP-empty; a failed check reports the whole key list.
 */
module Endpoints {
  import opened Php
  import opened Keyed

  /** `isset($values[$key]) && !empty($values[$key])`: `empty(null)` holds, so null counts as missing. */
  predicate Given(values: seq<(string, Value)>, key: string) {
    var v := Find(values, key);
    v.Some? && !Empty(v.value)
  }

  /** The position of the first key that is not given, as the `foreach` of `requiredParams` meets it. */
  function FirstMissing(keys: seq<string>, values: seq<(string, Value)>): (r: Option<nat>)
    ensures r.Some? ==> r.value < |keys| && !Given(values, keys[r.value])
    ensures r.Some? ==> forall j :: 0 <= j < r.value ==> Given(values, keys[j])
    ensures r.None? <==> forall j :: 0 <= j < |keys| ==> Given(values, keys[j])
  {
    if keys == [] then None
    else if !Given(values, keys[0]) then Some(0)
    else
      match FirstMissing(keys[1..], values)
      case None => None
      case Some(j) => Some(j + 1)
  }

  /** The position of the first key that is given, where `requiredAnyParams` returns early. */
  function FirstGiven(keys: seq<string>, values: seq<(string, Value)>): (r: Option<nat>)
    ensures r.Some? ==> r.value < |keys| && Given(values, keys[r.value])
    ensures r.Some? ==> forall j :: 0 <= j < r.value ==> !Given(values, keys[j])
    ensures r.None? <==> forall j :: 0 <= j < |keys| ==> !Given(values, keys[j])
  {
    if keys == [] then None
    else if Given(values, keys[0]) then Some(0)
    else
      match FirstGiven(keys[1..], values)
      case None => None
      case Some(j) => Some(j + 1)
  }

  /** `requiredParams`: passes iff every key is given, and otherwise names all the keys, not the missing one. */
  function RequiredParams(keys: seq<string>, values: seq<(string, Value)>): (r: Outcome)
    ensures r == Pass <==> forall j :: 0 <= j < |keys| ==> Given(values, keys[j])
    ensures r != Pass ==> r == Fail(MissingArgument(keys))
  {
    if FirstMissing(keys, values).None? then Pass else Fail(MissingArgument(keys))
  }

  /** `requiredAnyParams`: passes iff some key is given, and otherwise names all the keys. */
  function RequiredAnyParams(keys: seq<string>, values: seq<(string, Value)>): (r: Outcome)
    ensures r == Pass <==> exists j :: 0 <= j < |keys| && Given(values, keys[j])
    ensures r != Pass ==> r == Fail(MissingArgument(keys))
  {
    if FirstGiven(keys, values).Some? then Pass else Fail(MissingArgument(keys))
  }

  /** With no keys to check, `requiredParams` always passes and `requiredAnyParams` always throws. */
  lemma NoKeys(values: seq<(string, Value)>)
    ensures RequiredParams([], values) == Pass
    ensures RequiredAnyParams([], values) == Fail(MissingArgument([]))
  {
  }

  /** Every PHP-empty value counts as missing, even when the key is present. */
  lemma EmptyValuesAreMissing(key: string, v: Value)
    requires v in [Null, Bool(false), Int(0), Str(""), Str("0"), List([]), Map([])]
    ensures RequiredParams([key], [(key, v)]) == Fail(MissingArgument([key]))
    ensures RequiredAnyParams([key], [(key, v)]) == Fail(MissingArgument([key]))
  {
    assert !Given([(key, v)], key);
  }

  /** For a single key the two checks agree. */
  lemma {:induction false} SingleKey(key: string, values: seq<(string, Value)>)
    ensures RequiredParams([key], values) == RequiredAnyParams([key], values)
  {
    if Given(values, key) {
      assert Given(values, [key][0]);
    }
  }

  /** When every key is given, any one of them is enough for `requiredAnyParams` too, provided there is one. */
  lemma {:induction false} AllImpliesAny(keys: seq<string>, values: seq<(string, Value)>)
    requires keys != [] && RequiredParams(keys, values) == Pass
    ensures RequiredAnyParams(keys, values) == Pass
  {
    assert Given(values, keys[0]);
  }
}
