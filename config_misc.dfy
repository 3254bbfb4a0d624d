/**
 * config/misc.go: typed field extraction over decoded JSON, with the
 * exact error texts the configuration loader reports.
 *
 * A decoded JSON value is the `Json` datatype below. Go decodes every
 * JSON number to a float64 and the parsers convert it with `int(...)` or
 * `uint64(...)`; a number is represented here by that integer value.
 */
module ConfigMisc {

  /** A value as `encoding/json` decodes it into an `interface{}`. */
  datatype Json =
    | JNull
    | JBool(b: bool)
    | JNumber(n: int)
    | JString(s: string)
    | JArray(items: seq<Json>)
    | JObject(fields: map<string, Json>)

  /** A parsed value, or the message of the `appConfigError` that stopped the parse. */
  datatype Result<+T> = Ok(value: T) | Err(message: string)

  /** The text of an error about attribute `key` of group `group`. */
  function AttributeError(group: string, key: string, problem: string): string
  {
    "Invalid " + group + " config: " + key + " attribute " + problem
  }

  const Missing := "missing"
  const NotAString := "not a string"
  const NotABool := "not a bool"
  const NotAnInt := "not an int"
  const NotAListOfStrings := "not a list of strings"
  const NotAnArray := "Data is not an array."

  /**
   * The error for a missing attribute differs from every type error, so
   * the message tells a missing attribute from a mistyped one.
   */
  lemma {:induction false} MissingIsNotATypeError(group: string, key: string, problem: string)
    requires problem in {NotAString, NotABool, NotAnInt, NotAListOfStrings}
    ensures AttributeError(group, key, Missing) != AttributeError(group, key, problem)
  {
    var prefix := "Invalid " + group + " config: " + key + " attribute ";
    assert AttributeError(group, key, Missing) == prefix + Missing;
    assert AttributeError(group, key, problem) == prefix + problem;
    assert (prefix + Missing)[|prefix|] == 'm';
    assert (prefix + problem)[|prefix|] == 'n';
  }

  /**
   * `parseConfigGroup`: the group object named `groupName`; an error naming
   * the group when it is missing or not an object.
   */
  function ParseConfigGroup(groupName: string, data: map<string, Json>): (r: Result<map<string, Json>>)
    ensures r.Ok? <==> groupName in data && data[groupName].JObject?
    ensures r.Ok? ==> r.value == data[groupName].fields
    ensures groupName !in data ==> r == Err("Missing " + groupName + " config")
    ensures groupName in data && !data[groupName].JObject? ==> r == Err("Invalid " + groupName + " config")
  {
    if groupName !in data then Err("Missing " + groupName + " config")
    else match data[groupName]
      case JObject(fields) => Ok(fields)
      case _ => Err("Invalid " + groupName + " config")
  }

  /** `parseString`: the string value of `key`, or a missing or not-a-string error. */
  function ParseString(group: string, key: string, data: map<string, Json>): (r: Result<string>)
    ensures r.Ok? <==> key in data && data[key].JString?
    ensures r.Ok? ==> r.value == data[key].s
    ensures key !in data ==> r == Err(AttributeError(group, key, Missing))
    ensures key in data && !data[key].JString? ==> r == Err(AttributeError(group, key, NotAString))
  {
    if key !in data then Err(AttributeError(group, key, Missing))
    else match data[key]
      case JString(s) => Ok(s)
      case _ => Err(AttributeError(group, key, NotAString))
  }

  /** `parseBool`: the boolean value of `key`, or a missing or not-a-bool error. */
  function ParseBool(group: string, key: string, data: map<string, Json>): (r: Result<bool>)
    ensures r.Ok? <==> key in data && data[key].JBool?
    ensures r.Ok? ==> r.value == data[key].b
    ensures key !in data ==> r == Err(AttributeError(group, key, Missing))
    ensures key in data && !data[key].JBool? ==> r == Err(AttributeError(group, key, NotABool))
  {
    if key !in data then Err(AttributeError(group, key, Missing))
    else match data[key]
      case JBool(b) => Ok(b)
      case _ => Err(AttributeError(group, key, NotABool))
  }

  /** `parseInt`: the numeric value of `key`, or a missing or not-an-int error. */
  function ParseInt(group: string, key: string, data: map<string, Json>): (r: Result<int>)
    ensures r.Ok? <==> key in data && data[key].JNumber?
    ensures r.Ok? ==> r.value == data[key].n
    ensures key !in data ==> r == Err(AttributeError(group, key, Missing))
    ensures key in data && !data[key].JNumber? ==> r == Err(AttributeError(group, key, NotAnInt))
  {
    if key !in data then Err(AttributeError(group, key, Missing))
    else match data[key]
      case JNumber(n) => Ok(n)
      case _ => Err(AttributeError(group, key, NotAnInt))
  }

  /**
   * `parseUint64`: the same checks and messages as `parseInt`; only the
   * conversion of the number differs in the source.
   */
  function ParseUint64(group: string, key: string, data: map<string, Json>): Result<int>
  {
    ParseInt(group, key, data)
  }

  /** The string elements of a JSON list, in order; other elements are dropped. */
  function StringsOf(items: seq<Json>): seq<string>
  {
    if |items| == 0 then []
    else
      var prev := StringsOf(items[..|items| - 1]);
      match items[|items| - 1]
        case JString(s) => prev + [s]
        case _ => prev
  }

  /**
   * `StringsOf` keeps exactly the strings of the list, never more items
   * than the list has, and all of them when every element is a string.
   */
  lemma {:induction false} StringsOfKeepsStrings(items: seq<Json>)
    ensures forall s :: s in StringsOf(items) <==> JString(s) in items
    ensures |StringsOf(items)| <= |items|
    ensures (forall i :: 0 <= i < |items| ==> items[i].JString?) ==>
      |StringsOf(items)| == |items| && forall i :: 0 <= i < |items| ==> StringsOf(items)[i] == items[i].s
  {
    if |items| > 0 {
      var prefix := items[..|items| - 1];
      StringsOfKeepsStrings(prefix);
      assert items == prefix + [items[|items| - 1]];
    }
  }

  /** The loop of `parseStringArray` and `getStringArray`: append each string element. */
  method CollectStrings(items: seq<Json>) returns (results: seq<string>)
    ensures results == StringsOf(items)
  {
    results := [];
    var i := 0;
    while i < |items|
      invariant 0 <= i <= |items|
      invariant results == StringsOf(items[..i])
    {
      assert items[..i + 1][..i] == items[..i];
      match items[i] {
        case JString(s) => results := results + [s];
        case _ =>
      }
      i := i + 1;
    }
    assert items[..i] == items;
  }

  /**
   * `parseStringArray`: for a list, its string elements in order, others
   * silently dropped; a missing or not-a-list error otherwise.
   */
  method ParseStringArray(group: string, key: string, data: map<string, Json>) returns (r: Result<seq<string>>)
    ensures r.Ok? <==> key in data && data[key].JArray?
    ensures r.Ok? ==> r.value == StringsOf(data[key].items)
    ensures key !in data ==> r == Err(AttributeError(group, key, Missing))
    ensures key in data && !data[key].JArray? ==> r == Err(AttributeError(group, key, NotAListOfStrings))
  {
    if key !in data {
      return Err(AttributeError(group, key, Missing));
    }
    var keyValue := data[key];
    if !keyValue.JArray? {
      return Err(AttributeError(group, key, NotAListOfStrings));
    }
    var results := CollectStrings(keyValue.items);
    return Ok(results);
  }

  /** `getStringArray`: the string elements of a list, or "Data is not an array.". */
  method GetStringArray(unknown: Json) returns (r: Result<seq<string>>)
    ensures r.Ok? <==> unknown.JArray?
    ensures r.Ok? ==> r.value == StringsOf(unknown.items)
    ensures !unknown.JArray? ==> r == Err(NotAnArray)
  {
    if unknown.JArray? {
      var results := CollectStrings(unknown.items);
      return Ok(results);
    }
    return Err(NotAnArray);
  }
}
