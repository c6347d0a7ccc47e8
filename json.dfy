/**
 * A parsed JSON message body and the two json-lib accessors the trigger uses
 * on it, `JSONObject.optString` and `JSONObject.optBoolean`: each returns the
 * value under a key when it is present and of a usable form, and the caller's
 * default otherwise.
 */
module Json {
  import opened Wrappers
  import opened Text

  /**
   * A member value of the message object. Numbers, nested arrays and nested
   * objects are kept only as the text json-lib's `toString` gives them, since
   * that text is all the trigger ever reads from them.
   */
  datatype Json =
    | JNull
    | JBool(b: bool)
    | JNumber(text: string)
    | JString(s: string)
    | JCompound(text: string)

  /** A JSON object: member names to values (names are unique). */
  type JsonObject = map<string, Json>

  /** The string form of a value (`Object.toString` on what json-lib stores). */
  function ToText(v: Json): string {
    match v
    case JNull => "null"
    case JBool(b) => if b then "true" else "false"
    case JNumber(t) => t
    case JString(s) => s
    case JCompound(t) => t
  }

  /**
   * The boolean a value stands for, as `JSONObject.getBoolean` reads it: a JSON
   * boolean, or a string equal to "true" or "false" ignoring case. Anything else
   * is not a boolean.
   */
  function AsBoolean(v: Json): Option<bool> {
    match v
    case JBool(b) => Some(b)
    case JString(s) =>
      if EqualsIgnoreCase(s, "false") then Some(false)
      else if EqualsIgnoreCase(s, "true") then Some(true)
      else None
    case _ => None
  }

  /** Only strings of the length of "true" or "false" can be read as booleans. */
  lemma StringOfOtherLengthIsNotBoolean(s: string)
    requires |s| != 4 && |s| != 5
    ensures AsBoolean(JString(s)) == None
  {
    var u, f, t := UpperCase(s), UpperCase("false"), UpperCase("true");
    assert |u| == |s| && |f| == 5 && |t| == 4;
  }

  /** A string reading "true" in any case is the boolean true. */
  lemma TrueInAnyCase(s: string)
    requires UpperCase(s) == "TRUE"
    ensures AsBoolean(JString(s)) == Some(true)
  {
    assert UpperCase("true") == "TRUE";
    assert |UpperCase("false")| == 5;
  }

  /** A string reading "false" in any case is the boolean false. */
  lemma FalseInAnyCase(s: string)
    requires UpperCase(s) == "FALSE"
    ensures AsBoolean(JString(s)) == Some(false)
  {
    assert UpperCase("false") == "FALSE";
  }

  /** `optString(key, default)`: the text of the member if present, else the default. */
  function OptString(o: JsonObject, key: string, default: string): (r: string)
    ensures key in o ==> r == ToText(o[key])
    ensures key !in o ==> r == default
  {
    if key in o then ToText(o[key]) else default
  }

  /**
   * `optBoolean(key, default)`: the member's boolean if present and readable as
   * one, else the default (the exception `getBoolean` throws is swallowed).
   */
  function OptBoolean(o: JsonObject, key: string, default: bool): (r: bool)
    ensures key in o && AsBoolean(o[key]).Some? ==> r == AsBoolean(o[key]).value
    ensures key !in o || AsBoolean(o[key]).None? ==> r == default
  {
    if key in o then AsBoolean(o[key]).GetOr(default) else default
  }
}
