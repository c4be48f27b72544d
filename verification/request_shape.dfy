/**
 * The generic part of a request shape: the values a payload holds, the error raised for a
 * missing required parameter, the `$input[key] ?? null` lookups of a constructor, the wire
 * request handed to the transport, and a declarative walk over a list of parameters that
 * builds the ordered payload. The walk is the reference definition against which a
 * hand-written `requestBody` is proved.
 */
module RequestShape {
  import opened Wrappers

  /** A scalar a parameter can hold: a string or a boolean. */
  datatype Value = Str(s: string) | Bool(b: bool)

  /** An ordered PHP array: wire names paired with values, in insertion order. */
  type Payload = seq<(string, Value)>

  /** `InvalidArgument`, thrown for a required parameter that is null; carries its name. */
  datatype InvalidArgument = MissingParameter(name: string)

  /** The body of a wire request: the literal `{}` or the JSON encoding of a payload. */
  datatype Body = EmptyObject | Json(payload: Payload)

  /** The wire request: method, URI path, query parameters, headers and body. */
  datatype HttpRequest = HttpRequest(
    httpMethod: string,
    uri: string,
    query: map<string, string>,
    headers: map<string, string>,
    body: Body)

  /** The constructor's input array; a key mapped to `None` holds PHP's `null`. */
  type InputMap = map<string, Option<Value>>

  /** The input holds a string or null under `key`, or lacks it. */
  predicate StringOrNull(input: InputMap, key: string) {
    key in input && input[key].Some? ==> input[key].value.Str?
  }

  /** The input holds a boolean or null under `key`, or lacks it. */
  predicate BoolOrNull(input: InputMap, key: string) {
    key in input && input[key].Some? ==> input[key].value.Bool?
  }

  /** `$input[key] ?? null` for a string parameter. */
  function StringParam(input: InputMap, key: string): (r: Option<string>)
    requires StringOrNull(input, key)
    ensures r.Some? <==> key in input && input[key].Some?
    ensures r.Some? ==> input[key] == Some(Str(r.value))
  {
    if key in input && input[key].Some? then Some(input[key].value.s) else None
  }

  /** `$input[key] ?? null` for a boolean parameter. */
  function BoolParam(input: InputMap, key: string): (r: Option<bool>)
    requires BoolOrNull(input, key)
    ensures r.Some? <==> key in input && input[key].Some?
    ensures r.Some? ==> input[key] == Some(Bool(r.value))
  {
    if key in input && input[key].Some? then Some(input[key].value.b) else None
  }

  /** A parameter of a shape: its wire name and whether the schema requires it. */
  datatype Param = Param(name: string, required: bool)

  /** Parameter `i` is required but its value is null. */
  predicate MissingAt(params: seq<Param>, vals: seq<Option<Value>>, i: int)
    requires |params| == |vals|
  {
    0 <= i < |params| && params[i].required && vals[i].None?
  }

  /**
   * Visits the parameters in declaration order: a null required parameter fails at once,
   * a null optional one is omitted, any other is appended under its wire name.
   */
  function Serialize(params: seq<Param>, vals: seq<Option<Value>>): (r: Result<Payload, InvalidArgument>)
    requires |params| == |vals|
    ensures r.Err? ==> exists i :: MissingAt(params, vals, i) && r.error == MissingParameter(params[i].name)
    ensures r.Ok? ==> |r.value| <= |params|
    decreases |params|
  {
    if params == [] then Ok([])
    else if params[0].required && vals[0].None? then Err(MissingParameter(params[0].name))
    else
      var tail := Serialize(params[1..], vals[1..]);
      if tail.Err? then
        assert forall i :: MissingAt(params[1..], vals[1..], i) ==>
          MissingAt(params, vals, i + 1) && params[1..][i] == params[i + 1];
        Err(tail.error)
      else if vals[0].Some? then Ok([(params[0].name, vals[0].value)] + tail.value)
      else Ok(tail.value)
  }

  /** The non-null parameters as payload entries, in declaration order. */
  function PresentEntries(params: seq<Param>, vals: seq<Option<Value>>): Payload
    requires |params| == |vals|
    decreases |params|
  {
    if params == [] then []
    else (if vals[0].Some? then [(params[0].name, vals[0].value)] else []) + PresentEntries(params[1..], vals[1..])
  }

  /** Serialization fails exactly when some required parameter is null. */
  lemma {:induction false} SerializeFailsIff(params: seq<Param>, vals: seq<Option<Value>>)
    requires |params| == |vals|
    ensures Serialize(params, vals).Err? <==> exists i :: MissingAt(params, vals, i)
    decreases |params|
  {
    if params != [] && !(params[0].required && vals[0].None?) {
      SerializeFailsIff(params[1..], vals[1..]);
      if exists i :: MissingAt(params, vals, i) {
        var i :| MissingAt(params, vals, i);
        assert i != 0;
        assert MissingAt(params[1..], vals[1..], i - 1);
      }
    }
  }

  /** The error names the FIRST null required parameter in declaration order. */
  lemma {:induction false} SerializeNamesFirstMissing(params: seq<Param>, vals: seq<Option<Value>>)
    requires |params| == |vals|
    ensures Serialize(params, vals).Err? ==>
      exists i :: MissingAt(params, vals, i)
        && (forall j :: 0 <= j < i ==> !MissingAt(params, vals, j))
        && Serialize(params, vals).error == MissingParameter(params[i].name)
    decreases |params|
  {
    if params != [] && !(params[0].required && vals[0].None?) {
      SerializeNamesFirstMissing(params[1..], vals[1..]);
      var r := Serialize(params[1..], vals[1..]);
      if r.Err? {
        var i :| MissingAt(params[1..], vals[1..], i)
          && (forall j :: 0 <= j < i ==> !MissingAt(params[1..], vals[1..], j))
          && r.error == MissingParameter(params[1..][i].name);
        assert MissingAt(params, vals, i + 1);
        forall j | 0 <= j < i + 1 ensures !MissingAt(params, vals, j) {
          if j > 0 {
            assert !MissingAt(params[1..], vals[1..], j - 1);
          }
        }
      }
    }
  }

  /**
   * On success the payload holds exactly the non-null parameters, in declaration order;
   * whether a parameter is required only decides failure, never the payload.
   */
  lemma {:induction false} SerializeCopiesPresent(params: seq<Param>, vals: seq<Option<Value>>)
    requires |params| == |vals|
    ensures Serialize(params, vals).Ok? ==> Serialize(params, vals).value == PresentEntries(params, vals)
    decreases |params|
  {
    if params != [] && !(params[0].required && vals[0].None?) {
      SerializeCopiesPresent(params[1..], vals[1..]);
    }
  }
}
