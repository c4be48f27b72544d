/**
 * The input shape of the AdminSetUserPassword operation of the Cognito Identity Provider
 * service: four nullable parameters filled from an input array and changed by fluent
 * setters, a validating `requestBody` and the `request` envelope around it.
 */
module CognitoIdentityProviderInput {
  import opened Wrappers
  import opened RequestShape

  /** The four parameters of one call; `None` is `null`. */
  datatype Fields = Fields(
    userPoolId: Option<string>,
    username: Option<string>,
    password: Option<string>,
    permanent: Option<bool>)

  /** The parameters in declaration order: three required strings, then an optional bool. */
  const Schema: seq<Param> := [
    Param("UserPoolId", true),
    Param("Username", true),
    Param("Password", true),
    Param("Permanent", false)
  ]

  const ContentType: string := "application/x-amz-json-1.1"
  const Target: string := "AWSCognitoIdentityProviderService.AdminSetUserPassword"

  function OptStr(o: Option<string>): Option<Value> {
    if o.Some? then Some(Str(o.value)) else None
  }

  function OptBool(o: Option<bool>): Option<Value> {
    if o.Some? then Some(Bool(o.value)) else None
  }

  /** The field values in the order of `Schema`. */
  function Values(f: Fields): (vs: seq<Option<Value>>)
    ensures |vs| == |Schema|
  {
    [OptStr(f.userPoolId), OptStr(f.username), OptStr(f.password), OptBool(f.permanent)]
  }

  /** What the constructor's docblock allows under each recognised key. */
  predicate WellTyped(input: InputMap) {
    && StringOrNull(input, "UserPoolId")
    && StringOrNull(input, "Username")
    && StringOrNull(input, "Password")
    && BoolOrNull(input, "Permanent")
  }

  /**
   * The payload `requestBody` builds from `f`: the first null required field in the order
   * UserPoolId, Username, Password is reported; otherwise the three of them in that order,
   * then Permanent when (and only when) it is not null, `false` included.
   */
  lemma SchemaPayload(f: Fields)
    ensures var r := Serialize(Schema, Values(f));
      && (r.Err? <==> f.userPoolId.None? || f.username.None? || f.password.None?)
      && (f.userPoolId.None? ==> r == Err(MissingParameter("UserPoolId")))
      && (f.userPoolId.Some? && f.username.None? ==> r == Err(MissingParameter("Username")))
      && (f.userPoolId.Some? && f.username.Some? && f.password.None? ==> r == Err(MissingParameter("Password")))
      && (r.Ok? ==>
            && |r.value| == (if f.permanent.Some? then 4 else 3)
            && r.value[0] == ("UserPoolId", Str(f.userPoolId.value))
            && r.value[1] == ("Username", Str(f.username.value))
            && r.value[2] == ("Password", Str(f.password.value))
            && (f.permanent.Some? ==> r.value[3] == ("Permanent", Bool(f.permanent.value))))
  {
  }

  /** The fixed envelope `request` puts around a payload. */
  function Envelope(payload: Payload): (r: HttpRequest)
    ensures r.httpMethod == "POST" && r.uri == "/" && r.query == map[]
    ensures r.headers == map["Content-Type" := ContentType, "X-Amz-Target" := Target]
    ensures r.body.EmptyObject? <==> payload == []
    ensures r.body.Json? ==> r.body.payload == payload
  {
    var headers := map["Content-Type" := ContentType, "X-Amz-Target" := Target];
    var query: map<string, string> := map[];
    var body := if payload == [] then EmptyObject else Json(payload);
    HttpRequest("POST", "/", query, headers, body)
  }

  /** A successful request always carries the JSON payload: the `{}` body is never sent. */
  lemma RequestBodyNeverEmpty(f: Fields)
    requires Serialize(Schema, Values(f)).Ok?
    ensures Envelope(Serialize(Schema, Values(f)).value).body == Json(Serialize(Schema, Values(f)).value)
  {
    SchemaPayload(f);
  }

  /** What `create` accepts: an existing request or an input array. */
  datatype CreateInput = Existing(request: AdminSetUserPasswordRequest) | Params(input: InputMap)

  class AdminSetUserPasswordRequest {
    var userPoolId: Option<string>
    var username: Option<string>
    var password: Option<string>
    var permanent: Option<bool>

    /** The current values of the four fields. */
    function State(): Fields
      reads this
    {
      Fields(userPoolId, username, password, permanent)
    }

    /** Each field takes the input's value for its key, or null when absent or null. */
    constructor (input: InputMap)
      requires WellTyped(input)
      ensures userPoolId == StringParam(input, "UserPoolId")
      ensures username == StringParam(input, "Username")
      ensures password == StringParam(input, "Password")
      ensures permanent == BoolParam(input, "Permanent")
    {
      userPoolId := StringParam(input, "UserPoolId");
      username := StringParam(input, "Username");
      password := StringParam(input, "Password");
      permanent := BoolParam(input, "Permanent");
    }

    /** Returns an existing request as it is; builds a new one from an input array. */
    static method Create(input: CreateInput) returns (r: AdminSetUserPasswordRequest)
      requires input.Params? ==> WellTyped(input.input)
      ensures input.Existing? ==> r == input.request
      ensures input.Params? ==> fresh(r) && r.State() == Fields(
        StringParam(input.input, "UserPoolId"),
        StringParam(input.input, "Username"),
        StringParam(input.input, "Password"),
        BoolParam(input.input, "Permanent"))
    {
      if input.Existing? {
        r := input.request;
      } else {
        r := new AdminSetUserPasswordRequest(input.input);
      }
    }

    function GetPassword(): (r: Option<string>)
      reads this
      ensures r == State().password
    {
      password
    }

    function GetPermanent(): (r: Option<bool>)
      reads this
      ensures r == State().permanent
    {
      permanent
    }

    function GetUserPoolId(): (r: Option<string>)
      reads this
      ensures r == State().userPoolId
    {
      userPoolId
    }

    function GetUsername(): (r: Option<string>)
      reads this
      ensures r == State().username
    {
      username
    }

    /**
     * The wire request: POST to `/` with no query, the two fixed headers and the payload
     * of `RequestBody`; fails with the same error when `RequestBody` does.
     */
    method Request() returns (r: Result<HttpRequest, InvalidArgument>)
      ensures var p := Serialize(Schema, Values(State()));
        && (r.Err? <==> p.Err?)
        && (r.Err? ==> r.error == p.error)
        && (r.Ok? ==> r.value == Envelope(p.value) && r.value.body == Json(p.value))
    {
      var headers := map["Content-Type" := ContentType, "X-Amz-Target" := Target];
      var query: map<string, string> := map[];
      var uriString := "/";
      var bodyPayload := RequestBody();
      if bodyPayload.Err? {
        return Err(bodyPayload.error);
      }
      RequestBodyNeverEmpty(State());
      var body := if bodyPayload.value == [] then EmptyObject else Json(bodyPayload.value);
      r := Ok(HttpRequest("POST", uriString, query, headers, body));
    }

    method SetPassword(value: Option<string>) returns (self: AdminSetUserPasswordRequest)
      modifies this
      ensures self == this
      ensures State() == old(State()).(password := value)
    {
      password := value;
      self := this;
    }

    method SetPermanent(value: Option<bool>) returns (self: AdminSetUserPasswordRequest)
      modifies this
      ensures self == this
      ensures State() == old(State()).(permanent := value)
    {
      permanent := value;
      self := this;
    }

    method SetUserPoolId(value: Option<string>) returns (self: AdminSetUserPasswordRequest)
      modifies this
      ensures self == this
      ensures State() == old(State()).(userPoolId := value)
    {
      userPoolId := value;
      self := this;
    }

    method SetUsername(value: Option<string>) returns (self: AdminSetUserPasswordRequest)
      modifies this
      ensures self == this
      ensures State() == old(State()).(username := value)
    {
      username := value;
      self := this;
    }

    /**
     * Checks UserPoolId, Username and Password in that order, failing on the first null
     * one and appending each that passes, then appends Permanent unless it is null.
     */
    method RequestBody() returns (r: Result<Payload, InvalidArgument>)
      ensures r == Serialize(Schema, Values(State()))
    {
      SchemaPayload(State());
      var payload: Payload := [];
      if userPoolId.None? {
        return Err(MissingParameter("UserPoolId"));
      }
      payload := payload + [("UserPoolId", Str(userPoolId.value))];
      if username.None? {
        return Err(MissingParameter("Username"));
      }
      payload := payload + [("Username", Str(username.value))];
      if password.None? {
        return Err(MissingParameter("Password"));
      }
      payload := payload + [("Password", Str(password.value))];
      if permanent.Some? {
        payload := payload + [("Permanent", Bool(permanent.value))];
      }
      ghost var expected := Serialize(Schema, Values(State())).value;
      assert Serialize(Schema, Values(State())).Ok?;
      assert payload == expected;
      r := Ok(payload);
    }
  }

  /** An input array holding the three required parameters and no `Permanent`. */
  function SampleInput(): InputMap {
    map[
      "UserPoolId" := Some(Str("pool1")),
      "Username" := Some(Str("alice")),
      "Password" := Some(Str("secret"))]
  }

  /** A call with the three required parameters, made twice, gives one equal request. */
  method ExampleComplete()
  {
    var req := new AdminSetUserPasswordRequest(SampleInput());
    var r := req.Request();
    SchemaPayload(req.State());
    assert r.Ok? && r.value.body == Json([
      ("UserPoolId", Str("pool1")), ("Username", Str("alice")), ("Password", Str("secret"))]);
    var again := req.Request();
    assert again == r;
  }

  /** After `SetPermanent(Some(false))` the payload still carries `Permanent` as `false`. */
  method ExamplePermanentFalse()
  {
    var req := new AdminSetUserPasswordRequest(SampleInput());
    var same := req.SetPermanent(Some(false));
    var withFlag := same.Request();
    SchemaPayload(req.State());
    assert withFlag.Ok? && |withFlag.value.body.payload| == 4;
    assert withFlag.value.body.payload[3] == ("Permanent", Bool(false));
  }

  /** A call built without `Password` fails, naming `Password`. */
  method ExampleMissingPassword()
  {
    var noPassword := new AdminSetUserPasswordRequest(SampleInput() - {"Password"});
    var failed := noPassword.Request();
    SchemaPayload(noPassword.State());
    assert failed == Err(MissingParameter("Password"));
  }
}
