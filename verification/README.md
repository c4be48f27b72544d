# AdminSetUserPassword input shape and SSM ParameterType, in Dafny

This project models two pieces of a generated AWS client library.

- **`AdminSetUserPasswordRequest`** (Cognito Identity Provider) is the input shape of the
  AdminSetUserPassword call. It has three required string parameters, `UserPoolId`,
  `Username` and `Password`, and one optional boolean, `Permanent`. They are filled from an
  input array by the constructor or `create`, read by getters and changed by fluent setters.
  `requestBody` validates the required parameters and builds the ordered payload.
  `request` wraps that payload in the wire request: `POST /` with no query, two fixed
  headers and a JSON body.
- **`ParameterType`** (SSM) is an enumeration of three string constants, `SecureString`,
  `String` and `StringList`, with an exact membership test `exists`.

Layout:

- `wrappers.dfy`: `Option` (PHP `null` is `None`) and `Result` (a thrown exception is `Err`).
- `request_shape.dfy`: module `RequestShape`. It holds payload values, the
  `InvalidArgument` error, the wire request, and the `$input[key] ?? null` lookups. It also
  holds `Serialize`, a declarative walk over a parameter list (name, required flag). That
  walk is the reference definition of a request body, and its lemmas are proved by induction.
- `admin_set_user_password_request.dfy`: module `CognitoIdentityProviderInput`. It holds the
  class `AdminSetUserPasswordRequest` with its four `Option` fields. `RequestBody` is written
  step by step with early returns, as in the source, and is proved equal to `Serialize` over
  the shape's schema. `SchemaPayload` states the resulting payload outright. Three client
  methods assert four outcomes. `ExampleComplete` covers a call with all three required
  parameters, and the same call repeated, which gives an equal request.
  `ExamplePermanentFalse` covers the call after `SetPermanent(Some(false))`, which keeps
  `("Permanent", Bool(false))` in the payload. `ExampleMissingPassword` covers a call built
  without `Password`, which fails naming `Password`.
- `parameter_type.dfy`: module `ParameterType`. It models the constants as a datatype
  `Kind` with `Name`, the lookup table, `Exists`, and `Parse`, the inverse of `Name`.

## Model

| member | source | states |
|---|---|---|
| `RequestShape.StringParam` | src/Service/CognitoIdentityProvider/src/Input/AdminSetUserPasswordRequest.php:57-59 | `$input[key] ?? null` for a string key: the result is non-null exactly when the key is present with a non-null value, and it is then that value |
| `RequestShape.BoolParam` | src/Service/CognitoIdentityProvider/src/Input/AdminSetUserPasswordRequest.php:60 | the same for the boolean `Permanent` key |
| `RequestShape.Serialize` | src/Service/CognitoIdentityProvider/src/Input/AdminSetUserPasswordRequest.php:142-161 | a failure always names a required parameter whose value is null; a payload never has more entries than there are parameters |
| `RequestShape.SerializeFailsIff` | src/Service/CognitoIdentityProvider/src/Input/AdminSetUserPasswordRequest.php:144-156 | serialization fails if and only if some required parameter is null |
| `RequestShape.SerializeNamesFirstMissing` | src/Service/CognitoIdentityProvider/src/Input/AdminSetUserPasswordRequest.php:145-156 | the error names the first null required parameter in declaration order |
| `RequestShape.SerializeCopiesPresent` | src/Service/CognitoIdentityProvider/src/Input/AdminSetUserPasswordRequest.php:144-161 | on success the payload is exactly the non-null parameters, in declaration order, each under its own name with its own value; absent ones are omitted |
| `CognitoIdentityProviderInput.SchemaPayload` | src/Service/CognitoIdentityProvider/src/Input/AdminSetUserPasswordRequest.php:142-161 | for this shape, failure happens exactly when UserPoolId, Username or Password is null, and the error names the first null one in that order. On success the keys are UserPoolId, Username, Password in that order with the field values, then Permanent if and only if it is non-null, so `false` is kept |
| `CognitoIdentityProviderInput.Envelope` | src/Service/CognitoIdentityProvider/src/Input/AdminSetUserPasswordRequest.php:94-111 | the request is POST to `/` with an empty query and exactly the Content-Type and X-Amz-Target headers. Its body is `{}` exactly when the payload is empty, and the encoded payload otherwise |
| `CognitoIdentityProviderInput.RequestBodyNeverEmpty` | src/Service/CognitoIdentityProvider/src/Input/AdminSetUserPasswordRequest.php:107-108 | a successful payload is never empty, so the `{}` branch is never taken |
| `CognitoIdentityProviderInput.AdminSetUserPasswordRequest.constructor` | src/Service/CognitoIdentityProvider/src/Input/AdminSetUserPasswordRequest.php:55-60 | each field is the input's value for its key when that value is present and non-null, and null otherwise |
| `CognitoIdentityProviderInput.AdminSetUserPasswordRequest.Create` | src/Service/CognitoIdentityProvider/src/Input/AdminSetUserPasswordRequest.php:64-67 | an existing request is returned unchanged (same object); an input array gives a fresh request built as the constructor does |
| `CognitoIdentityProviderInput.AdminSetUserPasswordRequest.GetPassword` | src/Service/CognitoIdentityProvider/src/Input/AdminSetUserPasswordRequest.php:69-72 | the current Password; reads only this object and changes nothing |
| `CognitoIdentityProviderInput.AdminSetUserPasswordRequest.GetPermanent` | src/Service/CognitoIdentityProvider/src/Input/AdminSetUserPasswordRequest.php:74-77 | the current Permanent; reads only this object and changes nothing |
| `CognitoIdentityProviderInput.AdminSetUserPasswordRequest.GetUserPoolId` | src/Service/CognitoIdentityProvider/src/Input/AdminSetUserPasswordRequest.php:79-82 | the current UserPoolId; reads only this object and changes nothing |
| `CognitoIdentityProviderInput.AdminSetUserPasswordRequest.GetUsername` | src/Service/CognitoIdentityProvider/src/Input/AdminSetUserPasswordRequest.php:84-87 | the current Username; reads only this object and changes nothing |
| `CognitoIdentityProviderInput.AdminSetUserPasswordRequest.Request` | src/Service/CognitoIdentityProvider/src/Input/AdminSetUserPasswordRequest.php:92-112 | fails with the request body's error exactly when the body fails. Otherwise the result is the fixed envelope around the body's payload, and its body is that payload's encoding, never `{}`. It changes no field, so repeated calls give the same request |
| `CognitoIdentityProviderInput.AdminSetUserPasswordRequest.SetPassword` | src/Service/CognitoIdentityProvider/src/Input/AdminSetUserPasswordRequest.php:114-119 | Password becomes the argument, the other three fields are unchanged, and the same instance is returned |
| `CognitoIdentityProviderInput.AdminSetUserPasswordRequest.SetPermanent` | src/Service/CognitoIdentityProvider/src/Input/AdminSetUserPasswordRequest.php:121-126 | Permanent becomes the argument, the other three fields are unchanged, and the same instance is returned |
| `CognitoIdentityProviderInput.AdminSetUserPasswordRequest.SetUserPoolId` | src/Service/CognitoIdentityProvider/src/Input/AdminSetUserPasswordRequest.php:128-133 | UserPoolId becomes the argument, the other three fields are unchanged, and the same instance is returned |
| `CognitoIdentityProviderInput.AdminSetUserPasswordRequest.SetUsername` | src/Service/CognitoIdentityProvider/src/Input/AdminSetUserPasswordRequest.php:135-140 | Username becomes the argument, the other three fields are unchanged, and the same instance is returned |
| `CognitoIdentityProviderInput.AdminSetUserPasswordRequest.RequestBody` | src/Service/CognitoIdentityProvider/src/Input/AdminSetUserPasswordRequest.php:142-162 | the step-by-step validation and payload assembly gives exactly what the declarative walk over the schema gives (UserPoolId, Username and Password required; Permanent optional) for the current fields |
| `ParameterType.Exists` | src/Service/Ssm/src/Enum/ParameterType.php:11-18 | true if and only if the value is `SecureString`, `String` or `StringList`, which are exactly the names of the declared kinds; a pure function of its argument |
| `ParameterType.ConstantsAccepted` | src/Service/Ssm/src/Enum/ParameterType.php:7-17 | every declared constant is accepted and parses back to its own kind |
| `ParameterType.ExistsIffParses` | src/Service/Ssm/src/Enum/ParameterType.php:11-18 | a string is accepted exactly when it parses to a kind, and it is then that kind's name |
| `ParameterType.CaseSensitive` | src/Service/Ssm/src/Enum/ParameterType.php:13-17 | matching is exact: other casings, a trailing space, the empty string and unknown words are rejected |
| `ParameterType.ExactlyThree` | src/Service/Ssm/src/Enum/ParameterType.php:7-9 | the three constants are pairwise distinct, and the lookup table has exactly these three keys |

## Left out

- The parent `Input` constructor and its `@region` handling (AdminSetUserPasswordRequest.php:61). `AsyncAws\Core\Input` is not part of this model. Keys other than the four parameters are ignored.
- The bytes of `json_encode` and the stream from `StreamFactory::create`. The body is modelled abstractly, as the literal `{}` or `Json(payload)` of the ordered payload. PHP strings are bytes, while the model's `string` is a sequence of Unicode characters. So `json_encode` returning `false` on malformed UTF-8 cannot be represented, and `Request` never fails once the three required fields are set.
- `AsyncAws\Core\Request` is not part of this model. It is represented by the plain datatype `HttpRequest`.
- The exception message text built by `sprintf` with `__CLASS__`. The error carries only the missing parameter's name.
- PHP's loose typing of the input array: the constructor and `Create` require the string keys to hold strings and `Permanent` a boolean, as the constructor's docblock declares (lines 47-53). The model also accepts null under any of these keys, which `??` treats like a missing key. For the same reason the `(bool)` cast at line 158 is the identity here.
- The constructor's default argument `array $input = []` (line 55) has no separate form: `new AdminSetUserPasswordRequest(map[])` gives the same request, with all four fields null.
- `CognitoIdentityProviderInput.AdminSetUserPasswordRequest.constructor`: requires well-typed input (see above) instead of modelling what PHP stores for a value of the wrong type.
- HTTP transport, signing, retries and response parsing are not present in these files.
