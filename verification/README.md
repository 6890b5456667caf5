# AuraHub API gateway: settings and provider-call model

A Dafny model of the decision logic of a small HTTP gateway that re-exposes
the Streamtape file-hosting API. Two pieces of the gateway carry logic worth
stating exactly:

- **Settings construction** (`config.py`). Construction refuses a missing or
  empty login or key. It normalises the allowed cross-origin callers: a
  string `"*"` becomes `["*"]`, any other string is split on `,` and each
  piece is stripped of surrounding whitespace, and a list is kept unchanged.
- **The provider client** (`api/services/streamtape_service.py`). Every call
  is one GET to `base URL + endpoint`. Its query parameters are the caller's
  parameters laid over `{login, key}` from the settings. The reply is
  unwrapped from the provider's `{status, msg, result}` envelope or turned
  into an HTTP error with a status code. `get_upload_url` builds the
  optional `folder`, `sha256` and `httponly` parameters for `/file/ul`.

Modules:

- `Results` (`results.dfy`): `Option` and `Result`.
- `Text` (`text.dfy`): the Python string operations the settings use. It
  covers `str.isspace`, `strip()`, `split(sep)`, `sep.join`, and the decimal
  form of an `int` in an f-string. `strip()` is proved equal to an
  independent reference definition (`IsStripOf`). `split` and `join` are
  proved inverse to each other.
- `JsonValues` (`json.dfy`): a decoded JSON value, and Python's `==` between
  such a value and an `int`.
- `Config` (`config.dfy`): raw field values in, `Result<Settings, ConfigError>` out.
- `StreamtapeService` (`streamtape_service.dfy`): the network is a parameter
  `network: Request -> Outcome`. An `Outcome` is either a transport error or
  a response with an HTTP status, raw text and decoded body. `Interpret`
  applies the exception handlers of `_make_request` to it.

The handler order of `_make_request` is modelled as written. The
`HTTPException` raised for an envelope whose `status` is not 200 is raised
inside the `try`. The final `except Exception` catches it, so a provider
business error reaches the caller as status 500, not as the provider's
status. The code at lines 36-39 builds an `HTTPException` carrying the
provider's status, but the generic handler at line 50 replaces it with 500.
The model follows the code (`ProviderErrorBecomes500`,
`FolderNotFoundExample`). The two `httpx` handlers raise from inside an
`except` clause, so their errors leave unchanged. A transport error gives
500. A non-2xx response keeps its own status.

## Model

| member | source | states |
|---|---|---|
| Config.Validate | config.py:22-28 | construction fails exactly when the login or the key is absent or the empty string; otherwise the settings hold the given base URL and credentials (non-empty) and the normalised origins |
| Config.WhitespaceCredentialsAccepted | config.py:24 | a whitespace-only login or key is truthy and is accepted |
| Config.DefaultsRejected | config.py:12-19 | with the field defaults alone (no credentials) construction fails |
| Config.DefaultsWithCredentials | config.py:12-19 | given only the two credentials, the base URL is `https://api.streamtape.com` and the origins are `["*"]` |
| Config.NormaliseOrigins | config.py:30-38 | a value already given as a list is kept unchanged; a string goes through the string parser |
| Config.ParseOrigins | config.py:32-38 | `"*"` gives `["*"]`; any other string gives one origin per comma-separated piece (commas + 1, so never empty); no origin contains a comma or has whitespace at either end |
| Config.ParseOriginsPieces | config.py:36-38 | for a string other than `"*"`, origin i is the i-th comma-separated piece, in input order, with surrounding whitespace removed as the reference definition of `strip()` says |
| Config.ParseJoin | config.py:32-38 | parsing the comma-join of comma-free origins without edge whitespace gives back exactly those origins |
| Config.ReparseJoined | config.py:32-38 | parsing the comma-join of a parsed origins list gives the same list |
| Config.ParseEmptyOrigins | config.py:38 | the empty string gives one empty origin `[""]` |
| Config.ParseOriginsKeepsEmptyPieces | config.py:38 | empty pieces are kept: `"a,,b"` gives `["a", "", "b"]` |
| Config.ParseOriginsTrims | config.py:38 | whitespace around each origin is removed: `" a , b"` gives `[a, b]` |
| Text.Strip | config.py:38 | `strip()` leaves no whitespace at either end of its result, is no longer than its input and adds no character; whitespace is `Text.IsSpace`, the 29 code points of Python's `str.isspace()` |
| Text.StripUnicodeSpace | config.py:38 | the whitespace set decides what is cut: a no-break space and an ideographic space around an origin are removed, a zero-width space is kept |
| Text.StripIsStripOf | config.py:38 | `strip()` meets its reference definition: the result is a slice of the input, everything cut on either side is whitespace, and no whitespace is left at either end |
| Text.StripUnique | config.py:38 | any result meeting the reference definition of `strip()` equals `Strip`, so the definition fixes the result |
| Text.StripIdempotent | config.py:38 | stripping a stripped string again changes nothing |
| Text.StripStripped | config.py:38 | a string without whitespace at its ends is its own strip |
| Text.StripSurrounded | config.py:38 | whitespace wrapped around a stripped string is exactly what strip removes |
| Text.Split | config.py:38 | `split(',')` gives one more piece than there are commas, none containing a comma |
| Text.JoinSplit | config.py:38 | joining the pieces of a split with the separator gives the original string |
| Text.SplitJoin | config.py:38 | splitting the join of comma-free pieces gives back those pieces, so the split is the unique comma-free cutting |
| Text.SplitHead | config.py:38 | a separator after a separator-free head splits off exactly that head |
| Text.SplitNoSep | config.py:38 | a string without the separator splits into itself alone |
| Text.NatToDecimal | api/services/streamtape_service.py:48 | the status code in the error detail is a non-empty run of digits without a leading zero whose value is the code |
| StreamtapeService.WithCredentials | api/services/streamtape_service.py:21-25 | the outbound parameters hold every caller key with its caller value, plus `login` and `key` from the settings unless the caller gave those keys |
| StreamtapeService.MakeRequest | api/services/streamtape_service.py:16-29 | the request goes to the base URL followed directly by the endpoint, with the merged parameters, and its reply is the interpretation of what the network returned for that request |
| StreamtapeService.Interpret | api/services/streamtape_service.py:28-54 | a value is returned iff the response is 2xx, the body is a dict whose `status` equals 200 and `result` is present, and it is `result` unchanged; a non-2xx response fails with its own status; a transport error and every other failure give 500; no error carries a 2xx status. "2xx" is `IsSuccessStatus` (what `raise_for_status()` at line 30 lets through) and "`status` equals 200" is `JsonValues.EqualsInt`, Python's `==` at line 33 |
| StreamtapeService.ProviderErrorBecomes500 | api/services/streamtape_service.py:35-39 | an envelope whose `status` is missing or not 200 ends in the generic handler with 500, recording the swallowed exception's status and message |
| StreamtapeService.FolderNotFoundExample | api/services/streamtape_service.py:35-54 | the envelope `{"status": 400, "msg": "Folder not found"}` reaches the caller as 500 |
| StreamtapeService.NonNumericStatusRejected | api/services/streamtape_service.py:33-39 | an envelope `status` of `true` or of the string `"200"` is not equal to 200 in Python, so the call fails instead of returning `result` |
| StreamtapeService.RedirectIsError | api/services/streamtape_service.py:30 | a 301 response is rejected by `raise_for_status()` and fails with status 301 |
| StreamtapeService.FloatStatusAccepted | api/services/streamtape_service.py:33-34 | a status decoded as `200.0` counts as success and the result is returned unchanged |
| StreamtapeService.Detail | api/services/streamtape_service.py:40-54 | the transport and error-status details start with their literal prefixes; the generic handler's detail is not determined |
| StreamtapeService.UploadParams | api/services/streamtape_service.py:61-68 | `folder` and `sha256` appear only when truthy, carrying the given value; `httponly` appears iff given, as exactly `"true"` or `"false"` matching the flag; `login` and `key` never appear |
| StreamtapeService.GetUploadUrl | api/services/streamtape_service.py:56-70 | the request goes to base URL + `/file/ul`, carries the configured login and key, and its other keys are exactly the optional parameters built, each with the value built for it, so the caller's `folder`, `sha256` and `httponly` reach the provider |
| StreamtapeService.UploadUsesConfiguredCredentials | api/services/streamtape_service.py:11-14 | once settings are built from raw values, every upload request carries exactly the configured, non-empty login and key |

## Left out

- The `httpx` client, `async`/`await` and JSON decoding: the network's answer is the input `Outcome`, and the decoded body is a `Json` value or a decoding error.
- The environment and `.env` loading of the settings: the raw field values are the input `RawSettings`.
- Query-parameter order: the parameters are a `map`, so the insertion order Python's `dict` keeps is not modelled.
- Parameter values other than strings: every parameter the modelled calls send is a string.
- Floating-point rounding when JSON numbers decode: a decoded float is an exact `real`.
- StreamtapeService.Detail: states only the literal prefix of each detail text. The generic handler's text embeds the string form of a framework exception, and that format is not part of this model.
- `raise_for_status` is modelled as passing exactly the 2xx statuses, as current `httpx` does. The source comment mentions only 4xx and 5xx.
- Exceptions from `client.get` other than `httpx.RequestError`, such as `httpx.InvalidURL` for a malformed base URL, have no `Outcome` variant. In the source they fall to the generic handler, so the status is still 500, but the cause would be `Unexpected`, not `RequestFailed`.
- If the envelope's `msg` is JSON `null`, constructing the `HTTPException` may itself raise. The generic handler catches that too, so the status is still 500, but the swallowed exception recorded in the model is the one the code meant to raise.
- `api/endpoints/upload.py`: it re-raises an `HTTPException` unchanged and the modelled service raises nothing else, so on the model it is the identity.
- The response-model check FastAPI applies to the endpoint's return value is not part of this model.
- `main.py` only registers routers, and the CORS middleware that would use the origins list is not wired in there.
- `api/endpoints/file_management.py`, `api/endpoints/stream.py` and `api/endpoints/converts.py` call service methods that are not defined in the service file, such as the download ticket, folder listing and conversion calls. Their parameter mapping and result handling are not part of this model.
