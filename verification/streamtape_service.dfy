/** The provider client (`api/services/streamtape_service.py`): every call
    goes out as one GET to `base URL + endpoint` with the account's login and
    key merged into the query parameters, and the answer is unwrapped from
    the provider's `{status, msg, result}` envelope or turned into an HTTP
    error. The network is a parameter: a function from the outbound request
    to what came back. */
module StreamtapeService {
  import opened Results
  import opened Text
  import opened JsonValues
  import opened Config

  const UploadEndpoint: string := "/file/ul"

  const RequestErrorPrefix: string := "An error occurred while requesting Streamtape API: "
  const ErrorResponsePrefix: string := "Error response from Streamtape API: "
  const UnexpectedPrefix: string := "An unexpected error occurred: "
  const DefaultProviderMessage: string := "An error occurred with the Streamtape API."

  /** One outbound GET: the full URL without query string, and the query
      parameters. */
  datatype Request = Request(url: string, params: map<string, string>)

  /** How the body of a response decoded. */
  datatype Body = Malformed(error: string) | Decoded(value: Json)

  /** What the network gave back for a request: `httpx.RequestError` (no
      response at all), or a response with its HTTP status, raw text and
      decoded body. */
  datatype Outcome =
    | RequestError(error: string)
    | Response(statusCode: int, text: string, body: Body)

  /** The exception caught by the final `except Exception` handler. */
  datatype Swallowed =
    | BodyNotJson(error: string)                 // `response.json()` raised
    | BodyNotObject(value: Json)                 // `.get` on a non-dict
    | ProviderRejected(status: Json, msg: Json)  // the `HTTPException` for a non-200 envelope
    | ResultMissing                              // `data["result"]` raised `KeyError`

  /** Which handler produced the error, with what it puts in the detail. */
  datatype Cause =
    | RequestFailed(error: string)
    | ErrorStatus(code: int, text: string)
    | Unexpected(swallowed: Swallowed)

  /** The `HTTPException` that leaves `_make_request`. */
  datatype ServiceError = ServiceError(statusCode: int, cause: Cause)

  /** The result of one call: the request that went out and what the caller
      gets back. */
  datatype Exchange = Exchange(request: Request, reply: Result<Json, ServiceError>)

  /** `response.raise_for_status()` passes exactly the 2xx statuses. */
  predicate IsSuccessStatus(code: int) {
    200 <= code <= 299
  }

  /** The detail text of an error, where the source determines it. The text
      of the generic handler embeds the string form of a framework exception
      and is given only by its prefix. */
  function Detail(c: Cause): (d: Option<string>)
    ensures d.Some? <==> !c.Unexpected?
    ensures c.RequestFailed? ==> RequestErrorPrefix <= d.value
    ensures c.ErrorStatus? ==> ErrorResponsePrefix <= d.value
  {
    match c
    case RequestFailed(e) => Some(RequestErrorPrefix + e)
    case ErrorStatus(code, text) => Some(ErrorResponsePrefix + IntToDecimal(code) + " - " + text)
    case Unexpected(_) => None
  }

  /** The query parameters sent with every call: the caller's parameters laid
      over `{login, key}` from the settings. */
  function WithCredentials(s: Settings, params: map<string, string>): (merged: map<string, string>)
    ensures merged.Keys == params.Keys + {"login", "key"}
    ensures forall k :: k in params ==> merged[k] == params[k]
    ensures "login" !in params ==> merged["login"] == s.login
    ensures "key" !in params ==> merged["key"] == s.key
  {
    map["login" := s.login, "key" := s.key] + params
  }

  /** The envelope says success: a dict whose `status` equals 200. */
  predicate EnvelopeOk(fields: map<string, Json>) {
    EqualsInt(Get(fields, "status"), 200)
  }

  /** An error from the generic handler. */
  function Collapsed(e: Swallowed): Result<Json, ServiceError> {
    Failure(ServiceError(500, Unexpected(e)))
  }

  /** The handlers of `_make_request` applied to what the network gave
      back. Only a 2xx response whose body is a dict with `status == 200` and
      a `result` key yields a value, and that value is `result` unchanged. A
      transport error is 500, a non-2xx response keeps its own status, and
      everything else, the provider's own error envelope included, ends in
      the generic handler as 500. */
  function Interpret(o: Outcome): (r: Result<Json, ServiceError>)
    ensures r.Success? <==>
      && o.Response? && IsSuccessStatus(o.statusCode)
      && o.body.Decoded? && o.body.value.Object?
      && EnvelopeOk(o.body.value.fields) && "result" in o.body.value.fields
    ensures r.Success? ==> r.value == o.body.value.fields["result"]
    ensures r.Failure? && o.Response? && !IsSuccessStatus(o.statusCode) ==>
      r.error == ServiceError(o.statusCode, ErrorStatus(o.statusCode, o.text))
    ensures r.Failure? && (o.RequestError? || IsSuccessStatus(o.statusCode)) ==>
      r.error.statusCode == 500
    ensures o.RequestError? ==> r.error.cause == RequestFailed(o.error)
    ensures r.Failure? ==> !IsSuccessStatus(r.error.statusCode)
  {
    match o
    case RequestError(e) => Failure(ServiceError(500, RequestFailed(e)))
    case Response(code, text, body) =>
      if !IsSuccessStatus(code) then Failure(ServiceError(code, ErrorStatus(code, text)))
      else match body
        case Malformed(e) => Collapsed(BodyNotJson(e))
        case Decoded(v) =>
          if !v.Object? then Collapsed(BodyNotObject(v))
          else if EnvelopeOk(v.fields) then
            if "result" in v.fields then Success(v.fields["result"]) else Collapsed(ResultMissing)
          else
            Collapsed(ProviderRejected(GetOr(v.fields, "status", Int(500)),
                                       GetOr(v.fields, "msg", Str(DefaultProviderMessage))))
  }

  /** `_make_request(endpoint, params)`: one request goes out, carrying the
      settings' credentials unless the caller overrides them, and its outcome
      is interpreted. */
  function MakeRequest(s: Settings, endpoint: string, params: map<string, string>,
                       network: Request -> Outcome): (x: Exchange)
    ensures x.request.url == s.baseUrl + endpoint
    ensures x.request.params.Keys == params.Keys + {"login", "key"}
    ensures forall k :: k in params ==> x.request.params[k] == params[k]
    ensures "login" !in params ==> x.request.params["login"] == s.login
    ensures "key" !in params ==> x.request.params["key"] == s.key
    ensures x.reply == Interpret(network(x.request))
  {
    var req := Request(s.baseUrl + endpoint, WithCredentials(s, params));
    Exchange(req, Interpret(network(req)))
  }

  /** The optional parameters of `get_upload_url`: `folder` and `sha256`
      only when truthy, `httponly` whenever given, as `"true"` or `"false"`. */
  function UploadParams(folder: Option<string>, sha256: Option<string>, httponly: Option<bool>): (p: map<string, string>)
    ensures p.Keys <= {"folder", "sha256", "httponly"}
    ensures "login" !in p && "key" !in p
    ensures "folder" in p <==> Truthy(folder)
    ensures "folder" in p ==> p["folder"] == folder.value
    ensures "sha256" in p <==> Truthy(sha256)
    ensures "sha256" in p ==> p["sha256"] == sha256.value
    ensures "httponly" in p <==> httponly.Some?
    ensures "httponly" in p ==> p["httponly"] in {"true", "false"}
    ensures "httponly" in p ==> (p["httponly"] == "true" <==> httponly.value)
  {
    var p0: map<string, string> := map[];
    var p1 := if Truthy(folder) then p0["folder" := folder.value] else p0;
    var p2 := if Truthy(sha256) then p1["sha256" := sha256.value] else p1;
    if httponly.Some? then p2["httponly" := if httponly.value then "true" else "false"] else p2
  }

  /** `get_upload_url`: the request goes to `/file/ul` and always carries the
      configured credentials, since the optional parameters never name
      `login` or `key`. */
  function GetUploadUrl(s: Settings, folder: Option<string>, sha256: Option<string>, httponly: Option<bool>,
                        network: Request -> Outcome): (x: Exchange)
    ensures x.request.url == s.baseUrl + UploadEndpoint
    ensures "login" in x.request.params && x.request.params["login"] == s.login
    ensures "key" in x.request.params && x.request.params["key"] == s.key
    ensures x.request.params.Keys - {"login", "key"} == UploadParams(folder, sha256, httponly).Keys
    ensures forall k :: k in UploadParams(folder, sha256, httponly) ==>
      x.request.params[k] == UploadParams(folder, sha256, httponly)[k]
    ensures x.reply == Interpret(network(x.request))
  {
    MakeRequest(s, UploadEndpoint, UploadParams(folder, sha256, httponly), network)
  }

  /** A provider error envelope inside a 2xx response does not surface the
      provider's status: the `HTTPException` raised for it is caught by the
      generic handler, and the caller sees 500. */
  lemma ProviderErrorBecomes500(code: int, text: string, fields: map<string, Json>)
    requires IsSuccessStatus(code)
    requires !EnvelopeOk(fields)
    ensures Interpret(Response(code, text, Decoded(Object(fields))))
         == Failure(ServiceError(500, Unexpected(ProviderRejected(
              GetOr(fields, "status", Int(500)),
              GetOr(fields, "msg", Str(DefaultProviderMessage))))))
  {
  }

  /** The envelope `{"status": 400, "msg": "Folder not found"}` ends as 500,
      not 400. */
  lemma FolderNotFoundExample()
    ensures Interpret(Response(200, "", Decoded(Object(map["status" := Int(400), "msg" := Str("Folder not found")])))).error.statusCode == 500
  {
  }

  /** A status decoded as the float `200.0` is a success, as Python's
      `200.0 == 200` is. */
  lemma FloatStatusAccepted(result: Json)
    ensures Interpret(Response(200, "", Decoded(Object(map["status" := Float(200.0), "result" := result]))))
         == Success(result)
  {
  }

  /** End to end: once the settings are built from raw values, every upload
      request carries exactly the login and key given to the settings. */
  lemma UploadUsesConfiguredCredentials(raw: RawSettings, folder: Option<string>, sha256: Option<string>,
                                        httponly: Option<bool>, network: Request -> Outcome)
    requires Validate(raw).Success?
    ensures var x := GetUploadUrl(Validate(raw).value, folder, sha256, httponly, network);
      && Some(x.request.params["login"]) == raw.login
      && Some(x.request.params["key"]) == raw.key
      && x.request.params["login"] != "" && x.request.params["key"] != ""
  {
  }

  /** Only a value Python's `==` finds equal to 200 passes the envelope test:
      `True` and the string `"200"` do not. */
  lemma NonNumericStatusRejected(result: Json)
    ensures Interpret(Response(200, "", Decoded(Object(map["status" := Bool(true), "result" := result])))).Failure?
    ensures Interpret(Response(200, "", Decoded(Object(map["status" := Str("200"), "result" := result])))).Failure?
  {
  }

  /** `raise_for_status()` rejects every status outside 200-299, so a
      redirect fails with its own status code. */
  lemma RedirectIsError(text: string, body: Body)
    ensures Interpret(Response(301, text, body)) == Failure(ServiceError(301, ErrorStatus(301, text)))
  {
  }
}
