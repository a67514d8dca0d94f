/**
 * The REST client: header construction, URL building, the request body
 * choice, and the mapping from an HTTP outcome to the `ApiResponse` record,
 * including the sign-out a 401 triggers.
 */
module Api {
  import opened Wrappers
  import opened Js
  import Storage
  import Navigation

  const BaseUrl: string := "https://donoxonsi.uz"
  const LoginEndpoint: string := "/api/auth/login"

  const ContentType: string := "Content-Type"
  const Accept: string := "Accept"
  const Authorization: string := "Authorization"
  const JsonMedia: string := "application/json"

  const SessionExpired: string := "Sessiya tugagan. Qayta kiring."
  const RequestFailed: string := "Xatolik yuz berdi"
  const Unreachable: string := "Serverga ulanib bo'lmadi. Internet aloqasini tekshiring."
  const UploadFailed: string := "Yuklashda xatolik"
  const UploadUnreachable: string := "Serverga ulanib bo'lmadi"

  /** The status of a response `fetch` resolves with (the Fetch standard
      confines it to 200..599). */
  type HttpStatus = s: int | 200 <= s <= 599 witness 200

  /** `response.ok` */
  predicate IsOk(status: int) {
    200 <= status <= 299
  }

  /** What `response.json()` gives: the parsed body, or a rejection. */
  datatype ParsedBody = Parsed(value: JsValue) | Unparsable

  /** What `fetch` does: reject, or resolve with a status and a body. */
  datatype FetchOutcome = Threw | Responded(status: HttpStatus, body: ParsedBody)

  datatype ApiResponse = ApiResponse(
    success: bool,
    data: JsValue,
    message: JsValue,
    errors: JsValue,
    status: int)

  /** The response a call resolves with, and whether it signed out
      (`storage.clear()` and `router.replace("/login")`) on the way. */
  datatype Handled = Handled(response: ApiResponse, signOut: bool)

  datatype RequestBody = NoBody | JsonBody(value: JsValue) | FormBody

  /** What is handed to `fetch`. */
  datatype HttpRequest = HttpRequest(
    url: string,
    verb: string,
    headers: map<string, string>,
    body: RequestBody)

  /** The `options` of a call to `request`. */
  datatype RequestInit = RequestInit(verb: string, headers: map<string, string>, body: RequestBody)

  function Bearer(token: string): string {
    "Bearer " + token
  }

  /** The headers `request` sends: the JSON defaults, overridden by the
      caller's headers, and then a bearer credential (section 2.1 of RFC 6750)
      whenever a token is stored, which overrides any caller `Authorization`. */
  function Headers(caller: map<string, string>, token: Option<string>): (h: map<string, string>)
    ensures TruthyText(token) ==> Authorization in h && h[Authorization] == Bearer(token.value)
    ensures !TruthyText(token) ==>
              (Authorization in h <==> Authorization in caller) &&
              (Authorization in caller ==> h[Authorization] == caller[Authorization])
    ensures forall k :: k in caller && k != Authorization ==> k in h && h[k] == caller[k]
    ensures ContentType in h && Accept in h
    ensures ContentType !in caller ==> h[ContentType] == JsonMedia
    ensures Accept !in caller ==> h[Accept] == JsonMedia
    ensures forall k :: k in h ==> k in caller || k == ContentType || k == Accept || k == Authorization
  {
    var merged := map[ContentType := JsonMedia, Accept := JsonMedia] + caller;
    if TruthyText(token) then merged[Authorization := Bearer(token.value)] else merged
  }

  /** With no caller `Authorization`, the header is there exactly when a
      token is stored. */
  lemma AuthorizationIffToken(caller: map<string, string>, token: Option<string>)
    requires Authorization !in caller
    ensures Authorization in Headers(caller, token) <==> TruthyText(token)
  {
  }

  /** The headers `upload` sends: no `Content-Type` (the multipart boundary
      is left to `fetch`), and the bearer credential when a token is stored. */
  function UploadHeaders(token: Option<string>): (h: map<string, string>)
    ensures ContentType !in h
    ensures Accept in h && h[Accept] == JsonMedia
    ensures Authorization in h <==> TruthyText(token)
    ensures Authorization in h ==> h[Authorization] == Bearer(token.value)
    ensures forall k :: k in h ==> k == Accept || k == Authorization
  {
    var base := map[Accept := JsonMedia];
    if TruthyText(token) then base[Authorization := Bearer(token.value)] else base
  }

  /** The serialised query of `new URLSearchParams(params)`: `key=value`
      pairs joined by `&` (percent-encoding is not modelled). */
  function QueryString(params: seq<(string, string)>): string {
    if params == [] then ""
    else if |params| == 1 then params[0].0 + "=" + params[0].1
    else params[0].0 + "=" + params[0].1 + "&" + QueryString(params[1..])
  }

  /** The URL `api.get` requests: the endpoint alone without params, and the
      endpoint, `?` and the query with them (even an empty params object). */
  function Url(endpoint: string, params: Option<seq<(string, string)>>): (url: string)
    ensures endpoint <= url
    ensures params.None? <==> |url| == |endpoint|
    ensures params.Some? ==> url[|endpoint|] == '?' && url[|endpoint| + 1..] == QueryString(params.value)
  {
    if params.Some? then endpoint + "?" + QueryString(params.value) else endpoint
  }

  /** The text before the first `?` of a URL: the path part. */
  function PathOf(url: string): (p: string)
    ensures p <= url
    ensures '?' !in p
  {
    if url == [] || url[0] == '?' then [] else [url[0]] + PathOf(url[1..])
  }

  /** The text after the first `?`, if there is one. */
  function QueryOf(url: string): Option<string> {
    if url == [] then None
    else if url[0] == '?' then Some(url[1..])
    else QueryOf(url[1..])
  }

  /** Splitting the URL `api.get` builds at its first `?` gives back the
      endpoint and the query, whenever the endpoint has no `?` of its own. */
  lemma {:induction false} UrlSplits(endpoint: string, params: Option<seq<(string, string)>>)
    requires '?' !in endpoint
    ensures PathOf(Url(endpoint, params)) == endpoint
    ensures QueryOf(Url(endpoint, params)) == if params.Some? then Some(QueryString(params.value)) else None
  {
    var url := Url(endpoint, params);
    if endpoint == [] {
      if params.Some? {
        assert url[0] == '?';
      }
    } else {
      assert url[0] == endpoint[0];
      assert url[1..] == Url(endpoint[1..], params);
      UrlSplits(endpoint[1..], params);
    }
  }

  /** `body ? JSON.stringify(body) : undefined` in post/put/patch. */
  function BodyFor(body: JsValue): (r: RequestBody)
    ensures r.NoBody? <==> !Truthy(body)
    ensures r.JsonBody? ==> r.value == body
    ensures !r.FormBody?
  {
    if Truthy(body) then JsonBody(body) else NoBody
  }

  /** The record a failed connection or a failed read of the body gives. */
  function ConnectionFailed(message: string): ApiResponse {
    ApiResponse(false, Null, Str(message), Null, 0)
  }

  /** The outcome `request` cannot read: a rejected `fetch`, or a body that
      does not parse or parses to null (reading `data.message` then throws). */
  predicate Unreadable(outcome: FetchOutcome) {
    outcome.Threw? ||
    (outcome.status != 204 && (outcome.body.Unparsable? || Nullish(outcome.body.value)))
  }

  /** How `request` turns the outcome of `fetch` into an `ApiResponse`. */
  function Classify(outcome: FetchOutcome): (h: Handled)
    ensures h.response.status == 0 <==> Unreadable(outcome)
    ensures !Unreadable(outcome) ==> h.response.status == outcome.status
    ensures h.response.success <==> !Unreadable(outcome) && IsOk(outcome.status)
    ensures h.signOut <==> outcome.Responded? && outcome.status == 401 && outcome.body.Parsed?
    ensures h.response.success ==> h.response.errors == Null
    ensures h.response.success && h.response.status != 204 ==> !Nullish(h.response.data)
    ensures !h.response.success ==> h.response.data == Null && Truthy(h.response.message)
    ensures Truthy(h.response.errors) ==> !h.response.success && h.response.status !in {0, 401}
  {
    match outcome
    case Threw => Handled(ConnectionFailed(Unreachable), false)
    case Responded(status, body) =>
      if status == 204 then
        Handled(ApiResponse(true, Null, Null, Null, 204), false)
      else if body.Unparsable? then
        Handled(ConnectionFailed(Unreachable), false)
      else
        var data := body.value;
        if Nullish(data) then
          // on a 401 the sign-out has already happened when `data.message` throws
          Handled(ConnectionFailed(Unreachable), status == 401)
        else if status == 401 then
          Handled(ApiResponse(false, Null, Or(Field(data, "message"), Str(SessionExpired)), Null, 401), true)
        else if !IsOk(status) then
          Handled(ApiResponse(false, Null, Or(Field(data, "message"), Str(RequestFailed)),
                              Or(Field(data, "errors"), Null), status), false)
        else
          Handled(ApiResponse(true, Coalesce(Field(data, "data"), data), Or(Field(data, "message"), Null),
                              Null, status), false)
  }

  /** 204 No Content (section 15.3.5 of RFC 9110): success with nothing in
      it, and the body is never read. */
  lemma NoContentIgnoresBody(body: ParsedBody, other: ParsedBody)
    ensures Classify(Responded(204, body)) == Classify(Responded(204, other))
    ensures Classify(Responded(204, body)) == Handled(ApiResponse(true, Null, Null, Null, 204), false)
  {
  }

  /** 401 Unauthorized (section 15.5.2 of RFC 9110) with a readable body:
      sign out, and fail with the server's message or the session default. */
  lemma UnauthorizedSignsOut(data: JsValue)
    requires !Nullish(data)
    ensures var h := Classify(Responded(401, Parsed(data)));
      h.signOut &&
      h.response == ApiResponse(false, Null, Or(OptionalField(data, "message"), Str(SessionExpired)), Null, 401)
  {
  }

  /** A successful response carries `body.data`, or the whole body when
      that field is null or absent. */
  lemma DataFallsBackToBody(status: HttpStatus, data: JsValue)
    requires IsOk(status) && status != 204 && !Nullish(data)
    ensures var r := Classify(Responded(status, Parsed(data))).response;
      r.success && r.status == status &&
      r.data == (if Nullish(OptionalField(data, "data")) then data else OptionalField(data, "data"))
  {
  }

  /** Any other failure echoes the status and passes `body.errors` on. */
  lemma ErrorsPassedOn(status: HttpStatus, data: JsValue)
    requires !IsOk(status) && status != 401 && !Nullish(data)
    ensures var r := Classify(Responded(status, Parsed(data))).response;
      !r.success && r.status == status &&
      r.errors == (if Truthy(OptionalField(data, "errors")) then OptionalField(data, "errors") else Null)
  {
  }

  /** How `upload` turns the outcome of `fetch` into an `ApiResponse`: the
      body is always parsed first (there is no 204 case), a 401 never reads
      the body's message, and its own default messages are used. */
  function ClassifyUpload(outcome: FetchOutcome): (h: Handled)
    ensures h.response.status == 0 <==>
              outcome.Threw? || outcome.body.Unparsable? ||
              (outcome.status != 401 && Nullish(outcome.body.value))
    ensures h.response.status != 0 ==> h.response.status == outcome.status
    ensures h.signOut <==> outcome.Responded? && outcome.status == 401 && outcome.body.Parsed?
    ensures h.response.success ==> h.response.errors == Null && IsOk(h.response.status)
    ensures !h.response.success ==> h.response.data == Null && Truthy(h.response.message)
  {
    match outcome
    case Threw => Handled(ConnectionFailed(UploadUnreachable), false)
    case Responded(status, body) =>
      if body.Unparsable? then
        Handled(ConnectionFailed(UploadUnreachable), false)
      else
        var data := body.value;
        if status == 401 then
          Handled(ApiResponse(false, Null, Str(SessionExpired), Null, 401), true)
        else if Nullish(data) then
          Handled(ConnectionFailed(UploadUnreachable), false)
        else if !IsOk(status) then
          Handled(ApiResponse(false, Null, Or(Field(data, "message"), Str(UploadFailed)),
                              Or(Field(data, "errors"), Null), status), false)
        else
          Handled(ApiResponse(true, Coalesce(Field(data, "data"), data), Or(Field(data, "message"), Null),
                              Null, status), false)
  }

  /** Apart from 204, 401 and the default messages, `upload` classifies a
      readable response exactly as `request` does. */
  lemma UploadAgreesWithRequest(status: HttpStatus, data: JsValue)
    requires status != 204 && status != 401 && !Nullish(data)
    ensures var r := Classify(Responded(status, Parsed(data))).response;
      var u := ClassifyUpload(Responded(status, Parsed(data))).response;
      u.success == r.success && u.status == r.status && u.data == r.data && u.errors == r.errors &&
      (r.success ==> u.message == r.message)
  {
  }

  /** A 204 without a body, which `request` reports as a success, is a
      failed read for `upload`. */
  lemma UploadHasNoContentCase()
    ensures Classify(Responded(204, Unparsable)).response.success
    ensures ClassifyUpload(Responded(204, Unparsable)).response.status == 0
  {
  }

  /** `request(endpoint, options)`: reads the token, sends, and classifies
      what `fetch` did; on a 401 it clears the auth keys and goes to the
      login screen. It never rejects. */
  method Request(store: Storage.AuthStorage, router: Navigation.Router, endpoint: string,
                 init: RequestInit, outcome: FetchOutcome)
    returns (sent: HttpRequest, response: ApiResponse)
    requires store.Valid()
    modifies store, router
    ensures store.Valid()
    ensures sent == HttpRequest(BaseUrl + endpoint, init.verb,
                                Headers(init.headers, Storage.TokenOf(old(store.items))), init.body)
    ensures response == Classify(outcome).response
    ensures store.items == if Classify(outcome).signOut then Storage.Cleared(old(store.items)) else old(store.items)
    ensures router.path == if Classify(outcome).signOut then Navigation.LoginPath else old(router.path)
  {
    var token := store.GetToken();
    var headers := Headers(init.headers, token);
    sent := HttpRequest(BaseUrl + endpoint, init.verb, headers, init.body);
    var handled := Classify(outcome);
    if handled.signOut {
      store.Clear();
      router.Replace(Navigation.LoginPath);
    }
    response := handled.response;
  }

  /** `api.get(endpoint, params)` */
  method Get(store: Storage.AuthStorage, router: Navigation.Router, endpoint: string,
             params: Option<seq<(string, string)>>, outcome: FetchOutcome)
    returns (sent: HttpRequest, response: ApiResponse)
    requires store.Valid()
    modifies store, router
    ensures store.Valid()
    ensures sent.url == BaseUrl + Url(endpoint, params) && sent.verb == "GET" && sent.body == NoBody
    ensures sent.headers == Headers(map[], Storage.TokenOf(old(store.items)))
    ensures response == Classify(outcome).response
    ensures store.items == if Classify(outcome).signOut then Storage.Cleared(old(store.items)) else old(store.items)
    ensures router.path == if Classify(outcome).signOut then Navigation.LoginPath else old(router.path)
  {
    sent, response := Request(store, router, Url(endpoint, params), RequestInit("GET", map[], NoBody), outcome);
  }

  /** The three writing verbs of `api`. */
  datatype WriteVerb = Post | Put | Patch

  function VerbName(verb: WriteVerb): string {
    match verb
    case Post => "POST"
    case Put => "PUT"
    case Patch => "PATCH"
  }

  /** `api.post`, `api.put` and `api.patch`: a falsy body is sent as no body. */
  method SendJson(store: Storage.AuthStorage, router: Navigation.Router, verb: WriteVerb,
                  endpoint: string, body: JsValue, outcome: FetchOutcome)
    returns (sent: HttpRequest, response: ApiResponse)
    requires store.Valid()
    modifies store, router
    ensures store.Valid()
    ensures sent.url == BaseUrl + endpoint && sent.verb == VerbName(verb) && sent.body == BodyFor(body)
    ensures sent.headers == Headers(map[], Storage.TokenOf(old(store.items)))
    ensures response == Classify(outcome).response
    ensures store.items == if Classify(outcome).signOut then Storage.Cleared(old(store.items)) else old(store.items)
    ensures router.path == if Classify(outcome).signOut then Navigation.LoginPath else old(router.path)
  {
    sent, response := Request(store, router, endpoint, RequestInit(VerbName(verb), map[], BodyFor(body)), outcome);
  }

  /** `api.delete(endpoint)` */
  method Delete(store: Storage.AuthStorage, router: Navigation.Router, endpoint: string, outcome: FetchOutcome)
    returns (sent: HttpRequest, response: ApiResponse)
    requires store.Valid()
    modifies store, router
    ensures store.Valid()
    ensures sent.url == BaseUrl + endpoint && sent.verb == "DELETE" && sent.body == NoBody
    ensures sent.headers == Headers(map[], Storage.TokenOf(old(store.items)))
    ensures response == Classify(outcome).response
    ensures store.items == if Classify(outcome).signOut then Storage.Cleared(old(store.items)) else old(store.items)
    ensures router.path == if Classify(outcome).signOut then Navigation.LoginPath else old(router.path)
  {
    sent, response := Request(store, router, endpoint, RequestInit("DELETE", map[], NoBody), outcome);
  }

  /** `api.upload(endpoint, formData)`: a multipart POST. */
  method Upload(store: Storage.AuthStorage, router: Navigation.Router, endpoint: string, outcome: FetchOutcome)
    returns (sent: HttpRequest, response: ApiResponse)
    requires store.Valid()
    modifies store, router
    ensures store.Valid()
    ensures sent == HttpRequest(BaseUrl + endpoint, "POST", UploadHeaders(Storage.TokenOf(old(store.items))), FormBody)
    ensures response == ClassifyUpload(outcome).response
    ensures store.items == if ClassifyUpload(outcome).signOut then Storage.Cleared(old(store.items)) else old(store.items)
    ensures router.path == if ClassifyUpload(outcome).signOut then Navigation.LoginPath else old(router.path)
  {
    var token := store.GetToken();
    sent := HttpRequest(BaseUrl + endpoint, "POST", UploadHeaders(token), FormBody);
    var handled := ClassifyUpload(outcome);
    if handled.signOut {
      store.Clear();
      router.Replace(Navigation.LoginPath);
    }
    response := handled.response;
  }
}
