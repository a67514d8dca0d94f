/**
 * The login screen's logic: the order of the checks before the login call,
 * the message shown when it fails, the writes to storage when it succeeds,
 * and the error-clearing input handlers.
 */
module Login {
  import opened Wrappers
  import opened Js
  import opened Storage
  import Navigation
  import Api

  const AlertTitle: string := "Xatolik"
  const PushRequired: string := "Push notification ruxsati kerak. Sozlamalardan yoqing."
  const BothEmpty: string := "Email va parolni kiriting!"
  const EmailEmpty: string := "Email manzilni kiriting!"
  const PasswordEmpty: string := "Parolni kiriting!"
  const BadCredentials: string := "Email yoki parol noto'g'ri!"

  /** The verdict of the checks handleLogin makes before calling the server. */
  datatype Check = NeedsPush | Invalid(message: string) | Submit

  /** The push token first, then both fields, then each field alone. */
  function Validate(fcmToken: Option<string>, email: string, password: string): (c: Check)
    ensures c == Submit <==> TruthyText(fcmToken) && email != "" && password != ""
    ensures c == NeedsPush <==> !TruthyText(fcmToken)
    ensures c.Invalid? ==> c.message in {BothEmpty, EmailEmpty, PasswordEmpty}
    ensures TruthyText(fcmToken) && email == "" && password == "" ==> c == Invalid(BothEmpty)
    ensures TruthyText(fcmToken) && email == "" && password != "" ==> c == Invalid(EmailEmpty)
    ensures TruthyText(fcmToken) && email != "" && password == "" ==> c == Invalid(PasswordEmpty)
  {
    if !TruthyText(fcmToken) then NeedsPush
    else if email == "" && password == "" then Invalid(BothEmpty)
    else if email == "" then Invalid(EmailEmpty)
    else if password == "" then Invalid(PasswordEmpty)
    else Submit
  }

  /** The body of the login call: `{ email, password }`. */
  function LoginBody(email: string, password: string): JsValue {
    Obj([Member("email", Str(email)), Member("password", Str(password))])
  }

  /** The message shown when the login call fails: the first entry of the
      flattened error lists when `errors` is present, otherwise the server's
      message or the default. */
  function FailureMessage(response: Api.ApiResponse): (m: JsValue)
    ensures !Truthy(response.errors) ==> Truthy(m)
    ensures !Truthy(response.errors) && Truthy(response.message) ==> m == response.message
    ensures !Truthy(response.errors) && !Truthy(response.message) ==> m == Str(BadCredentials)
  {
    if Truthy(response.errors) then First(Flat(Values(response.errors)))
    else Or(response.message, Str(BadCredentials))
  }

  /** With errors keyed by field, the message shown is the first message of
      the first field that has any. */
  lemma {:induction false} FirstFieldErrorShown(response: Api.ApiResponse, i: nat)
    requires response.errors.Obj? && i < |response.errors.members|
    requires forall j :: 0 <= j < i ==> response.errors.members[j].value == Arr([])
    requires response.errors.members[i].value.Arr? && response.errors.members[i].value.items != []
    ensures FailureMessage(response) == response.errors.members[i].value.items[0]
  {
    var values := Values(response.errors);
    assert forall j :: 0 <= j < i ==> values[j] == Arr([]);
    FirstOfFlat(values, i);
  }

  /** What a successful login writes: the token, user and worker that the
      response's data carries (a truthy token is expected to be a string). */
  datatype Writes = Writes(token: Option<string>, user: Option<JsValue>, worker: Option<JsValue>)

  function SuccessWrites(data: JsValue): (w: Writes)
    ensures w.token.Some? <==> OptionalField(data, "token").Str? && OptionalField(data, "token").s != ""
    ensures w.token.Some? ==> OptionalField(data, "token") == Str(w.token.value)
    ensures w.user.Some? <==> Truthy(OptionalField(data, "user"))
    ensures w.user.Some? ==> w.user.value == OptionalField(data, "user")
    ensures w.worker.Some? <==> Truthy(OptionalField(data, "worker"))
    ensures w.worker.Some? ==> w.worker.value == OptionalField(data, "worker")
  {
    var token := OptionalField(data, "token");
    var user := OptionalField(data, "user");
    var worker := OptionalField(data, "worker");
    Writes(if token.Str? && token.s != "" then Some(token.s) else None,
           if Truthy(user) then Some(user) else None,
           if Truthy(worker) then Some(worker) else None)
  }

  /** The store after the writes, in the source's order. */
  function Stored(items: map<string, Item>, w: Writes): (r: map<string, Item>)
    ensures Read(r, TokenKey) == if w.token.Some? then Some(Text(w.token.value)) else Read(items, TokenKey)
    ensures Read(r, UserKey) == if w.user.Some? then Some(Json(w.user.value)) else Read(items, UserKey)
    ensures Read(r, WorkerKey) == if w.worker.Some? then Some(Json(w.worker.value)) else Read(items, WorkerKey)
    ensures forall k :: k !in AuthKeys ==> Read(r, k) == Read(items, k)
    ensures WellFormed(items) ==> WellFormed(r)
  {
    var withToken := if w.token.Some? then Write(items, TokenKey, Text(w.token.value)) else items;
    var withUser := if w.user.Some? then Write(withToken, UserKey, Json(w.user.value)) else withToken;
    if w.worker.Some? then Write(withUser, WorkerKey, Json(w.worker.value)) else withUser
  }

  /** A login whose data carries a token leaves the app signed in with it. */
  lemma SignedInWithReturnedToken(items: map<string, Item>, data: JsValue, token: string)
    requires WellFormed(items)
    requires OptionalField(data, "token") == Str(token) && token != ""
    ensures WellFormed(Stored(items, SuccessWrites(data)))
    ensures TokenOf(Stored(items, SuccessWrites(data))) == Some(token)
  {
  }

  /** `error !== ""`: whether the error box is on screen. */
  predicate ErrorShown(error: JsValue) {
    error != Str("")
  }

  /** The input handlers as written: `if (error) setError("")`. */
  function ClearOnEditAsWritten(error: JsValue): (r: JsValue)
    ensures Truthy(error) ==> !ErrorShown(r)
    ensures !Truthy(error) ==> r == error
  {
    if Truthy(error) then Str("") else error
  }

  /** A 422 whose `errors` object has no messages makes the shown error
      `undefined`: the box is on screen, and editing leaves it there. */
  lemma EmptyErrorListsDefeatEdit()
    ensures var body := Obj([Member("message", Str("The given data was invalid.")), Member("errors", Obj([]))]);
      var response := Api.Classify(Api.Responded(422, Api.Parsed(body))).response;
      FailureMessage(response) == Undefined &&
      ErrorShown(Undefined) && ErrorShown(ClearOnEditAsWritten(Undefined))
  {
  }

  /** The input handlers as intended: editing hides whatever error is shown. */
  function ClearOnEdit(error: JsValue): (r: JsValue)
    ensures !ErrorShown(r)
    ensures !ErrorShown(error) ==> r == error
  {
    if ErrorShown(error) then Str("") else error
  }

  /** The login screen's state and its handlers. */
  class LoginScreen {
    var email: string
    var password: string
    var loading: bool
    /** The shown error; "" when none. */
    var error: JsValue
    /** The title and message of the last alert shown, if any. */
    var alert: Option<(string, string)>
    const store: AuthStorage
    const router: Navigation.Router

    ghost predicate Valid()
      reads this, store
    {
      store.Valid()
    }

    constructor (store: AuthStorage, router: Navigation.Router)
      ensures this.store == store && this.router == router
      ensures email == "" && password == "" && !loading && error == Str("") && alert == None
    {
      this.store := store;
      this.router := router;
      email, password, loading, error, alert := "", "", false, Str(""), None;
    }

    method EditEmail(text: string)
      modifies this
      ensures email == text && error == ClearOnEdit(old(error))
      ensures password == old(password) && loading == old(loading) && alert == old(alert)
    {
      email := text;
      if ErrorShown(error) {
        error := Str("");
      }
    }

    method EditPassword(text: string)
      modifies this
      ensures password == text && error == ClearOnEdit(old(error))
      ensures email == old(email) && loading == old(loading) && alert == old(alert)
    {
      password := text;
      if ErrorShown(error) {
        error := Str("");
      }
    }

    /** handleLogin, given the push token the device yields and what the
      server does with the login call. */
    method HandleLogin(fcmToken: Option<string>, server: Api.FetchOutcome) returns (sent: Option<Api.HttpRequest>)
      requires Valid()
      modifies this, store, router
      ensures Valid()
      ensures email == old(email) && password == old(password)
      ensures sent.Some? <==> Validate(fcmToken, email, password) == Submit
      ensures Validate(fcmToken, email, password) != Submit ==>
                store.items == old(store.items) && router.path == old(router.path) && loading == old(loading)
      ensures Validate(fcmToken, email, password) == NeedsPush ==> alert == Some((AlertTitle, PushRequired)) && error == old(error)
      ensures Validate(fcmToken, email, password).Invalid? ==>
                error == Str(Validate(fcmToken, email, password).message) && alert == old(alert)
      ensures Validate(fcmToken, email, password) == Submit ==>
                var handled := Api.Classify(server);
                var afterCall := if handled.signOut then Cleared(old(store.items)) else old(store.items);
                sent.value.url == Api.BaseUrl + Api.LoginEndpoint && sent.value.verb == "POST" &&
                sent.value.body == Api.JsonBody(LoginBody(email, password)) &&
                !loading && alert == old(alert) &&
                if handled.response.success then
                  store.items == Stored(afterCall, SuccessWrites(handled.response.data)) &&
                  router.path == Navigation.TabsPath && error == old(error)
                else
                  store.items == afterCall && error == FailureMessage(handled.response) &&
                  router.path == if handled.signOut then Navigation.LoginPath else old(router.path)
    {
      match Validate(fcmToken, email, password)
      case NeedsPush =>
        alert := Some((AlertTitle, PushRequired));
        return None;
      case Invalid(message) =>
        error := Str(message);
        return None;
      case Submit =>
        loading := true;
        var request, response := Api.SendJson(store, router, Api.Post, Api.LoginEndpoint,
                                               LoginBody(email, password), server);
        sent := Some(request);
        if !response.success {
          error := FailureMessage(response);
          loading := false;
          return;
        }
        var writes := SuccessWrites(response.data);
        if writes.token.Some? {
          store.SetToken(writes.token.value);
        }
        if writes.user.Some? {
          store.SetUser(writes.user.value);
        }
        if writes.worker.Some? {
          store.SetWorker(writes.worker.value);
        }
        loading := false;
        router.Replace(Navigation.TabsPath);
    }
  }
}
