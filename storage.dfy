/**
 * The app's persistent key-value store (AsyncStorage) as wrapped by the
 * `storage` object: typed accessors for the auth token, user and worker,
 * generic string get/set, and a `clear` that signs out.
 */
module Storage {
  import opened Wrappers
  import opened Js

  const TokenKey: string := "auth_token"
  const UserKey: string := "auth_user"
  const WorkerKey: string := "auth_worker"

  /** The keys `clear` removes. */
  const AuthKeys: set<string> := {TokenKey, UserKey, WorkerKey}

  /** A stored string. `Json(v)` stands for the text `JSON.stringify(v)` that
      setUser/setWorker write: serialising and parsing are not modelled, and
      `JSON.parse` gives `v` back. A `Text` is any other string. */
  datatype Item = Text(text: string) | Json(value: JsValue)

  /** JSON text is written only under the user and worker keys. */
  predicate WellFormed(items: map<string, Item>) {
    forall k :: k in items && items[k].Json? ==> k == UserKey || k == WorkerKey
  }

  /** `AsyncStorage.getItem(key)`. */
  function Read(items: map<string, Item>, key: string): (r: Option<Item>)
    ensures r.Some? <==> key in items
    ensures r.Some? ==> items[key] == r.value
  {
    if key in items then Some(items[key]) else None
  }

  /** `AsyncStorage.setItem(key, value)`: only `key` changes. */
  function Write(items: map<string, Item>, key: string, value: Item): (r: map<string, Item>)
    ensures Read(r, key) == Some(value)
    ensures forall k :: k != key ==> Read(r, k) == Read(items, k)
    ensures r.Keys == items.Keys + {key}
  {
    items[key := value]
  }

  /** `AsyncStorage.multiRemove([TokenKey, UserKey, WorkerKey])`. */
  function Cleared(items: map<string, Item>): (r: map<string, Item>)
    ensures forall k :: k in AuthKeys ==> Read(r, k) == None
    ensures forall k :: k !in AuthKeys ==> Read(r, k) == Read(items, k)
    ensures r.Keys == items.Keys - AuthKeys
  {
    items - AuthKeys
  }

  /** What getToken resolves to: the stored token, or null. */
  function TokenOf(items: map<string, Item>): (r: Option<string>)
    requires WellFormed(items)
    ensures r.Some? <==> TokenKey in items
    ensures r.Some? ==> Read(items, TokenKey) == Some(Text(r.value))
  {
    if TokenKey in items then Some(items[TokenKey].text) else None
  }

  /** What getUser/getWorker resolve to for the string read under their key. */
  datatype Decoded =
    | Missing              // `data` is null or "": the accessor resolves to null
    | Parsed(value: JsValue) // JSON written by setUser/setWorker, parsed back
    | Unparsed(text: string) // a non-empty text written with the generic `set`

  /** `data ? JSON.parse(data) : null` */
  function Decode(data: Option<Item>): (r: Decoded)
    ensures r.Missing? <==> data.None? || data.value == Text("")
    ensures data.Some? && data.value.Json? ==> r == Parsed(data.value.value)
  {
    match data
    case None => Missing
    case Some(Json(v)) => Parsed(v)
    case Some(Text(s)) => if s == "" then Missing else Unparsed(s)
  }

  /** The persistent map and the accessors over it. */
  class AuthStorage {
    var items: map<string, Item>

    ghost predicate Valid()
      reads this
    {
      WellFormed(items)
    }

    constructor (items: map<string, Item>)
      requires WellFormed(items)
      ensures Valid() && this.items == items
    {
      this.items := items;
    }

    method SetToken(token: string)
      requires Valid()
      modifies this
      ensures Valid()
      ensures items == Write(old(items), TokenKey, Text(token))
    {
      items := items[TokenKey := Text(token)];
    }

    method GetToken() returns (token: Option<string>)
      requires Valid()
      ensures token == TokenOf(items)
    {
      var data := Read(items, TokenKey);
      token := if data.Some? then Some(data.value.text) else None;
    }

    method SetUser(user: JsValue)
      requires Valid()
      modifies this
      ensures Valid()
      ensures items == Write(old(items), UserKey, Json(user))
    {
      items := items[UserKey := Json(user)];
    }

    method GetUser() returns (user: Decoded)
      ensures user == Decode(Read(items, UserKey))
    {
      user := Decode(Read(items, UserKey));
    }

    method SetWorker(worker: JsValue)
      requires Valid()
      modifies this
      ensures Valid()
      ensures items == Write(old(items), WorkerKey, Json(worker))
    {
      items := items[WorkerKey := Json(worker)];
    }

    method GetWorker() returns (worker: Decoded)
      ensures worker == Decode(Read(items, WorkerKey))
    {
      worker := Decode(Read(items, WorkerKey));
    }

    method Get(key: string) returns (value: Option<Item>)
      ensures value == Read(items, key)
    {
      value := Read(items, key);
    }

    method Set(key: string, value: string)
      requires Valid()
      modifies this
      ensures Valid()
      ensures items == Write(old(items), key, Text(value))
    {
      items := items[key := Text(value)];
    }

    method Clear()
      requires Valid()
      modifies this
      ensures Valid()
      ensures items == Cleared(old(items))
    {
      items := items - AuthKeys;
    }
  }

  /** getToken after setToken(t) resolves to t. */
  lemma TokenRoundTrip(items: map<string, Item>, token: string)
    requires WellFormed(items)
    ensures WellFormed(Write(items, TokenKey, Text(token)))
    ensures TokenOf(Write(items, TokenKey, Text(token))) == Some(token)
  {
  }

  /** getUser after setUser(u) resolves to u, and getWorker after
      setWorker(w) to w; neither write disturbs the other slot. */
  lemma ProfileRoundTrip(items: map<string, Item>, user: JsValue, worker: JsValue)
    ensures Decode(Read(Write(items, UserKey, Json(user)), UserKey)) == Parsed(user)
    ensures Decode(Read(Write(items, WorkerKey, Json(worker)), WorkerKey)) == Parsed(worker)
    ensures Read(Write(items, UserKey, Json(user)), WorkerKey) == Read(items, WorkerKey)
    ensures Read(Write(items, WorkerKey, Json(worker)), UserKey) == Read(items, UserKey)
  {
  }

  /** The generic accessor and the token accessor read the same slot. */
  lemma GenericGetSeesToken(items: map<string, Item>)
    requires WellFormed(items)
    ensures Read(items, TokenKey) == (if TokenOf(items).Some? then Some(Text(TokenOf(items).value)) else None)
  {
  }

  /** After clear, getToken, getUser and getWorker all resolve to null, and
      every other key (the onboarding flag, say) keeps its value. */
  lemma SignedOutAfterClear(items: map<string, Item>, other: string)
    requires WellFormed(items)
    requires other !in AuthKeys
    ensures WellFormed(Cleared(items))
    ensures TokenOf(Cleared(items)) == None
    ensures Decode(Read(Cleared(items), UserKey)) == Missing
    ensures Decode(Read(Cleared(items), WorkerKey)) == Missing
    ensures Read(Cleared(items), other) == Read(items, other)
  {
  }
}
