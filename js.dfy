/**
 * The JavaScript values the app reads from parsed JSON and passes around,
 * with the few operators whose semantics the core relies on: truthiness,
 * `a || b`, `a ?? b`, property reads, `Object.values` and `Array.prototype.flat`.
 */
module Js {
  import opened Wrappers

  /** A JavaScript value. Numbers are integers here (fractions and NaN are not
      modelled). An object lists its own members in property order, which is
      the order `Object.values` reports them in; keys are distinct, as
      `JSON.parse` produces them. */
  datatype JsValue =
    | Undefined
    | Null
    | Bool(b: bool)
    | Num(n: int)
    | Str(s: string)
    | Arr(items: seq<JsValue>)
    | Obj(members: seq<Member>)

  datatype Member = Member(key: string, value: JsValue)

  /** ToBoolean: the test an `if (v)` or `!v` performs. */
  predicate Truthy(v: JsValue) {
    match v
    case Undefined | Null => false
    case Bool(b) => b
    case Num(n) => n != 0
    case Str(s) => s != ""
    case Arr(_) | Obj(_) => true
  }

  /** `null` or `undefined`: the values `??` and `?.` treat as absent. */
  predicate Nullish(v: JsValue) {
    v.Undefined? || v.Null?
  }

  /** Truthiness of a `string | null`, such as a token read from storage. */
  predicate TruthyText(t: Option<string>) {
    t.Some? && t.value != ""
  }

  /** `a || b` */
  function Or(a: JsValue, b: JsValue): (r: JsValue)
    ensures r == a || r == b
    ensures Truthy(r) <==> Truthy(a) || Truthy(b)
    ensures Truthy(a) ==> r == a
  {
    if Truthy(a) then a else b
  }

  /** `a ?? b` */
  function Coalesce(a: JsValue, b: JsValue): (r: JsValue)
    ensures r == a || r == b
    ensures Nullish(r) <==> Nullish(a) && Nullish(b)
    ensures !Nullish(a) ==> r == a
  {
    if Nullish(a) then b else a
  }

  /** The value of the first member named `key`, or `undefined`. */
  function Lookup(members: seq<Member>, key: string): (r: JsValue)
    ensures r != Undefined ==> Member(key, r) in members
    ensures (forall m :: m in members ==> m.key != key) ==> r == Undefined
  {
    if members == [] then Undefined
    else if members[0].key == key then members[0].value
    else Lookup(members[1..], key)
  }

  /** The property read `v.key` on a value that is not `null`/`undefined`
      (on those it throws a TypeError; callers branch on `Nullish` first).
      Only an object's own members are modelled: a built-in property such
      as a string's `length` reads as `undefined`. */
  function Field(v: JsValue, key: string): (r: JsValue)
    requires !Nullish(v)
    ensures r != Undefined ==> v.Obj? && Member(key, r) in v.members
  {
    if v.Obj? then Lookup(v.members, key) else Undefined
  }

  /** The optional read `v?.key`. */
  function OptionalField(v: JsValue, key: string): (r: JsValue)
    ensures Nullish(v) ==> r == Undefined
    ensures r != Undefined ==> v.Obj? && Member(key, r) in v.members
  {
    if Nullish(v) then Undefined else Field(v, key)
  }

  /** `Object.values(v)`, which throws on `null`/`undefined`. */
  function Values(v: JsValue): (r: seq<JsValue>)
    requires !Nullish(v)
    ensures v.Obj? ==> |r| == |v.members| && forall i :: 0 <= i < |r| ==> r[i] == v.members[i].value
    ensures v.Arr? ==> r == v.items
    ensures v.Str? ==> |r| == |v.s| && forall i :: 0 <= i < |r| ==> r[i] == Str([v.s[i]])
    ensures v.Bool? || v.Num? ==> r == []
  {
    match v
    case Obj(ms) => MemberValues(ms)
    case Arr(items) => items
    case Str(s) => Characters(s)
    case _ => []
  }

  function MemberValues(ms: seq<Member>): (r: seq<JsValue>)
    ensures |r| == |ms| && forall i :: 0 <= i < |r| ==> r[i] == ms[i].value
  {
    if ms == [] then [] else [ms[0].value] + MemberValues(ms[1..])
  }

  /** A string's one-character strings, as `Object.values` lists them. */
  function Characters(s: string): (r: seq<JsValue>)
    ensures |r| == |s| && forall i :: 0 <= i < |r| ==> r[i] == Str([s[i]])
  {
    if s == "" then [] else [Str([s[0]])] + Characters(s[1..])
  }

  /** `vs.flat()`: splices the items of every array element one level deep
      and keeps every other element as it is. */
  function Flat(vs: seq<JsValue>): (r: seq<JsValue>)
    ensures |r| == 0 <==> forall i :: 0 <= i < |vs| ==> vs[i] == Arr([])
  {
    if vs == [] then []
    else (if vs[0].Arr? then vs[0].items else [vs[0]]) + Flat(vs[1..])
  }

  /** `vs[0]`, which is `undefined` on an empty array. */
  function First(vs: seq<JsValue>): (r: JsValue)
    ensures vs != [] ==> r == vs[0]
    ensures vs == [] ==> r == Undefined
  {
    if vs == [] then Undefined else vs[0]
  }

  /** The first element of `vs.flat()` is the first item of the first
      element that is not an empty array (that element itself when it is not
      an array). */
  lemma {:induction false} FirstOfFlat(vs: seq<JsValue>, i: nat)
    requires i < |vs|
    requires forall j :: 0 <= j < i ==> vs[j] == Arr([])
    requires vs[i] != Arr([])
    ensures First(Flat(vs)) == if vs[i].Arr? then vs[i].items[0] else vs[i]
  {
    if i == 0 {
      if vs[0].Arr? {
        assert vs[0].items != [];
      }
    } else {
      assert vs[0] == Arr([]);
      assert Flat(vs) == Flat(vs[1..]);
      FirstOfFlat(vs[1..], i - 1);
    }
  }
}
