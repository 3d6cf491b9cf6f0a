/** The parsed response tree and the few token operations the client uses:
    key lookup (`token?[key]`), child enumeration (`Children()`) and the
    string form (`ToString()`). A C# null token is `None`; a JSON `null`
    literal is the token `Some(Null)`, which is not the same thing. */
module JsonValue {
  import opened Wrappers
  import Numerals

  datatype Json =
    | Null
    | Bool(b: bool)
    | Num(n: int)
    | Str(s: string)
    | Arr(items: seq<Json>)
    | Obj(props: seq<(string, Json)>)

  /** A child as `Children()` yields it: array elements are values, object
      members are properties (name and value). */
  datatype Child = Elem(value: Json) | Prop(name: string, value: Json)

  /** The children of a token, in document order; a scalar has none. */
  function Children(j: Json): (cs: seq<Child>)
    ensures j.Arr? ==> |cs| == |j.items| && forall i :: 0 <= i < |cs| ==> cs[i] == Elem(j.items[i])
    ensures j.Obj? ==> |cs| == |j.props| && forall i :: 0 <= i < |cs| ==> cs[i] == Prop(j.props[i].0, j.props[i].1)
    ensures !j.Arr? && !j.Obj? ==> cs == []
  {
    match j
    case Arr(items) => seq(|items|, i requires 0 <= i < |items| => Elem(items[i]))
    case Obj(props) => seq(|props|, i requires 0 <= i < |props| => Prop(props[i].0, props[i].1))
    case _ => []
  }

  /** Parsed objects never repeat a member name. */
  predicate DistinctKeys(props: seq<(string, Json)>) {
    forall i, j :: 0 <= i < j < |props| ==> props[i].0 != props[j].0
  }

  /** The value stored under `key`, or null when the object has no such member. */
  function Lookup(props: seq<(string, Json)>, key: string): (r: Option<Json>)
    ensures r.None? <==> forall i :: 0 <= i < |props| ==> props[i].0 != key
    ensures r.Some? ==> exists i :: 0 <= i < |props| && props[i] == (key, r.value)
    decreases |props|
  {
    if props == [] then None
    else if props[0].0 == key then Some(props[0].1)
    else
      var r := Lookup(props[1..], key);
      assert forall i :: 1 <= i < |props| ==> props[i] == props[1..][i - 1];
      r
  }

  /** `token?[key]`: a null token stays null, an object yields its member (or
      null), and any other token throws. */
  function Index(t: Option<Json>, key: string): (r: Outcome<Option<Json>>)
    ensures r.Failure? <==> t.Some? && !t.value.Obj?
    ensures r.Failure? ==> r.error == InvalidKeyAccess
    ensures r.Success? ==> r.value == Member(t, key)
  {
    match t
    case None => Success(None)
    case Some(Obj(props)) => Success(Lookup(props, key))
    case Some(_) => Failure(InvalidKeyAccess)
  }

  /** A token that can be indexed by key without throwing: null or an object. */
  predicate Indexable(t: Option<Json>) { t.None? || t.value.Obj? }

  /** The member `key` of `t` when `t` is an object, otherwise null; used to
      state what a successful chain of `Index` calls read. */
  function Member(t: Option<Json>, key: string): Option<Json> {
    if t.Some? && t.value.Obj? then Lookup(t.value.props, key) else None
  }

  /** `JToken.ToString()`: a string token gives its raw text, a JSON null the
      empty string, a boolean "True"/"False", containers their JSON text. */
  function Text(j: Json): string {
    match j
    case Null => ""
    case Bool(b) => if b then "True" else "False"
    case Num(n) => Numerals.IntToString(n)
    case Str(s) => s
    case Arr(_) => Serialize(j)
    case Obj(_) => Serialize(j)
  }

  /** `token?.ToString()`. */
  function TextOf(t: Option<Json>): Option<string> {
    match t
    case None => None
    case Some(j) => Some(Text(j))
  }

  /** JSON text of a string: quoted, with quote and backslash escaped. */
  function Quote(s: string): string {
    "\"" + Escape(s) + "\""
  }

  function Escape(s: string): string
    decreases |s|
  {
    if s == [] then []
    else (if s[0] == '"' || s[0] == '\\' then ['\\', s[0]] else [s[0]]) + Escape(s[1..])
  }

  /** Comma-separated concatenation. */
  function Join(parts: seq<string>): string
    decreases |parts|
  {
    if parts == [] then "" else if |parts| == 1 then parts[0] else parts[0] + ", " + Join(parts[1..])
  }

  /** JSON text of a token. */
  function Serialize(j: Json): (s: string)
    ensures |s| > 0
    ensures j.Arr? ==> s[0] == '['
    ensures j.Obj? ==> s[0] == '{'
    decreases j, 0
  {
    match j
    case Null => "null"
    case Bool(b) => if b then "true" else "false"
    case Num(n) => Numerals.IntToString(n)
    case Str(s) => Quote(s)
    case Arr(items) =>
      "[" + Join(seq(|items|, i requires 0 <= i < |items| => Serialize(items[i]))) + "]"
    case Obj(props) =>
      "{" + Join(seq(|props|, i requires 0 <= i < |props| => PropertyText(props[i].0, props[i].1))) + "}"
  }

  /** `JProperty.ToString()`: the member written as `"name": value`. */
  function PropertyText(name: string, value: Json): string
    decreases value, 1
  {
    Quote(name) + ": " + Serialize(value)
  }

  /** The string form is empty exactly for a JSON null and the empty string. */
  lemma TextIsEmpty(j: Json)
    ensures Text(j) == "" <==> j == Null || j == Str("")
  {
  }

  /** The string form is "1" exactly for the string "1" and the number 1. */
  lemma {:induction false} TextIsOne(j: Json)
    ensures Text(j) == "1" <==> j == Str("1") || j == Num(1)
  {
    if j.Num? && Text(j) == "1" {
      assert j.n >= 0;
    }
  }
}
