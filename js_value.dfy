/** JavaScript values as the components see them: the JSON payloads the backend
    returns, JavaScript truthiness, property reads (plain `.` that throws on
    null and undefined, and optional chaining `?.`), and the `||` fallback
    chains the components use to pick a message. */
module JsValue {

  /** A JSON value, plus `undefined`. Numbers are integers: the components only
      test counts and never compute with fractions. */
  datatype Json =
    | JUndefined
    | JNull
    | JBool(b: bool)
    | JNum(n: int)
    | JStr(s: string)
    | JArr(items: seq<Json>)
    | JObj(fields: map<string, Json>)

  datatype Result<T> = Ok(value: T) | Err(error: string)

  datatype Option<T> = None | Some(value: T)

  predicate Nullish(v: Json) {
    v.JUndefined? || v.JNull?
  }

  /** JavaScript truthiness: undefined, null, false, 0 and "" are falsy;
      every array and every object, empty or not, is truthy. */
  predicate Truthy(v: Json)
    ensures !Truthy(v) <==> v in {JUndefined, JNull, JBool(false), JNum(0), JStr("")}
  {
    match v
    case JUndefined => false
    case JNull => false
    case JBool(b) => b
    case JNum(n) => n != 0
    case JStr(s) => s != ""
    case JArr(_) => true
    case JObj(_) => true
  }

  /** `v.k` on a value that is not null or undefined. Only an object's own
      properties are modelled; every other value has none of the keys the
      components read. */
  function Prop(v: Json, k: string): (r: Json)
    requires !Nullish(v)
    ensures v.JObj? && k in v.fields ==> r == v.fields[k]
    ensures !(v.JObj? && k in v.fields) ==> r == JUndefined
  {
    if v.JObj? && k in v.fields then v.fields[k] else JUndefined
  }

  /** `v?.k`: undefined instead of an exception when `v` is null or undefined. */
  function OptProp(v: Json, k: string): (r: Json)
    ensures Nullish(v) ==> r == JUndefined
    ensures !Nullish(v) ==> r == Prop(v, k)
    ensures Truthy(r) ==> v.JObj? && k in v.fields && r == v.fields[k]
  {
    if Nullish(v) then JUndefined else Prop(v, k)
  }

  /** The message of the TypeError that `v.k` throws when `v` is null or
      undefined, in the wording of the V8 engine. */
  function ReadErrorText(v: Json, k: string): string
    requires Nullish(v)
  {
    "Cannot read properties of " + (if v.JNull? then "null" else "undefined") + " (reading '" + k + "')"
  }

  /** `v.k` as an expression that may throw. */
  function Read(v: Json, k: string): (r: Result<Json>)
    ensures r.Err? <==> Nullish(v)
    ensures r.Ok? ==> r.value == Prop(v, k)
  {
    if Nullish(v) then Err(ReadErrorText(v, k)) else Ok(Prop(v, k))
  }

  /** `a || b`. */
  function Or(a: Json, b: Json): (r: Json)
    ensures Truthy(r) <==> Truthy(a) || Truthy(b)
    ensures r == a || r == b
    ensures Truthy(a) ==> r == a
    ensures !Truthy(a) ==> r == b
  {
    if Truthy(a) then a else b
  }

  /** `Object.keys(v).length` for a value that is not null or undefined:
      an array's indices, a string's characters, an object's own keys, and
      none for numbers and booleans. Only whether it is zero is modelled
      exactly: `Object.keys` counts a string's UTF-16 code units, where
      `|v.s|` counts characters. */
  function KeyCount(v: Json): (n: nat)
    requires !Nullish(v)
    ensures n == 0 <==> !(v.JStr? && v.s != "") && !(v.JArr? && v.items != []) && !(v.JObj? && v.fields != map[])
  {
    if v.JStr? then |v.s|
    else if v.JArr? then |v.items|
    else if v.JObj? then |v.fields|
    else 0
  }

  /** The text of a message-like property: the string itself, or "" when the
      property is absent or not a string. */
  function TextOf(v: Json): string {
    if v.JStr? then v.s else ""
  }

  /** `c0 || c1 || ... || fallback` over strings: the first non-empty
      candidate, or the fallback when every candidate is empty. */
  function FirstNonEmpty(candidates: seq<string>, fallback: string): (r: string)
    ensures (r == fallback && forall i :: 0 <= i < |candidates| ==> candidates[i] == "")
         || (exists i :: 0 <= i < |candidates| && r == candidates[i] != ""
                         && forall j :: 0 <= j < i ==> candidates[j] == "")
  {
    if candidates == [] then fallback
    else if candidates[0] != "" then candidates[0]
    else
      var r := FirstNonEmpty(candidates[1..], fallback);
      assert forall i :: 1 <= i < |candidates| ==> candidates[i] == candidates[1..][i - 1];
      r
  }

  /** The first non-empty candidate wins; earlier candidates take precedence. */
  lemma {:induction false} FirstNonEmptyPicks(candidates: seq<string>, fallback: string, i: nat)
    requires i < |candidates| && candidates[i] != ""
    requires forall j :: 0 <= j < i ==> candidates[j] == ""
    ensures FirstNonEmpty(candidates, fallback) == candidates[i]
  {
    if i > 0 {
      FirstNonEmptyPicks(candidates[1..], fallback, i - 1);
    }
  }

  /** With every candidate empty, the fallback is used. */
  lemma {:induction false} FirstNonEmptyFallback(candidates: seq<string>, fallback: string)
    requires forall j :: 0 <= j < |candidates| ==> candidates[j] == ""
    ensures FirstNonEmpty(candidates, fallback) == fallback
  {
    if candidates != [] {
      FirstNonEmptyFallback(candidates[1..], fallback);
    }
  }

  /** The precedence of a `||` chain in one statement: each candidate wins
      exactly when every earlier one is empty and it is not. */
  lemma FirstNonEmptyPrecedence(candidates: seq<string>, fallback: string)
    ensures forall i :: 0 <= i < |candidates| && candidates[i] != ""
                        && (forall j :: 0 <= j < i ==> candidates[j] == "") ==>
              FirstNonEmpty(candidates, fallback) == candidates[i]
    ensures (forall j :: 0 <= j < |candidates| ==> candidates[j] == "") ==>
              FirstNonEmpty(candidates, fallback) == fallback
  {
    forall i | 0 <= i < |candidates| && candidates[i] != ""
               && (forall j :: 0 <= j < i ==> candidates[j] == "")
      ensures FirstNonEmpty(candidates, fallback) == candidates[i]
    {
      FirstNonEmptyPicks(candidates, fallback, i);
    }
    if forall j :: 0 <= j < |candidates| ==> candidates[j] == "" {
      FirstNonEmptyFallback(candidates, fallback);
    }
  }
}
