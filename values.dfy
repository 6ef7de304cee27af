/**
 * Values the Python code handles: optional values, the outcome of an
 * expression that may raise, and the JSON values `json.loads` produces,
 * together with the Python operators the core applies to them
 * (`in`, `[...]`, `len`, iteration and truthiness).
 */
module PyValues {

  datatype Option<+T> = None | Some(value: T)

  /** The outcome of evaluating Python code: a value, or an exception.
      The core never distinguishes exception classes (every handler is a
      bare `except`), so one failure case suffices. */
  datatype Outcome<+T> = Ok(value: T) | Raise {
    predicate IsFailure() { Raise? }
    function PropagateFailure<U>(): Outcome<U> requires Raise? { Raise }
    function Extract(): T requires Ok? { value }
  }

  /** A value decoded from JSON text. Numbers are integers (see README). */
  datatype Json =
    | JNull
    | JBool(b: bool)
    | JNum(n: int)
    | JStr(s: string)
    | JList(items: seq<Json>)
    | JObject(fields: map<string, Json>)

  /** `needle` occurs in `hay` as a contiguous substring. */
  predicate Infix(needle: string, hay: string)
    decreases |hay|
  {
    (|needle| <= |hay| && hay[..|needle|] == needle)
    || (|hay| > 0 && Infix(needle, hay[1..]))
  }

  lemma {:induction false} InfixTail(needle: string, hay: string, k: nat)
    requires k <= |hay| && Infix(needle, hay[k..])
    ensures Infix(needle, hay)
    decreases k
  {
    if k > 0 {
      assert hay[1..][k - 1..] == hay[k..];
      InfixTail(needle, hay[1..], k - 1);
    }
  }

  lemma {:induction false} InfixAt(needle: string, hay: string, k: nat)
    requires k + |needle| <= |hay| && hay[k..k + |needle|] == needle
    ensures Infix(needle, hay)
  {
    assert hay[k..][..|needle|] == needle;
    InfixTail(needle, hay, k);
  }

  /** A needle with a character the haystack lacks does not occur in it. */
  lemma {:induction false} NotInfix(needle: string, hay: string, c: char)
    requires c in needle && c !in hay
    ensures !Infix(needle, hay)
    decreases |hay|
  {
    if |hay| > 0 {
      NotInfix(needle, hay[1..], c);
    }
  }

  /** Python's `key in v` for a string `key`: membership of a key in a
      dict, of an equal string in a list, substring test on a string;
      a `TypeError` for numbers, booleans and `None`. */
  function Contains(key: string, v: Json): (r: Outcome<bool>)
    ensures v.JObject? ==> r == Ok(key in v.fields)
    ensures (v.JNull? || v.JBool? || v.JNum?) <==> r.Raise?
  {
    match v
    case JObject(f) => Ok(key in f)
    case JList(items) => Ok(JStr(key) in items)
    case JStr(s) => Ok(Infix(key, s))
    case _ => Raise
  }

  /** Python's `k1 in v and k2 in v and ...`, evaluated left to right
      with short-circuit. */
  function ContainsAll(keys: seq<string>, v: Json): (r: Outcome<bool>)
    ensures v.JObject? ==> r == Ok(forall k :: k in keys ==> k in v.fields)
    ensures keys != [] ==> (r.Raise? <==> (v.JNull? || v.JBool? || v.JNum?))
  {
    if keys == [] then Ok(true)
    else
      match Contains(keys[0], v)
      case Raise => Raise
      case Ok(false) => Ok(false)
      case Ok(true) => ContainsAll(keys[1..], v)
  }

  /** Python's `v[key]` for a string `key`: only a dict holding the key
      answers; everything else raises (`KeyError` or `TypeError`). */
  function Index(v: Json, key: string): (r: Outcome<Json>)
    ensures r.Ok? <==> v.JObject? && key in v.fields
    ensures r.Ok? ==> r.value == v.fields[key]
  {
    if v.JObject? && key in v.fields then Ok(v.fields[key]) else Raise
  }

  /** Python's `len(v)`. */
  function Len(v: Json): (r: Outcome<nat>)
    ensures r.Raise? <==> (v.JNull? || v.JBool? || v.JNum?)
  {
    match v
    case JStr(s) => Ok(|s|)
    case JList(items) => Ok(|items|)
    case JObject(f) => Ok(|f|)
    case _ => Raise
  }

  /** Python truthiness (`if not v`). */
  predicate Truthy(v: Json) {
    match v
    case JNull => false
    case JBool(b) => b
    case JNum(n) => n != 0
    case JStr(s) => s != ""
    case JList(items) => items != []
    case JObject(f) => f != map[]
  }

  /** The one-character strings of `s`, as iterating a Python string gives them. */
  function Chars(s: string): (r: seq<Json>)
    ensures |r| == |s|
    ensures forall i :: 0 <= i < |s| ==> r[i] == JStr([s[i]])
  {
    if s == [] then [] else [JStr([s[0]])] + Chars(s[1..])
  }

  /** The strings of `keys`, as iterating a Python dict gives its keys. */
  function KeyStrings(keys: seq<string>): (r: seq<Json>)
    ensures |r| == |keys|
    ensures forall i :: 0 <= i < |keys| ==> r[i] == JStr(keys[i])
  {
    if keys == [] then [] else [JStr(keys[0])] + KeyStrings(keys[1..])
  }

  /** Python's `for d in v`: the items of a list, the keys of a dict (in
      the order `keyOrder` gives for it), the characters of a string;
      a `TypeError` otherwise. */
  function Iterate(v: Json, keyOrder: map<string, Json> -> seq<string>): (r: Outcome<seq<Json>>)
    ensures r.Raise? <==> (v.JNull? || v.JBool? || v.JNum?)
    ensures v.JList? ==> r == Ok(v.items)
    ensures r.Ok? && !v.JList? ==> forall d :: d in r.value ==> d.JStr?
  {
    match v
    case JList(items) => Ok(items)
    case JObject(f) => Ok(KeyStrings(keyOrder(f)))
    case JStr(s) => Ok(Chars(s))
    case _ => Raise
  }

  /** The strings of a list whose items are all strings. */
  function StringItems(items: seq<Json>): (r: seq<string>)
    requires forall j :: j in items ==> j.JStr?
    ensures |r| == |items|
    ensures forall i :: 0 <= i < |items| ==> items[i] == JStr(r[i])
  {
    if items == [] then [] else [items[0].s] + StringItems(items[1..])
  }
}
