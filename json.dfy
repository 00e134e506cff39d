/**
 * JSON values as the guardrail service, the Converse API and the policy
 * export hand them to the scripts (decoded Python dicts and lists), together
 * with the few Python operations the scripts apply to them: key lookup,
 * `dict.get`, the `in` operator, iteration and truthiness.
 */
module JsonValues {
  import opened Wrappers

  /** A decoded JSON value. An object keeps its keys in insertion order. */
  datatype Json =
    | Null
    | Bool(b: bool)
    | Num(n: int)
    | Str(s: string)
    | Arr(items: seq<Json>)
    | Obj(fields: Fields)

  /** The entries of a Python dict, in insertion order. */
  type Fields = seq<(string, Json)>

  /** `d[key]` if the key is present: the value of its first entry. */
  function Lookup(fs: Fields, key: string): (r: Option<Json>)
    ensures r.None? <==> forall i :: 0 <= i < |fs| ==> fs[i].0 != key
    ensures r.Some? ==>
      exists i :: 0 <= i < |fs| && fs[i] == (key, r.value) && forall j :: 0 <= j < i ==> fs[j].0 != key
  {
    if fs == [] then None
    else if fs[0].0 == key then Some(fs[0].1)
    else
      var r := Lookup(fs[1..], key);
      assert forall i :: 1 <= i < |fs| ==> fs[i] == fs[1..][i - 1];
      r
  }

  /** `key in d` for a dict `d`. */
  predicate HasKey(fs: Fields, key: string) {
    Lookup(fs, key).Some?
  }

  /** `d[key]`, for a key that is present. */
  function Get(fs: Fields, key: string): Json
    requires HasKey(fs, key)
  {
    Lookup(fs, key).value
  }

  /** `d.get(key, default)`. */
  function GetOr(fs: Fields, key: string, default: Json): (v: Json)
    ensures HasKey(fs, key) ==> v == Get(fs, key)
    ensures !HasKey(fs, key) ==> v == default
  {
    match Lookup(fs, key)
    case Some(v) => v
    case None => default
  }

  /** Adding entries after an existing key does not change what `d[key]` reads. */
  lemma {:induction false} LookupAppend(fs: Fields, more: Fields, key: string)
    requires HasKey(fs, key)
    ensures Lookup(fs + more, key) == Lookup(fs, key)
  {
    if fs[0].0 != key {
      assert (fs + more)[1..] == fs[1..] + more;
      LookupAppend(fs[1..], more, key);
    }
  }

  /** Python's `bool(v)`: null, false, 0, "", [] and {} are false. */
  predicate Truthy(v: Json) {
    match v
    case Null => false
    case Bool(b) => b
    case Num(n) => n != 0
    case Str(s) => s != ""
    case Arr(xs) => xs != []
    case Obj(fs) => fs != []
  }

  /** Python's `bool(s)` for an `Optional[str]`: neither None nor "". */
  predicate Given(s: Option<string>) {
    s.Some? && s.value != ""
  }

  /** Python's `needle in haystack` for two strings. */
  predicate IsSubstring(needle: string, haystack: string)
    decreases |haystack|
  {
    needle <= haystack || (haystack != [] && IsSubstring(needle, haystack[1..]))
  }

  /**
   * Python's `key in v` for a string `key`: a key test on a dict, a substring
   * test on a string, a membership test on a list; anything else raises
   * TypeError (None).
   */
  function Contains(v: Json, key: string): (r: Option<bool>)
    ensures r.Some? <==> v.Obj? || v.Str? || v.Arr?
    ensures v.Obj? ==> r == Some(HasKey(v.fields, key))
  {
    match v
    case Obj(fs) => Some(HasKey(fs, key))
    case Str(s) => Some(IsSubstring(key, s))
    case Arr(xs) => Some(Str(key) in xs)
    case _ => None
  }

  /**
   * What `for x in v` visits: the items of a list, the one-character strings
   * of a string, the keys of a dict; anything else raises TypeError (None).
   */
  function Elements(v: Json): (r: Option<seq<Json>>)
    ensures r.Some? <==> v.Arr? || v.Str? || v.Obj?
    ensures v.Arr? ==> r == Some(v.items)
    ensures r.Some? ==> |r.value| == match v case Str(s) => |s| case Obj(fs) => |fs| case _ => |v.items|
  {
    match v
    case Arr(xs) => Some(xs)
    case Str(s) => Some(seq(|s|, i requires 0 <= i < |s| => Str([s[i]])))
    case Obj(fs) => Some(seq(|fs|, i requires 0 <= i < |fs| => Str(fs[i].0)))
    case _ => None
  }
}
