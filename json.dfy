/** Dynamic JSON-like values as the node sees them (IDataObject and its fields),
    with the few JavaScript semantics the core relies on: truthiness, property
    reads, and a handful of string helpers. */
module JsonValues {

  datatype Option<T> = None | Some(value: T)

  /** The outcome of a step that may throw: `Err` carries the error's message. */
  datatype Result<T> = Ok(value: T) | Err(msg: string)

  /** A JavaScript value reachable from a parsed JSON document or a node
      parameter. `Undefined` stands for a missing key as well. Numbers are
      real numbers (JSON has no NaN or infinities). */
  datatype Json =
    | Undefined
    | Null
    | Bool(b: bool)
    | Num(n: real)
    | Str(s: string)
    | Arr(items: seq<Json>)
    | Obj(fields: map<string, Json>)

  /** JavaScript truthiness: `undefined`, `null`, `false`, `0` and `""` are falsy. */
  predicate Truthy(v: Json) {
    match v
    case Undefined => false
    case Null => false
    case Bool(b) => b
    case Num(n) => n != 0.0
    case Str(s) => s != ""
    case Arr(_) => true
    case Obj(_) => true
  }

  predicate Nullish(v: Json) {
    v.Undefined? || v.Null?
  }

  /** `o[k]` on an object: a missing key reads as `undefined`. */
  function Get(m: map<string, Json>, k: string): (r: Json)
    ensures k !in m ==> r == Undefined
  {
    if k in m then m[k] else Undefined
  }

  /** `v.k` on a value that is not null or undefined: only objects carry the
      keys read by this code, so every other value yields `undefined`. */
  function Prop(v: Json, k: string): (r: Json)
    ensures !v.Obj? ==> r == Undefined
  {
    if v.Obj? then Get(v.fields, k) else Undefined
  }

  /** The message V8 gives the TypeError thrown when reading `key` of null or undefined. */
  function NullReadMessage(v: Json, key: string): string
    requires Nullish(v)
  {
    "Cannot read properties of " + (if v.Null? then "null" else "undefined") + " (reading '" + key + "')"
  }

  /** ASCII `toLowerCase` for one character. */
  function LowerChar(c: char): (r: char)
    ensures 'A' <= c <= 'Z' ==> r as int == c as int + 32
    ensures !('A' <= c <= 'Z') ==> r == c
  {
    if 'A' <= c <= 'Z' then (c as int + 32) as char else c
  }

  /** ASCII `toUpperCase` for one character. */
  function UpperChar(c: char): (r: char)
    ensures 'a' <= c <= 'z' ==> r as int == c as int - 32
    ensures !('a' <= c <= 'z') ==> r == c
  {
    if 'a' <= c <= 'z' then (c as int - 32) as char else c
  }

  /** `s.toLowerCase()` restricted to ASCII letters. */
  function Lower(s: string): (r: string)
    ensures |r| == |s|
    ensures forall i :: 0 <= i < |s| ==> r[i] == LowerChar(s[i])
  {
    if s == [] then [] else [LowerChar(s[0])] + Lower(s[1..])
  }

  /** `s.split(sep).pop()`: the text after the last `sep`, or all of `s`
      when `sep` does not occur. */
  function AfterLast(s: string, sep: char): (r: string)
    ensures sep !in r
    ensures |r| <= |s| && r == s[|s| - |r|..]
    ensures |r| < |s| ==> s[|s| - |r| - 1] == sep
    decreases |s|
  {
    if s == [] then []
    else if s[|s| - 1] == sep then []
    else
      var r := AfterLast(s[..|s| - 1], sep);
      DropLastSuffix(s, |r|);
      r + [s[|s| - 1]]
  }

  lemma AfterLastAbsent(s: string, sep: char)
    requires sep !in s
    ensures AfterLast(s, sep) == s
  {
  }

  lemma BeforeFirstAbsent(s: string, sep: char)
    requires sep !in s
    ensures BeforeFirst(s, sep) == s
  {
  }

  lemma DropLastSuffix<T>(s: seq<T>, k: nat)
    requires k < |s|
    ensures s[..|s| - 1][|s| - 1 - k..] + [s[|s| - 1]] == s[|s| - 1 - k..]
    ensures k < |s| - 1 ==> s[..|s| - 1][|s| - 2 - k] == s[|s| - 2 - k]
  {
  }

  /** `s.split(sep)[0]`: the text before the first `sep`, or all of `s`. */
  function BeforeFirst(s: string, sep: char): (r: string)
    ensures sep !in r
    ensures |r| <= |s| && r == s[..|r|]
    ensures |r| < |s| ==> s[|r|] == sep
  {
    if s == [] || s[0] == sep then [] else [s[0]] + BeforeFirst(s[1..], sep)
  }

  /** `list.join(sep)`. */
  function Join(list: seq<string>, sep: string): (r: string)
    ensures list != [] ==> |r| >= |list[0]|
  {
    if list == [] then ""
    else if |list| == 1 then list[0]
    else list[0] + sep + Join(list[1..], sep)
  }

  // ---------------------------------------------------------------------
  // Sequence facts, stated generically so that the solver never looks
  // inside the JSON values

  lemma EmptyJoin<T>(s: seq<T>)
    ensures [] + s == s
  {
  }

  lemma PrefixGrows<T>(s: seq<T>, i: nat)
    requires i < |s|
    ensures s[..i + 1] == s[..i] + [s[i]]
  {
  }

  lemma Appended<T>(s: seq<T>, x: T)
    ensures (s + [x])[..|s|] == s && (s + [x])[|s|] == x && |s + [x]| == |s| + 1
  {
  }
}
