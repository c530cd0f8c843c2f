/** JavaScript values as the widget sees them: configuration objects, parsed
    webhook responses and request bodies. Objects are maps from property name
    to value; property order is not modelled. */
module JsValue {

  datatype Option<+T> = None | Some(value: T)

  datatype Json =
    | Undefined
    | Null
    | Bool(b: bool)
    | Num(n: int)
    | Str(s: string)
    | Arr(items: seq<Json>)
    | Obj(fields: map<string, Json>)

  /** JavaScript truthiness: `undefined`, `null`, `false`, `0` and `""` are
      falsy; every array and every object (even an empty one) is truthy. */
  predicate Truthy(j: Json) {
    match j
    case Undefined => false
    case Null => false
    case Bool(b) => b
    case Num(n) => n != 0
    case Str(s) => |s| > 0
    case Arr(_) => true
    case Obj(_) => true
  }

  /** `a || b` on JavaScript values. */
  function Or(a: Json, b: Json): (r: Json)
    ensures Truthy(a) ==> r == a
    ensures !Truthy(a) ==> r == b
  {
    if Truthy(a) then a else b
  }

  /** The empty object literal `{}`. */
  const EmptyObj: Json := Obj(map[])

  /** Reading an entry of a map-backed object; a missing key reads as `undefined`. */
  function Lookup(m: map<string, Json>, k: string): Json {
    if k in m then m[k] else Undefined
  }

  /** `j.k` for a value that is not `null`/`undefined`: only plain objects
      carry the named properties this program reads. */
  function Get(j: Json, k: string): Json {
    if j.Obj? then Lookup(j.fields, k) else Undefined
  }

  /** `null` and `undefined`: the values property access throws on and
      `for … in` skips. */
  predicate Nullish(j: Json) {
    j.Null? || j.Undefined?
  }

  /** `j.k` with JavaScript's failure: reading a property of `null` or
      `undefined` throws a TypeError, shown here as `None`. */
  function Access(j: Json, k: string): (r: Option<Json>)
    ensures r.None? <==> Nullish(j)
    ensures r.Some? ==> r.value == Get(j, k)
  {
    if Nullish(j) then None else Some(Get(j, k))
  }

  /** The value at the end of a property path (`j.a.b.c`), `undefined` as
      soon as a step is missing. */
  function GetPath(j: Json, path: seq<string>): Json
    decreases |path|
  {
    if |path| == 0 then j else GetPath(Get(j, path[0]), path[1..])
  }

  /** True when every step of `path` is an own property of a plain object. */
  predicate HasPath(j: Json, path: seq<string>)
    decreases |path|
  {
    |path| == 0 || (j.Obj? && path[0] in j.fields && HasPath(j.fields[path[0]], path[1..]))
  }

  // ---------------------------------------------------------------------
  // Own enumerable properties (`for … in`, `{ ...x }`)
  // ---------------------------------------------------------------------

  function DigitChar(d: nat): char
    requires d < 10
  {
    "0123456789"[d]
  }

  /** The decimal property name JavaScript uses for an array or string index. */
  function IndexKey(i: nat): (r: string)
    ensures |r| > 0
    decreases i
  {
    if i < 10 then [DigitChar(i)] else IndexKey(i / 10) + [DigitChar(i % 10)]
  }

  /** The index properties of an array: "0" ↦ items[0], "1" ↦ items[1], … */
  function IndexProps(items: seq<Json>): (r: map<string, Json>)
    ensures forall i :: 0 <= i < |items| ==> IndexKey(i) in r
    decreases |items|
  {
    if |items| == 0 then map[]
    else IndexProps(items[..|items| - 1])[IndexKey(|items| - 1) := items[|items| - 1]]
  }

  /** The index properties of a string: each index maps to a one-character string. */
  function CharProps(s: string): (r: map<string, Json>)
    ensures forall i :: 0 <= i < |s| ==> IndexKey(i) in r
    decreases |s|
  {
    if |s| == 0 then map[]
    else CharProps(s[..|s| - 1])[IndexKey(|s| - 1) := Str([s[|s| - 1]])]
  }

  /** The own enumerable properties of a value: the fields of an object, the
      indices of an array or a string, and none for the other primitives. */
  function OwnProps(j: Json): map<string, Json> {
    match j
    case Obj(m) => m
    case Arr(items) => IndexProps(items)
    case Str(s) => CharProps(s)
    case _ => map[]
  }

  /** A value seen as the plain object `for … in` walks over. */
  function ArgView(j: Json): Json {
    Obj(OwnProps(j))
  }

  lemma {:induction false} IndexPropsValues(items: seq<Json>, k: string)
    requires k in IndexProps(items)
    ensures exists i :: 0 <= i < |items| && IndexKey(i) == k && IndexProps(items)[k] == items[i]
    decreases |items|
  {
    var n := |items| - 1;
    if k != IndexKey(n) {
      IndexPropsValues(items[..n], k);
      var i :| 0 <= i < n && IndexKey(i) == k && IndexProps(items[..n])[k] == items[..n][i];
      assert IndexProps(items)[k] == items[i];
    } else {
      assert IndexProps(items)[k] == items[n];
    }
  }

  lemma {:induction false} CharPropsAreStrings(s: string, k: string)
    requires k in CharProps(s)
    ensures CharProps(s)[k].Str?
    decreases |s|
  {
    var n := |s| - 1;
    if k != IndexKey(n) {
      CharPropsAreStrings(s[..n], k);
    }
  }

  // ---------------------------------------------------------------------
  // String.prototype.trim
  // ---------------------------------------------------------------------

  /** The characters `String.prototype.trim` removes: ECMAScript WhiteSpace
      and LineTerminator code points. */
  predicate IsJsWhitespace(c: char) {
    c == '\t' || c == '\n' || c == '\U{000B}' || c == '\U{000C}' || c == '\r' || c == ' '
    || c == '\U{00A0}' || c == '\U{1680}' || ('\U{2000}' <= c <= '\U{200A}')
    || c == '\U{2028}' || c == '\U{2029}' || c == '\U{202F}' || c == '\U{205F}'
    || c == '\U{3000}' || c == '\U{FEFF}'
  }

  function TrimStart(s: string): (r: string)
    ensures |r| <= |s|
    decreases |s|
  {
    if |s| > 0 && IsJsWhitespace(s[0]) then TrimStart(s[1..]) else s
  }

  function TrimEnd(s: string): (r: string)
    ensures |r| <= |s|
    decreases |s|
  {
    if |s| > 0 && IsJsWhitespace(s[|s| - 1]) then TrimEnd(s[..|s| - 1]) else s
  }

  function Trim(s: string): string {
    TrimEnd(TrimStart(s))
  }

  predicate AllWhitespace(s: string) {
    forall i :: 0 <= i < |s| ==> IsJsWhitespace(s[i])
  }

  lemma {:induction false} TrimStartEmpty(s: string)
    ensures TrimStart(s) == "" <==> AllWhitespace(s)
    decreases |s|
  {
    if |s| > 0 && IsJsWhitespace(s[0]) {
      TrimStartEmpty(s[1..]);
      assert AllWhitespace(s) <==> AllWhitespace(s[1..]) by {
        if AllWhitespace(s[1..]) {
          forall i | 0 <= i < |s| ensures IsJsWhitespace(s[i]) {
            if i > 0 { assert s[i] == s[1..][i - 1]; }
          }
        }
      }
    } else if |s| > 0 {
      assert !IsJsWhitespace(s[0]);
    }
  }

  lemma {:induction false} TrimEndKeepsFirst(s: string)
    requires |s| > 0 && !IsJsWhitespace(s[0])
    ensures TrimEnd(s) != ""
    decreases |s|
  {
    if IsJsWhitespace(s[|s| - 1]) {
      TrimEndKeepsFirst(s[..|s| - 1]);
    }
  }

  /** `s.trim()` is empty exactly when every character of `s` is whitespace;
      this is the test the send paths use to drop a message. */
  lemma TrimEmptyIffBlank(s: string)
    ensures Trim(s) == "" <==> AllWhitespace(s)
  {
    TrimStartEmpty(s);
    var t := TrimStart(s);
    if t != "" {
      assert |t| > 0 && !IsJsWhitespace(t[0]) by {
        TrimStartFirst(s);
      }
      TrimEndKeepsFirst(t);
    }
  }

  lemma {:induction false} TrimStartFirst(s: string)
    ensures TrimStart(s) != "" ==> !IsJsWhitespace(TrimStart(s)[0])
    decreases |s|
  {
    if |s| > 0 && IsJsWhitespace(s[0]) {
      TrimStartFirst(s[1..]);
    }
  }

  lemma {:induction false} TrimEndPrefix(s: string)
    ensures TrimEnd(s) == s[..|TrimEnd(s)|]
    decreases |s|
  {
    if |s| > 0 && IsJsWhitespace(s[|s| - 1]) {
      TrimEndPrefix(s[..|s| - 1]);
    }
  }

  /** A trimmed string that is not empty is not blank either, so trimming it
      again keeps it non-empty. */
  lemma TrimmedNotBlank(s: string)
    ensures Trim(s) != "" ==> !AllWhitespace(Trim(s)) && Trim(Trim(s)) != ""
  {
    var t := TrimStart(s);
    if Trim(s) != "" {
      TrimEndPrefix(t);
      TrimStartFirst(s);
      assert Trim(s)[0] == t[0];
      TrimEmptyIffBlank(Trim(s));
    }
  }
}
