/**
 * The fragment of JavaScript value semantics that the flow engine relies on:
 * dynamically typed values, `typeof`, truthiness, the `||` and `??`
 * operators, optional-chaining property and index access, and the ASCII
 * behaviour of `toLowerCase`, `trim` and `includes` on strings.
 */
module JsValues {

  datatype Option<+T> = None | Some(value: T) {
    function GetOr(default: T): T {
      match this
      case Some(v) => v
      case None => default
    }
  }

  /** A computation that either returns a value or throws an `Error` with a message. */
  datatype Result<+T> = Ok(value: T) | Throw(message: string) {
    predicate IsFailure() {
      Throw?
    }

    function PropagateFailure<U>(): Result<U>
      requires Throw?
    {
      Throw(message)
    }

    function Extract(): T
      requires Ok?
    {
      value
    }
  }

  /**
   * A JavaScript value as it occurs in configs, requests and responses.
   * Objects are ordered field lists (the order `Object.entries` reports);
   * their keys are taken to be distinct, and lookup uses the first binding.
   */
  datatype Json =
    | Undefined
    | Null
    | Bool(b: bool)
    | Num(n: real)
    | Str(s: string)
    | Arr(items: seq<Json>)
    | Obj(fields: seq<(string, Json)>)

  /** An object's own enumerable properties, in enumeration order. */
  type Fields = seq<(string, Json)>

  /** The `typeof` operator. */
  function TypeOf(v: Json): (t: string)
    ensures t == "undefined" <==> v == Undefined
  {
    match v
    case Undefined => "undefined"
    case Bool(_) => "boolean"
    case Num(_) => "number"
    case Str(_) => "string"
    case _ => "object"
  }

  /** JavaScript truthiness: `undefined`, `null`, `false`, `0` and `""` are falsy. */
  predicate Truthy(v: Json) {
    match v
    case Undefined => false
    case Null => false
    case Bool(b) => b
    case Num(n) => n != 0.0
    case Str(s) => s != ""
    case _ => true
  }

  /** `a || b` */
  function Or(a: Json, b: Json): (r: Json)
    ensures Truthy(a) ==> r == a
    ensures !Truthy(a) ==> r == b
  {
    if Truthy(a) then a else b
  }

  /** `a ?? b` */
  function Coalesce(a: Json, b: Json): (r: Json)
    ensures (a == Undefined || a == Null) ==> r == b
    ensures (a != Undefined && a != Null) ==> r == a
  {
    if a == Undefined || a == Null then b else a
  }

  /** Whether `key in obj` holds for an object's own fields. */
  predicate HasKey(fields: Fields, key: string) {
    exists i :: 0 <= i < |fields| && fields[i].0 == key
  }

  /** Property lookup `obj[key]` on a field list: the first binding, or `undefined`. */
  function Lookup(fields: Fields, key: string): Json {
    if fields == [] then Undefined
    else if fields[0].0 == key then fields[0].1
    else Lookup(fields[1..], key)
  }

  /** `v?.key`: property access that yields `undefined` on anything but an object. */
  function Get(v: Json, key: string): (r: Json)
    ensures !v.Obj? ==> r == Undefined
  {
    match v
    case Obj(fields) => Lookup(fields, key)
    case _ => Undefined
  }

  /** The binding at position `i` is the one a lookup finds when no earlier field has its key. */
  lemma {:induction false} LookupAt(fields: Fields, i: nat, key: string)
    requires i < |fields| && fields[i].0 == key
    requires forall j :: 0 <= j < i ==> fields[j].0 != key
    ensures Lookup(fields, key) == fields[i].1
    decreases i
  {
    if i > 0 {
      LookupAt(fields[1..], i - 1, key);
    }
  }

  /**
   * A lookup finds the first binding of its key, or `undefined` when the
   * object has no field of that name.
   */
  lemma {:induction false} LookupFirst(fields: Fields, key: string)
    ensures !HasKey(fields, key) ==> Lookup(fields, key) == Undefined
    ensures HasKey(fields, key) ==>
      exists i :: 0 <= i < |fields| && fields[i] == (key, Lookup(fields, key)) &&
                  forall j :: 0 <= j < i ==> fields[j].0 != key
    decreases |fields|
  {
    if fields != [] && fields[0].0 != key {
      LookupFirst(fields[1..], key);
      if HasKey(fields, key) {
        var i :| 0 <= i < |fields| && fields[i].0 == key;
        assert fields[1..][i - 1].0 == key;
        var i' :| 0 <= i' < |fields| - 1 && fields[1..][i'] == (key, Lookup(fields, key)) &&
                  forall j :: 0 <= j < i' ==> fields[1..][j].0 != key;
        assert fields[i' + 1] == (key, Lookup(fields, key));
        assert forall j :: 0 <= j < i' + 1 ==> fields[j].0 != key by {
          forall j | 0 <= j < i' + 1 ensures fields[j].0 != key {
            if j > 0 { assert fields[j] == fields[1..][j - 1]; }
          }
        }
      }
    } else if fields != [] {
      assert fields[0] == (key, Lookup(fields, key));
    }
  }

  /** The keys of an object literal are distinct. */
  ghost predicate DistinctKeys(fields: Fields) {
    forall i, j :: 0 <= i < j < |fields| ==> fields[i].0 != fields[j].0
  }

  /** In an object with distinct keys every field is found under its own key. */
  lemma LookupDistinct(fields: Fields)
    requires DistinctKeys(fields)
    ensures forall i :: 0 <= i < |fields| ==> Lookup(fields, fields[i].0) == fields[i].1
  {
    forall i | 0 <= i < |fields| ensures Lookup(fields, fields[i].0) == fields[i].1 {
      LookupAt(fields, i, fields[i].0);
    }
  }

  /** `v.key` without optional chaining: reading a property of `undefined` or `null` throws a TypeError. */
  function Member(v: Json, key: string): (r: Result<Json>)
    ensures r.Throw? <==> v == Undefined || v == Null
    ensures r.Ok? ==> r.value == Get(v, key)
  {
    match v
    case Undefined => Throw("Cannot read properties of undefined (reading '" + key + "')")
    case Null => Throw("Cannot read properties of null (reading '" + key + "')")
    case _ => Ok(Get(v, key))
  }

  /**
   * `v?.[i]`: index access. An array yields its element, a string its
   * one-character substring; anything else, or an index out of range, yields
   * `undefined`.
   */
  function At(v: Json, i: nat): (r: Json)
    ensures v.Arr? && i < |v.items| ==> r == v.items[i]
    ensures v.Str? && i < |v.s| ==> r == Str([v.s[i]])
    ensures !(v.Arr? && i < |v.items|) && !(v.Str? && i < |v.s|) ==> r == Undefined
  {
    if v.Arr? && i < |v.items| then v.items[i]
    else if v.Str? && i < |v.s| then Str([v.s[i]])
    else Undefined
  }

  /**
   * The text a template literal `${v}` produces. Numbers and arrays are
   * rendered as "" (their JavaScript formatting is not modelled).
   */
  function ToText(v: Json): (t: string)
    ensures v.Str? ==> t == v.s
  {
    match v
    case Undefined => "undefined"
    case Null => "null"
    case Bool(b) => if b then "true" else "false"
    case Str(s) => s
    case Obj(_) => "[object Object]"
    case _ => ""
  }

  /** `Object.keys(obj)` */
  function Keys(fields: Fields): (ks: seq<string>)
    ensures |ks| == |fields|
    ensures forall i :: 0 <= i < |fields| ==> ks[i] == fields[i].0
  {
    seq(|fields|, i requires 0 <= i < |fields| => fields[i].0)
  }

  /** `String.prototype.toLowerCase` restricted to ASCII. */
  function LowerChar(c: char): char {
    if 'A' <= c <= 'Z' then (c as int + 32) as char else c
  }

  function ToLower(s: string): (r: string)
    ensures |r| == |s|
    ensures forall i :: 0 <= i < |s| ==> r[i] == LowerChar(s[i])
  {
    if s == [] then [] else [LowerChar(s[0])] + ToLower(s[1..])
  }

  /**
   * The characters `String.prototype.trim` removes: the WhiteSpace set of ECMAScript
   * (tab, vertical tab, form feed, the byte-order mark and every Zs space separator,
   * U+0020 and U+00A0 included) and its LineTerminator set (LF, CR, U+2028, U+2029).
   */
  predicate IsSpace(c: char) {
    var n := c as int;
    n == 0x09 || n == 0x0A || n == 0x0B || n == 0x0C || n == 0x0D || n == 0x20 || n == 0xA0 ||
    n == 0x1680 || (0x2000 <= n <= 0x200A) || n == 0x2028 || n == 0x2029 || n == 0x202F ||
    n == 0x205F || n == 0x3000 || n == 0xFEFF
  }

  function TrimStart(s: string): (r: string)
    ensures |r| <= |s| && r == s[|s| - |r|..]
    ensures r == [] || !IsSpace(r[0])
    ensures forall i :: 0 <= i < |s| - |r| ==> IsSpace(s[i])
  {
    if s != [] && IsSpace(s[0]) then TrimStart(s[1..]) else s
  }

  function TrimEnd(s: string): (r: string)
    ensures |r| <= |s| && r == s[..|r|]
    ensures r == [] || !IsSpace(r[|r| - 1])
    ensures forall i :: |r| <= i < |s| ==> IsSpace(s[i])
  {
    if s != [] && IsSpace(s[|s| - 1]) then TrimEnd(s[..|s| - 1]) else s
  }

  /** `String.prototype.trim` */
  function Trim(s: string): string {
    TrimEnd(TrimStart(s))
  }

  /** A string trims to "" exactly when every character in it is whitespace. */
  lemma TrimEmptyIff(s: string)
    ensures Trim(s) == "" <==> forall i :: 0 <= i < |s| ==> IsSpace(s[i])
  {
    var t := TrimStart(s);
    if Trim(s) != "" {
      var r := Trim(s);
      assert r[0] == t[0] == s[|s| - |t|];
    }
  }

  /** `s.includes(sub)` */
  predicate Contains(s: string, sub: string)
    decreases |s|
  {
    |sub| <= |s| && (s[..|sub|] == sub || (s != [] && Contains(s[1..], sub)))
  }

  /** Lower-casing commutes with taking a prefix. */
  lemma {:induction false} ToLowerPrefix(s: string, n: nat)
    requires n <= |s|
    ensures ToLower(s)[..n] == ToLower(s[..n])
    decreases n
  {
    if n > 0 {
      ToLowerPrefix(s[1..], n - 1);
      assert s[..n][1..] == s[1..][..n - 1];
      assert ToLower(s)[..n] == [LowerChar(s[0])] + ToLower(s[1..])[..n - 1];
    }
  }

  /** A string that contains `sub` contains it lower-cased once both are lower-cased. */
  lemma {:induction false} ContainsToLower(s: string, sub: string)
    requires Contains(s, sub)
    ensures Contains(ToLower(s), ToLower(sub))
    decreases |s|
  {
    ToLowerPrefix(s, |sub|);
    if s[..|sub|] != sub {
      ContainsToLower(s[1..], sub);
    }
  }
}
