/**
  The fragment of JavaScript value semantics that the finished-goods
  services depend on: numbers that may be NaN, JSON-like values with
  JavaScript truthiness, `Object.keys(...).length`, property reads and
  writes, `Number(...)` coercion, and the string operations
  (`trim`, `toLowerCase`, `toUpperCase`, `includes`) used by the pages.
 */
module Js {

  datatype Option<+T> = None | Some(value: T)

  datatype Result<+T, +E> = Ok(value: T) | Err(error: E)

  /** A JavaScript number, restricted to NaN or a finite value. */
  datatype Number = NaN | Num(value: real)

  /** `a + b` on numbers: NaN is absorbing. */
  function Add(a: Number, b: Number): (r: Number)
    ensures r.NaN? <==> (a.NaN? || b.NaN?)
  {
    if a.Num? && b.Num? then Num(a.value + b.value) else NaN
  }

  /** `Number(x) || 0` applied to a number: NaN (and 0) become 0. */
  function OrZero(n: Number): (r: real)
    ensures n.Num? ==> r == n.value
  {
    if n.Num? then n.value else 0.0
  }

  /** A value held in memory by the services: what JSON can express, plus NaN. */
  datatype Value =
    | Null
    | Bool(b: bool)
    | NumV(n: Number)
    | Str(s: string)
    | Arr(elems: seq<Value>)
    | Obj(fields: seq<(string, Value)>)

  /** JavaScript truthiness. */
  predicate Truthy(v: Value)
  {
    match v
    case Null => false
    case Bool(b) => b
    case NumV(n) => n.Num? && n.value != 0.0
    case Str(s) => s != ""
    case Arr(_) => true
    case Obj(_) => true
  }

  /** `typeof v === 'object'` for a value that is not null. */
  predicate IsObject(v: Value)
  {
    v.Arr? || v.Obj?
  }

  /** `Object.keys(v).length` for a value that is not null. */
  function KeyCount(v: Value): nat
  {
    match v
    case Str(s) => |s|
    case Arr(e) => |e|
    case Obj(f) => |f|
    case _ => 0
  }

  /** `Object.values(v)` for an object or an array. */
  function Values(v: Value): (r: seq<Value>)
    requires IsObject(v)
    ensures |r| == KeyCount(v)
  {
    if v.Arr? then v.elems else seq(|v.fields|, i requires 0 <= i < |v.fields| => v.fields[i].1)
  }

  /** The value of field `k` in a field list, if present. */
  function Lookup(fs: seq<(string, Value)>, k: string): Option<Value>
  {
    if fs == [] then None
    else if fs[0].0 == k then Some(fs[0].1)
    else Lookup(fs[1..], k)
  }

  /**
    `v[k]` for a named (non-index) property: only plain objects carry
    such properties; on anything else the read gives `undefined` (None).
   */
  function Get(v: Value, k: string): Option<Value>
  {
    if v.Obj? then Lookup(v.fields, k) else None
  }

  /** `v[k] || dflt`: the property when it is present and truthy, else the default. */
  function GetOr(v: Value, k: string, dflt: Value): (r: Value)
    ensures Truthy(dflt) ==> Truthy(r)
  {
    match Get(v, k)
    case Some(x) => if Truthy(x) then x else dflt
    case None => dflt
  }

  /** Replace the first field named `k`, or append it. */
  function SetField(fs: seq<(string, Value)>, k: string, x: Value): (r: seq<(string, Value)>)
    ensures Lookup(r, k) == Some(x)
    ensures forall k' :: k' != k ==> Lookup(r, k') == Lookup(fs, k')
  {
    if fs == [] then [(k, x)]
    else if fs[0].0 == k then [(k, x)] + fs[1..]
    else [fs[0]] + SetField(fs[1..], k, x)
  }

  /**
    Writing property `k` of `v` (an update of the path `.../k` in the store):
    an object gets the field, anything else is replaced by an object.
   */
  function Set(v: Value, k: string, x: Value): (r: Value)
    ensures r.Obj?
    ensures Get(r, k) == Some(x)
    ensures forall k' :: k' != k ==> Get(r, k') == Get(v, k')
  {
    if v.Obj? then Obj(SetField(v.fields, k, x))
    else
      assert forall k' :: k' != k ==> Lookup([(k, x)], k') == Lookup([], k');
      Obj([(k, x)])
  }

  /** Writes the fields `ws` into `v`, left to right. */
  function SetAll(v: Value, ws: seq<(string, Value)>): (r: Value)
    ensures r.Obj? || (ws == [] && r == v)
    decreases |ws|
  {
    if ws == [] then v else SetAll(Set(v, ws[0].0, ws[0].1), ws[1..])
  }

  /**
    `Number(v)`. The conversion of a string is JavaScript's own numeric
    parser and is supplied by the caller as `strToNum`. An array converts
    through its string form, so only an empty array (0) or a one-element
    array (its element, except a boolean) gives a number.
   */
  function ToNumber(v: Value, strToNum: string -> Number): Number
  {
    match v
    case Null => Num(0.0)
    case Bool(b) => Num(if b then 1.0 else 0.0)
    case NumV(n) => n
    case Str(s) => strToNum(s)
    case Arr(e) =>
      if |e| == 0 then Num(0.0)
      else if |e| == 1 && !e[0].Bool? then ToNumber(e[0], strToNum)
      else NaN
    case Obj(_) => NaN
  }

  // ----- strings -----

  /** The characters `String.prototype.trim` removes. */
  predicate IsSpace(c: char)
  {
    c == ' ' || c == '\t' || c == '\n' || c == '\r' || c == '\U{000B}' || c == '\U{000C}'
    || c == '\U{00A0}' || c == '\U{1680}' || ('\U{2000}' <= c <= '\U{200A}')
    || c == '\U{2028}' || c == '\U{2029}' || c == '\U{202F}' || c == '\U{205F}'
    || c == '\U{3000}' || c == '\U{FEFF}'
  }

  function TrimStart(s: string): string
  {
    if s != [] && IsSpace(s[0]) then TrimStart(s[1..]) else s
  }

  function TrimEnd(s: string): string
  {
    if s != [] && IsSpace(s[|s| - 1]) then TrimEnd(s[..|s| - 1]) else s
  }

  /** `s.trim()`. */
  function Trim(s: string): string
  {
    TrimEnd(TrimStart(s))
  }

  /** `trimStart` removes a prefix, and what remains does not start with white space. */
  lemma {:induction false} TrimStartIsSuffix(s: string)
    ensures |TrimStart(s)| <= |s| && TrimStart(s) == s[|s| - |TrimStart(s)|..]
    ensures TrimStart(s) != [] ==> !IsSpace(TrimStart(s)[0])
  {
    if s != [] && IsSpace(s[0]) {
      TrimStartIsSuffix(s[1..]);
    }
  }

  /** `trimEnd` removes a suffix, and what remains does not end with white space. */
  lemma {:induction false} TrimEndIsPrefix(s: string)
    ensures |TrimEnd(s)| <= |s| && TrimEnd(s) == s[..|TrimEnd(s)|]
    ensures TrimEnd(s) != [] ==> !IsSpace(TrimEnd(s)[|TrimEnd(s)| - 1])
  {
    if s != [] && IsSpace(s[|s| - 1]) {
      TrimEndIsPrefix(s[..|s| - 1]);
    }
  }

  /** `trim` gives a substring that neither starts nor ends with white space. */
  lemma TrimStrips(s: string)
    ensures |TrimStart(s)| <= |s| && |Trim(s)| <= |TrimStart(s)|
    ensures var i := |s| - |TrimStart(s)|; i + |Trim(s)| <= |s| && Trim(s) == s[i..i + |Trim(s)|]
    ensures Trim(s) != [] ==> !IsSpace(Trim(s)[0]) && !IsSpace(Trim(s)[|Trim(s)| - 1])
  {
    var t := TrimStart(s);
    TrimStartIsSuffix(s);
    TrimEndIsPrefix(t);
    var r := Trim(s);
    var i := |s| - |t|;
    assert r == s[i..i + |r|];
    assert r != [] ==> r[0] == t[0];
  }

  function LowerChar(c: char): char
  {
    if 'A' <= c <= 'Z' then (c as int - 'A' as int + 'a' as int) as char else c
  }

  function UpperChar(c: char): char
  {
    if 'a' <= c <= 'z' then (c as int - 'a' as int + 'A' as int) as char else c
  }

  /** `s.toLowerCase()` on the ASCII letters. */
  function Lower(s: string): (r: string)
    ensures |r| == |s|
    ensures forall i :: 0 <= i < |s| ==> r[i] == LowerChar(s[i])
  {
    seq(|s|, i requires 0 <= i < |s| => LowerChar(s[i]))
  }

  /** `s.toUpperCase()` on the ASCII letters. */
  function Upper(s: string): (r: string)
    ensures |r| == |s|
    ensures forall i :: 0 <= i < |s| ==> r[i] == UpperChar(s[i])
  {
    seq(|s|, i requires 0 <= i < |s| => UpperChar(s[i]))
  }

  /** `s.includes(t)`. */
  predicate Contains(s: string, t: string)
  {
    t <= s || (s != [] && Contains(s[1..], t))
  }

  // ----- arrays -----

  /** `s.filter(keep)`: the elements `keep` accepts, in order. */
  function Filter<T(!new)>(s: seq<T>, keep: T -> bool): (r: seq<T>)
    ensures |r| <= |s|
    ensures forall x :: x in r <==> x in s && keep(x)
  {
    if s == [] then []
    else
      assert s == [s[0]] + s[1..];
      (if keep(s[0]) then [s[0]] else []) + Filter(s[1..], keep)
  }

  /** Filtering a concatenation filters each part: `filter` keeps the input order. */
  lemma {:induction false} FilterAppend<T(!new)>(a: seq<T>, b: seq<T>, keep: T -> bool)
    ensures Filter(a + b, keep) == Filter(a, keep) + Filter(b, keep)
  {
    if a == [] {
      assert a + b == b;
    } else {
      assert (a + b)[0] == a[0] && (a + b)[1..] == a[1..] + b;
      FilterAppend(a[1..], b, keep);
    }
  }

  // ----- field lists with distinct names (the fields of one object) -----

  predicate DistinctKeys(fs: seq<(string, Value)>)
  {
    forall i, j :: 0 <= i < j < |fs| ==> fs[i].0 != fs[j].0
  }

  lemma {:induction false} LookupAt(fs: seq<(string, Value)>, i: nat)
    requires DistinctKeys(fs) && i < |fs|
    ensures Lookup(fs, fs[i].0) == Some(fs[i].1)
  {
    if i > 0 {
      assert fs[0].0 != fs[i].0;
      assert fs[1..][i - 1] == fs[i];
      LookupAt(fs[1..], i - 1);
    }
  }

  lemma {:induction false} LookupAbsent(fs: seq<(string, Value)>, k: string)
    requires forall i :: 0 <= i < |fs| ==> fs[i].0 != k
    ensures Lookup(fs, k) == None
  {
    if fs != [] {
      LookupAbsent(fs[1..], k);
    }
  }

  /** Reading a field after a series of writes to distinct names. */
  lemma {:induction false} GetSetAll(v: Value, ws: seq<(string, Value)>, k: string)
    requires DistinctKeys(ws)
    ensures Get(SetAll(v, ws), k) == if Lookup(ws, k).Some? then Lookup(ws, k) else Get(v, k)
    decreases |ws|
  {
    if ws != [] {
      var rest := ws[1..];
      assert DistinctKeys(rest);
      GetSetAll(Set(v, ws[0].0, ws[0].1), rest, k);
      if ws[0].0 == k {
        LookupAbsent(rest, k);
      }
    }
  }
}
