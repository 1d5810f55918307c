/** Small helper datatypes shared by every module. */
module Wrappers {
  datatype Option<+T> = None | Some(value: T)
}

/**
 JavaScript values as the client handles them after JSON decoding, and the
 four operators the core leans on: `||`, `&&`, `??` and optional chaining.

 `Undefined` is a missing property or an explicit `undefined`; `Null` is
 `null`. `||`, `&&`, `??` and `?.` treat the two alike, but a schema's
 `.optional()` admits only `undefined`. Numbers are integers.
 */
module Js {

  datatype Json =
    | Undefined
    | Null
    | Bool(b: bool)
    | Num(n: int)
    | Str(s: string)
    | Arr(items: seq<Json>)
    | Obj(fields: map<string, Json>)

  /** JavaScript truthiness: `null`, `undefined`, `false`, `0` and `""` are falsy. */
  predicate Truthy(v: Json) {
    match v
    case Undefined => false
    case Null => false
    case Bool(b) => b
    case Num(n) => n != 0
    case Str(s) => s != ""
    case Arr(_) => true
    case Obj(_) => true
  }

  /** `a || b` */
  function Or(a: Json, b: Json): Json {
    if Truthy(a) then a else b
  }

  /** `a && b` */
  function And(a: Json, b: Json): Json {
    if Truthy(a) then b else a
  }

  /** `v == null`: `null` or `undefined`. */
  predicate IsNullish(v: Json) {
    v.Null? || v.Undefined?
  }

  /** `a ?? b` */
  function Coalesce(a: Json, b: Json): Json {
    if IsNullish(a) then b else a
  }

  /** `v?.[k]`: a missing key, or a value that is not an object, reads as undefined. */
  function Get(v: Json, k: string): Json {
    if v.Obj? && k in v.fields then v.fields[k] else Undefined
  }

  /** `v[0]` on an array, a string or an object; undefined on anything else. */
  function First(v: Json): Json {
    match v
    case Arr(items) => if |items| > 0 then items[0] else Undefined
    case Str(s) => if |s| > 0 then Str([s[0]]) else Undefined
    case Obj(_) => Get(v, "0")
    case _ => Undefined
  }

  /** The decimal digits of a natural number. */
  function Decimal(n: nat): (t: string)
    ensures |t| >= 1 && forall i :: 0 <= i < |t| ==> '0' <= t[i] <= '9'
  {
    var d := ['0' + (n % 10) as char];
    if n < 10 then d else Decimal(n / 10) + d
  }

  /** `String(v)`, the text a value is coerced to, for instance by `localStorage.setItem`. */
  function ToText(v: Json): (t: string)
    ensures v.Str? ==> t == v.s
    decreases v, 1
  {
    match v
    case Undefined => "undefined"
    case Null => "null"
    case Bool(b) => if b then "true" else "false"
    case Num(n) => if n < 0 then "-" + Decimal(-n) else Decimal(n)
    case Str(s) => s
    case Arr(items) => ItemsText(v, 0)
    case Obj(_) => "[object Object]"
  }

  /** `items.slice(from).join(",")`, where `null` and `undefined` elements print as nothing. */
  function ItemsText(v: Json, from: nat): string
    requires v.Arr? && from <= |v.items|
    decreases v, 0, |v.items| - from
  {
    if from == |v.items| then ""
    else
      var x := v.items[from];
      var t := if IsNullish(x) then "" else ToText(x);
      if from + 1 == |v.items| then t else t + "," + ItemsText(v, from + 1)
  }

  /** The own properties copied by `{...v}` (arrays and strings are not spread here). */
  function Spread(v: Json): map<string, Json> {
    if v.Obj? then v.fields else map[]
  }

  /** `{ ...(v || {}), [k]: x }` */
  function With(v: Json, k: string, x: Json): (r: Json)
    ensures r.Obj? && r.fields.Keys == Spread(v).Keys + {k}
    ensures Get(r, k) == x
    ensures forall k' :: k' != k ==> Get(r, k') == Get(v, k')
  {
    Obj(Spread(Or(v, Obj(map[])))[k := x])
  }

  /** `r` is what `vs[0] || vs[1] || ... || vs[n-1]` evaluates to: the first
      truthy element, or the last element when none is truthy. */
  ghost predicate IsFirstTruthy(r: Json, vs: seq<Json>) {
    || (exists i :: 0 <= i < |vs| && vs[i] == r && Truthy(r) && forall j :: 0 <= j < i ==> !Truthy(vs[j]))
    || (|vs| > 0 && r == vs[|vs| - 1] && forall j :: 0 <= j < |vs| ==> !Truthy(vs[j]))
  }

  /** The chain `vs[0] || vs[1] || ... || vs[n-1]`. */
  function FirstTruthy(vs: seq<Json>): (r: Json)
    requires |vs| > 0
    ensures r in vs
    ensures IsFirstTruthy(r, vs)
    ensures Truthy(r) <==> exists i :: 0 <= i < |vs| && Truthy(vs[i])
    decreases |vs|
  {
    if |vs| == 1 then vs[0]
    else
      var rest := FirstTruthy(vs[1..]);
      assert IsFirstTruthy(rest, vs[1..]);
      assert forall i :: 0 <= i < |vs| - 1 ==> vs[1..][i] == vs[i + 1];
      if Truthy(vs[0]) then vs[0]
      else
        assert !Truthy(rest) ==> forall j :: 0 <= j < |vs| ==> !Truthy(vs[j]) by {
          if !Truthy(rest) {
            forall j | 0 <= j < |vs| ensures !Truthy(vs[j]) {
              if j > 0 { assert vs[j] == vs[1..][j - 1]; }
            }
          }
        }
        rest
  }

  /** A first-truthy chain is decided by its first truthy element: anything after it is never looked at. */
  lemma {:induction false} FirstTruthyStopsAtTruthy(vs: seq<Json>, i: nat)
    requires i < |vs| && Truthy(vs[i])
    requires forall j :: 0 <= j < i ==> !Truthy(vs[j])
    ensures FirstTruthy(vs) == vs[i]
  {
    if i > 0 {
      assert vs[1..][i - 1] == vs[i];
      FirstTruthyStopsAtTruthy(vs[1..], i - 1);
    }
  }
}
