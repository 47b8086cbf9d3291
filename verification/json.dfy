/**
 * JavaScript values as the storefront handles them: decoded JSON bodies, objects built
 * with literals and spreads, and the coercions the code applies to them (truthiness,
 * `||`, `??`, `Number(...)`, `String(...)`).
 */
module JsValue {
  import opened Wrappers
  import opened Text
  import opened Seqs

  /**
   * A JavaScript value. Numbers are integers; objects are their own enumerable properties
   * in insertion order; `Func` is any function value.
   */
  datatype Json =
    | Undefined
    | Null
    | Bool(b: bool)
    | Num(n: int)
    | Str(s: string)
    | Arr(items: seq<Json>)
    | Obj(props: seq<Prop>)
    | Func

  datatype Prop = Prop(key: string, val: Json)

  /** ECMAScript ToBoolean. */
  predicate Truthy(j: Json) {
    match j
    case Undefined => false
    case Null => false
    case Bool(b) => b
    case Num(n) => n != 0
    case Str(s) => s != ""
    case _ => true
  }

  /** What `??` and `?.` test for. */
  predicate Nullish(j: Json) {
    j.Undefined? || j.Null?
  }

  /** `a || b`. */
  function Or(a: Json, b: Json): (r: Json)
    ensures Truthy(r) <==> Truthy(a) || Truthy(b)
    ensures r == a || r == b
    ensures !Truthy(a) ==> r == b
  {
    if Truthy(a) then a else b
  }

  /** `v` is what `a || d` gives: `a` itself when it is truthy, otherwise `d`. */
  predicate OrElse(v: Json, a: Json, d: Json) {
    (Truthy(a) ==> v == a) && (!Truthy(a) ==> v == d)
  }

  /** `a ?? b`. */
  function Coalesce(a: Json, b: Json): (r: Json)
    ensures Nullish(r) <==> Nullish(a) && Nullish(b)
    ensures !Nullish(a) ==> r == a
    ensures Nullish(a) ==> r == b
  {
    if Nullish(a) then b else a
  }

  /** `typeof j === 'object'`. */
  predicate TypeofObject(j: Json) {
    j.Null? || j.Arr? || j.Obj?
  }

  // ---------------------------------------------------------------------------
  // Properties
  // ---------------------------------------------------------------------------

  function Keys(props: seq<Prop>): (r: seq<string>)
    ensures |r| == |props| && forall i :: 0 <= i < |props| ==> r[i] == props[i].key
  {
    seq(|props|, i requires 0 <= i < |props| => props[i].key)
  }

  /** No key appears twice: a real JavaScript object. */
  predicate DistinctKeys(props: seq<Prop>) {
    forall i, j :: 0 <= i < j < |props| ==> props[i].key != props[j].key
  }

  /** Position of the property named `k`. */
  function IndexOf(props: seq<Prop>, k: string): (r: Option<nat>)
    ensures r.None? <==> k !in Keys(props)
    ensures r.Some? ==> r.value < |props| && props[r.value].key == k
    ensures r.Some? ==> forall i :: 0 <= i < r.value ==> props[i].key != k
  {
    if |props| == 0 then None
    else if props[0].key == k then Some(0)
    else match IndexOf(props[1..], k)
      case None => None
      case Some(i) => Some(i + 1)
  }

  /** `o[k]` on an object: the property's value, `undefined` when absent. */
  function Lookup(props: seq<Prop>, k: string): (r: Json)
    ensures k !in Keys(props) ==> r == Undefined
  {
    if |props| == 0 then Undefined
    else if props[0].key == k then props[0].val
    else Lookup(props[1..], k)
  }

  /** `o[k]` reads the property `IndexOf` finds. */
  lemma {:induction false} LookupIndexOf(props: seq<Prop>, k: string)
    ensures Lookup(props, k) == match IndexOf(props, k) case None => Undefined case Some(i) => props[i].val
  {
    if |props| > 0 && props[0].key != k {
      LookupIndexOf(props[1..], k);
    }
  }

  /** `o[k] = v`: overwrites the property in place, or appends it. */
  function Put(props: seq<Prop>, k: string, v: Json): (r: seq<Prop>)
    ensures k in Keys(props) ==> |r| == |props|
    ensures k !in Keys(props) ==> r == props + [Prop(k, v)]
  {
    match IndexOf(props, k)
    case None => props + [Prop(k, v)]
    case Some(i) => props[i := Prop(k, v)]
  }

  /** The first property named `k` is found. */
  lemma IndexOfFirst(props: seq<Prop>, k: string, i: nat)
    requires i < |props| && props[i].key == k
    requires forall m :: 0 <= m < i ==> props[m].key != k
    ensures IndexOf(props, k) == Some(i)
    ensures Lookup(props, k) == props[i].val
  {
    assert Keys(props)[i] == k;
    LookupIndexOf(props, k);
  }

  /** In a real object, the property at position `i` is what `o[k]` reads. */
  lemma LookupDistinct(props: seq<Prop>, i: nat)
    requires DistinctKeys(props) && i < |props|
    ensures Lookup(props, props[i].key) == props[i].val
  {
    IndexOfFirst(props, props[i].key, i);
  }

  /** No string appears twice. */
  predicate Distinct(keys: seq<string>) {
    forall i, j :: 0 <= i < j < |keys| ==> keys[i] != keys[j]
  }

  /** An object literal: the keys, in the order written, with their values. */
  function Record(keys: seq<string>, vals: seq<Json>): (r: seq<Prop>)
    requires |keys| == |vals|
    ensures Keys(r) == keys
  {
    seq(|keys|, i requires 0 <= i < |keys| => Prop(keys[i], vals[i]))
  }

  /** An object literal with distinct keys is a real object, and each key reads as its value. */
  lemma LookupRecord(keys: seq<string>, vals: seq<Json>, i: nat)
    requires |keys| == |vals| && Distinct(keys) && i < |keys|
    ensures DistinctKeys(Record(keys, vals)) && Lookup(Record(keys, vals), keys[i]) == vals[i]
  {
    LookupDistinct(Record(keys, vals), i);
  }

  /** After `o[k] = v`, `o[k]` is `v`. */
  lemma LookupPutSame(props: seq<Prop>, k: string, v: Json)
    ensures Lookup(Put(props, k, v), k) == v
  {
    var r := Put(props, k, v);
    LookupIndexOf(r, k);
    match IndexOf(props, k)
    case None =>
      IndexOfFirst(r, k, |props|);
    case Some(i) =>
      IndexOfFirst(r, k, i);
  }

  /** After `o[k] = v`, every other property reads as before. */
  lemma LookupPutOther(props: seq<Prop>, k: string, v: Json, k2: string)
    requires k2 != k
    ensures Lookup(Put(props, k, v), k2) == Lookup(props, k2)
  {
    var r := Put(props, k, v);
    LookupIndexOf(r, k2);
    LookupIndexOf(props, k2);
    assert forall m :: 0 <= m < |props| ==> r[m].key == props[m].key || props[m].key == k;
    match IndexOf(props, k2)
    case None =>
      assert forall m :: 0 <= m < |r| ==> Keys(r)[m] != k2;
    case Some(i) =>
      IndexOfFirst(r, k2, i);
  }

  /** Writing a property keeps the keys distinct and their order. */
  lemma PutKeys(props: seq<Prop>, k: string, v: Json)
    requires DistinctKeys(props)
    ensures DistinctKeys(Put(props, k, v))
    ensures Keys(Put(props, k, v)) == if k in Keys(props) then Keys(props) else Keys(props) + [k]
  {
  }

  /** `o.k` on any value; `None` is the TypeError that reading a property of `null`/`undefined` throws. */
  function Get(j: Json, k: string): (r: Option<Json>)
    ensures r.None? <==> Nullish(j)
  {
    match j
    case Undefined => None
    case Null => None
    case Obj(props) => Some(Lookup(props, k))
    case Arr(items) => Some(if k == "length" then Num(|items|) else Undefined)
    case Str(s) => Some(if k == "length" then Num(|s|) else Undefined)
    case _ => Some(Undefined)
  }

  /** `j?.k`: optional chaining, `undefined` on a nullish receiver. */
  function Field(j: Json, k: string): (r: Json)
    ensures Nullish(j) ==> r == Undefined
  {
    match Get(j, k)
    case None => Undefined
    case Some(v) => v
  }

  /** `x || []` followed by `.map`: only an array has `map`. */
  function ArrayOr(x: Json): (r: Option<seq<Json>>)
    ensures r.Some? <==> !Truthy(x) || x.Arr?
    ensures !Truthy(x) ==> r == Some([])
    ensures x.Arr? ==> r == Some(x.items)
  {
    match Or(x, Arr([]))
    case Arr(items) => Some(items)
    case _ => None
  }

  /** A value `JSON.parse` can produce: no `undefined`, no functions, no repeated keys. */
  ghost predicate IsData(j: Json) {
    match j
    case Undefined => false
    case Func => false
    case Arr(items) => forall i :: 0 <= i < |items| ==> IsData(items[i])
    case Obj(props) => DistinctKeys(props) && forall i :: 0 <= i < |props| ==> IsData(props[i].val)
    case _ => true
  }

  /** The properties `{...j}` copies: an object's own properties, a string's or array's indices. */
  function SpreadProps(j: Json): (r: seq<Prop>)
    ensures j.Obj? ==> r == j.props
    ensures !(j.Obj? || j.Str? || j.Arr?) ==> r == []
  {
    match j
    case Obj(props) => props
    case Str(s) => seq(|s|, i requires 0 <= i < |s| => Prop(NatToString(i), Str([s[i]])))
    case Arr(items) => seq(|items|, i requires 0 <= i < |items| => Prop(NatToString(i), items[i]))
    case _ => []
  }

  /** `delete o[k]`. */
  function Delete(props: seq<Prop>, k: string): (r: seq<Prop>)
    ensures k !in Keys(r)
    ensures |r| <= |props|
  {
    if props == [] then []
    else if props[0].key == k then Delete(props[1..], k)
    else [props[0]] + Delete(props[1..], k)
  }

  /** Deleting one property leaves every other property readable as before. */
  lemma {:induction false} LookupDeleteOther(props: seq<Prop>, k: string, k2: string)
    requires k2 != k
    ensures Lookup(Delete(props, k), k2) == Lookup(props, k2)
  {
    if props != [] {
      LookupDeleteOther(props[1..], k, k2);
      LookupTail(props, k2);
      if props[0].key != k {
        LookupTail(Delete(props, k), k2);
      }
    }
  }

  /** Reading past a first property with another name. */
  lemma LookupTail(props: seq<Prop>, k: string)
    requires props != []
    ensures Lookup(props, k) == if props[0].key == k then props[0].val else Lookup(props[1..], k)
  {
    if props[0].key != k {
      match IndexOf(props[1..], k)
      case None =>
      case Some(i) => IndexOfFirst(props, k, i + 1);
    }
  }

  /** `{...o, ...extra}`: the properties of `extra` written over `o` in order. */
  function PutAll(props: seq<Prop>, extra: seq<Prop>): seq<Prop>
    decreases |extra|
  {
    if extra == [] then props else PutAll(Put(props, extra[0].key, extra[0].val), extra[1..])
  }

  /** After a spread, a key of `extra` reads as in `extra`, any other key as before. */
  lemma {:induction false} LookupPutAll(props: seq<Prop>, extra: seq<Prop>, k: string)
    requires DistinctKeys(extra)
    ensures Lookup(PutAll(props, extra), k) == if k in Keys(extra) then Lookup(extra, k) else Lookup(props, k)
    decreases |extra|
  {
    if extra != [] {
      var p := Put(props, extra[0].key, extra[0].val);
      var rest := extra[1..];
      DistinctKeysCons(extra);
      LookupPutAll(p, rest, k);
      LookupTail(extra, k);
      if extra[0].key == k {
        LookupPutSame(props, k, extra[0].val);
      } else {
        LookupPutOther(props, extra[0].key, extra[0].val, k);
      }
    }
  }

  /** The first key of a list without repeated keys is not among the others, which repeat none. */
  lemma DistinctKeysCons(props: seq<Prop>)
    requires props != [] && DistinctKeys(props)
    ensures DistinctKeys(props[1..]) && props[0].key !in Keys(props[1..])
    ensures Keys(props) == [props[0].key] + Keys(props[1..])
  {
    var rest := props[1..];
    forall i, j | 0 <= i < j < |rest|
      ensures rest[i].key != rest[j].key
    {
      assert rest[i] == props[i + 1] && rest[j] == props[j + 1];
    }
    forall m | 0 <= m < |rest|
      ensures Keys(rest)[m] != props[0].key
    {
      assert rest[m] == props[m + 1];
    }
  }

  // ---------------------------------------------------------------------------
  // Coercions
  // ---------------------------------------------------------------------------

  /** An ECMAScript number as far as the model needs: an integer or `NaN`. */
  datatype Number = Finite(v: int) | NaN

  /** `String(j)`; a function's source text is not modelled. */
  function JsString(j: Json): (r: string)
    decreases j, 1
    ensures j.Str? ==> r == j.s
    ensures j.Num? ==> r == IntToString(j.n)
  {
    match j
    case Undefined => "undefined"
    case Null => "null"
    case Bool(b) => if b then "true" else "false"
    case Num(n) => IntToString(n)
    case Str(s) => s
    case Arr(items) => Join(seq(|items|, i requires 0 <= i < |items| => ElementString(items[i])), ",")
    case Obj(_) => "[object Object]"
    case Func => "function"
  }

  /** How `Array.prototype.join` writes one element: `null` and `undefined` as the empty string. */
  function ElementString(j: Json): string
    decreases j, 2
  {
    if Nullish(j) then "" else JsString(j)
  }

  /** `parts.filter(Boolean).join(sep)`: the truthy parts, written out and separated by `sep`. */
  function JoinTruthy(parts: seq<Json>, sep: string): (r: string)
    ensures Filter(parts, Truthy) == [] ==> r == ""
    ensures |Filter(parts, Truthy)| == 1 ==> r == ElementString(Filter(parts, Truthy)[0])
  {
    var kept := Filter(parts, Truthy);
    Join(seq(|kept|, i requires 0 <= i < |kept| => ElementString(kept[i])), sep)
  }

  /** A string that `filter(Boolean)` keeps: a non-empty one. */
  predicate NonEmpty(s: string) {
    s != ""
  }

  /** The strings of `names` as values. */
  function Strs(names: seq<string>): (r: seq<Json>)
    ensures |r| == |names| && forall i :: 0 <= i < |names| ==> r[i] == Str(names[i])
  {
    seq(|names|, i requires 0 <= i < |names| => Str(names[i]))
  }

  /** Each kept value written out as `join` writes it. */
  function Written(kept: seq<Json>): (r: seq<string>)
    ensures |r| == |kept| && forall i :: 0 <= i < |kept| ==> r[i] == ElementString(kept[i])
  {
    seq(|kept|, i requires 0 <= i < |kept| => ElementString(kept[i]))
  }

  /** Among strings, `filter(Boolean)` keeps exactly the non-empty ones. */
  lemma {:induction false} TruthyStrings(names: seq<string>)
    ensures Written(Filter(Strs(names), Truthy)) == Filter(names, NonEmpty)
  {
    if names != [] {
      TruthyStrings(names[1..]);
      var values := Strs(names);
      assert values[0] == Str(names[0]) && values[1..] == Strs(names[1..]);
      var rest := Filter(Strs(names[1..]), Truthy);
      if names[0] != "" {
        assert Filter(values, Truthy) == [Str(names[0])] + rest;
        WrittenCons(Str(names[0]), rest);
      } else {
        assert Filter(values, Truthy) == rest;
      }
    }
  }

  /** Writing out a value and then the rest is writing them all. */
  lemma WrittenCons(x: Json, rest: seq<Json>)
    ensures Written([x] + rest) == [ElementString(x)] + Written(rest)
  {
    var all := Written([x] + rest);
    forall k | 0 < k < |all|
      ensures all[k] == Written(rest)[k - 1]
    {
      assert ([x] + rest)[k] == rest[k - 1];
    }
  }

  /** Nothing is kept exactly when every string is empty. */
  lemma KeptNoneIffAllEmpty(names: seq<string>)
    ensures Filter(names, NonEmpty) == [] <==> forall x :: x in names ==> x == ""
  {
    var kept := Filter(names, NonEmpty);
    if kept != [] {
      assert kept[0] in names && kept[0] != "";
    }
  }

  /** Among strings, `parts.filter(Boolean).join(sep)` joins the non-empty ones. */
  lemma JoinTruthyStrings(names: seq<string>, sep: string)
    ensures JoinTruthy(Strs(names), sep) == Join(Filter(names, NonEmpty), sep)
  {
    var kept := Filter(Strs(names), Truthy);
    TruthyStrings(names);
    assert JoinTruthy(Strs(names), sep) == Join(Written(kept), sep);
  }

  /** Two non-empty strings are joined with the separator between them. */
  lemma JoinTruthyTwo(a: string, b: string, sep: string)
    requires a != "" && b != ""
    ensures JoinTruthy([Str(a), Str(b)], sep) == a + sep + b
  {
    var parts := [Str(a), Str(b)];
    assert Filter(parts[1..], Truthy) == parts[1..] by {
      assert parts[1..][1..] == [];
    }
    var names := [a, b];
    assert Join(names[1..], sep) == b;
  }

  /** A falsy part at the front is dropped, not joined as a blank. */
  lemma JoinTruthySkip(x: Json, rest: seq<Json>, sep: string)
    requires !Truthy(x)
    ensures JoinTruthy([x] + rest, sep) == JoinTruthy(rest, sep)
  {
    assert ([x] + rest)[1..] == rest;
  }

  /** ECMAScript ToNumber, integers only. */
  function ToNumber(j: Json): (r: Number)
    ensures j.Num? ==> r == Finite(j.n)
    ensures j.Undefined? || j.Obj? ==> r == NaN
    ensures j.Null? ==> r == Finite(0)
  {
    match j
    case Undefined => NaN
    case Null => Finite(0)
    case Bool(b) => Finite(if b then 1 else 0)
    case Num(n) => Finite(n)
    case Str(s) => StringNumber(s)
    case Arr(_) => StringNumber(JsString(j))
    case Obj(_) => NaN
    case Func => NaN
  }

  function StringNumber(s: string): Number {
    match StringToNumber(s)
    case None => NaN
    case Some(n) => Finite(n)
  }

  /** `Number(j) || 0`: `NaN` and zero both fall back to zero. */
  function NumberOrZero(j: Json): (r: int)
    ensures ToNumber(j).NaN? ==> r == 0
    ensures ToNumber(j).Finite? ==> r == ToNumber(j).v
  {
    match ToNumber(j)
    case NaN => 0
    case Finite(v) => v
  }

  /** `x > y` between two numbers: false whenever either is `NaN`. */
  predicate Greater(x: Number, y: Number) {
    x.Finite? && y.Finite? && x.v > y.v
  }
}
