/**
 * The serialisation sanitiser (`src/utils/serialization.ts`): page props must be plain JSON,
 * so `undefined` fields become `null`, function-valued fields are dropped, and the records
 * of shops, brands, categories and products get defaults for their optional fields.
 */
module Serialization {
  import opened Wrappers
  import opened JsValue
  import opened Seqs

  // ---------------------------------------------------------------------------
  // sanitizeForSerialization
  // ---------------------------------------------------------------------------

  /** The value written for one own field of an object. */
  function FieldValue(v: Json): Json
    decreases v, 3
  {
    if v.Undefined? then Null
    else if v.Arr? || v.Obj? then Sanitize(v)
    else v
  }

  /** The body of the `for ... in` loop for the field `p`: a function is skipped, anything else is written. */
  function Step(acc: seq<Prop>, p: Prop): seq<Prop>
    decreases p, 0
  {
    if p.val.Func? then acc else Put(acc, p.key, FieldValue(p.val))
  }

  /** The object built from the fields of `j` from position `i` on, into `acc`. */
  function SanitizeFields(j: Json, acc: seq<Prop>, i: nat): seq<Prop>
    requires j.Obj? && i <= |j.props|
    decreases j, 1, |j.props| - i
  {
    if i == |j.props| then acc
    else
      var p := j.props[i];
      assert p in j.props;
      SanitizeFields(j, Step(acc, p), i + 1)
  }

  /** `sanitizeForSerialization`. */
  function Sanitize(j: Json): Json
    decreases j, 2
  {
    match j
    case Arr(items) => Arr(seq(|items|, i requires 0 <= i < |items| => Sanitize(items[i])))
    case Obj(props) => Obj(SanitizeFields(j, [], 0))
    case _ => j
  }

  /** `sanitizeForSerialization` as written: an array is mapped, an object filled by a loop over its fields. */
  method SanitizeForSerialization(j: Json) returns (r: Json)
    ensures r == Sanitize(j)
    decreases j
  {
    if j.Null? || j.Undefined? {
      return j;
    }
    if TypeofObject(j) {
      if j.Arr? {
        var items: seq<Json> := [];
        for i := 0 to |j.items|
          invariant items == seq(i, k requires 0 <= k < i => Sanitize(j.items[k]))
        {
          assert j.items[i] in j.items;
          var s := SanitizeForSerialization(j.items[i]);
          items := items + [s];
        }
        return Arr(items);
      }
      var sanitized: seq<Prop> := [];
      for i := 0 to |j.props|
        invariant SanitizeFields(j, sanitized, i) == SanitizeFields(j, [], 0)
      {
        var p := j.props[i];
        assert p in j.props;
        assert SanitizeFields(j, sanitized, i) == SanitizeFields(j, Step(sanitized, p), i + 1);
        if p.val.Undefined? {
          sanitized := Put(sanitized, p.key, Null);
        } else if p.val.Func? {
          continue;
        } else if p.val.Arr? || p.val.Obj? {
          var s := SanitizeForSerialization(p.val);
          sanitized := Put(sanitized, p.key, s);
        } else {
          sanitized := Put(sanitized, p.key, p.val);
        }
      }
      return Obj(sanitized);
    }
    return j;
  }

  // ---------------------------------------------------------------------------
  // What the sanitiser means
  // ---------------------------------------------------------------------------

  predicate NotFunction(p: Prop) {
    !p.val.Func?
  }

  /**
   * The reference meaning of the sanitiser: arrays element by element, objects keep their
   * non-function fields in order with `undefined` written as `null`, everything else unchanged.
   */
  function Clean(j: Json): Json
    decreases j, 1
  {
    match j
    case Arr(items) => Arr(seq(|items|, i requires 0 <= i < |items| => Clean(items[i])))
    case Obj(props) => Obj(CleanAll(Filter(props, NotFunction), props))
    case _ => j
  }

  /** The fields `ps`, taken from `props`, each with its value cleaned. */
  function CleanAll(ps: seq<Prop>, props: seq<Prop>): (r: seq<Prop>)
    requires forall p :: p in ps ==> p in props
    ensures |r| == |ps| && forall k :: 0 <= k < |ps| ==> r[k] == CleanField(ps[k], props)
    decreases props, 1
  {
    seq(|ps|, k requires 0 <= k < |ps| => CleanField(ps[k], props))
  }

  function CleanField(p: Prop, props: seq<Prop>): Prop
    requires p in props
    decreases props, 0
  {
    Prop(p.key, if p.val.Undefined? then Null else Clean(p.val))
  }
  /** Every object at any depth is a real object: no key twice. */
  ghost predicate RealObjects(j: Json) {
    match j
    case Arr(items) => forall i :: 0 <= i < |items| ==> RealObjects(items[i])
    case Obj(props) => DistinctKeys(props) && forall i :: 0 <= i < |props| ==> RealObjects(props[i].val)
    case _ => true
  }

  /** No object field anywhere is `undefined` or a function; array elements are not constrained, so this is weaker than what Next.js can serialise. */
  ghost predicate Serializable(j: Json) {
    match j
    case Arr(items) => forall i :: 0 <= i < |items| ==> Serializable(items[i])
    case Obj(props) =>
      forall i :: 0 <= i < |props| ==> !props[i].val.Undefined? && !props[i].val.Func? && Serializable(props[i].val)
    case _ => true
  }

  // ---------------------------------------------------------------------------
  // Properties of sanitizeForSerialization
  // ---------------------------------------------------------------------------

  /** The loop from field `i` on appends the cleaned non-function fields `i..` to what it has built. */
  lemma {:induction false} SanitizeFieldsIsClean(j: Json, acc: seq<Prop>, i: nat)
    requires j.Obj? && i <= |j.props| && RealObjects(j)
    requires forall m :: i <= m < |j.props| ==> j.props[m].key !in Keys(acc)
    ensures SanitizeFields(j, acc, i) == acc + CleanAll(Filter(j.props[i..], NotFunction), j.props)
    decreases j, 0, |j.props| - i, 2
  {
    var props := j.props;
    if i == |props| {
      assert props[i..] == [];
    } else if props[i].val.Func? {
      FilterFrom(props, i);
      assert SanitizeFields(j, acc, i) == SanitizeFields(j, acc, i + 1);
      SanitizeFieldsIsClean(j, acc, i + 1);
    } else {
      assert props[i] in props;
      var q := CleanField(props[i], props);
      assert DistinctKeys(props) && RealObjects(props[i].val);
      SanitizeIsClean(props[i].val);
      assert FieldValue(props[i].val) == q.val;
      PutFresh(acc, props, i, q.val);
      SanitizeFieldsIsClean(j, acc + [q], i + 1);
      FilterFromIn(props, i);
      SanitizeFieldsKeep(j, acc, i);
    }
  }

  /** `SanitizeFieldsIsClean` at a field the loop keeps, from what the loop does after it. */
  lemma SanitizeFieldsKeep(j: Json, acc: seq<Prop>, i: nat)
    requires j.Obj? && i < |j.props| && !j.props[i].val.Func? && j.props[i].key !in Keys(acc)
    requires j.props[i] in j.props && FieldValue(j.props[i].val) == CleanField(j.props[i], j.props).val
    requires forall x :: x in Filter(j.props[i + 1..], NotFunction) ==> x in j.props
    requires SanitizeFields(j, acc + [CleanField(j.props[i], j.props)], i + 1)
      == (acc + [CleanField(j.props[i], j.props)]) + CleanAll(Filter(j.props[i + 1..], NotFunction), j.props)
    ensures SanitizeFields(j, acc, i) == acc + CleanAll(Filter(j.props[i..], NotFunction), j.props)
  {
    var props := j.props;
    var p := props[i];
    var q := CleanField(p, props);
    var tail := CleanAll(Filter(props[i + 1..], NotFunction), props);
    assert SanitizeFields(j, acc, i) == SanitizeFields(j, acc + [q], i + 1);
    CleanAllFrom(props, i);
    AppendAssoc(acc, [q], tail);
  }

  lemma AppendAssoc(a: seq<Prop>, b: seq<Prop>, c: seq<Prop>)
    ensures (a + b) + c == a + (b + c)
  {
  }

  /** The cleaned non-function fields from a kept field `i` on: field `i`, then those after it. */
  lemma CleanAllFrom(props: seq<Prop>, i: nat)
    requires i < |props| && !props[i].val.Func?
    ensures props[i] in props
    ensures CleanAll(Filter(props[i..], NotFunction), props)
      == [CleanField(props[i], props)] + CleanAll(Filter(props[i + 1..], NotFunction), props)
  {
    var p := props[i];
    var rest := Filter(props[i + 1..], NotFunction);
    FilterFromIn(props, i);
    assert Filter(props[i..], NotFunction) == [p] + rest by {
      FilterFrom(props, i);
    }
    CleanAllCons(p, rest, props);
  }

  /** Cleaning a field and then the rest is cleaning them all. */
  lemma CleanAllCons(p: Prop, rest: seq<Prop>, props: seq<Prop>)
    requires p in props && forall x :: x in rest ==> x in props
    ensures CleanAll([p] + rest, props) == [CleanField(p, props)] + CleanAll(rest, props)
  {
    var all := CleanAll([p] + rest, props);
    var split := [CleanField(p, props)] + CleanAll(rest, props);
    forall k | 0 <= k < |all|
      ensures all[k] == split[k]
    {
      if k > 0 {
        assert ([p] + rest)[k] == rest[k - 1];
      }
    }
  }

  /** The non-function fields after `i` are fields of `props`. */
  lemma FilterFromIn(props: seq<Prop>, i: nat)
    requires i < |props|
    ensures forall x :: x in Filter(props[i + 1..], NotFunction) ==> x in props
  {
    forall x | x in Filter(props[i + 1..], NotFunction)
      ensures x in props
    {
      assert x in props[i + 1..];
    }
  }

  /** The non-function fields from `i` on: field `i` if it is kept, then those after it. */
  lemma FilterFrom(props: seq<Prop>, i: nat)
    requires i < |props|
    ensures Filter(props[i..], NotFunction)
      == (if props[i].val.Func? then [] else [props[i]]) + Filter(props[i + 1..], NotFunction)
  {
    assert props[i..] == [props[i]] + props[i + 1..];
    FilterAppend([props[i]], props[i + 1..], NotFunction);
  }

  /** Writing field `i` of a real object appends it, and the later keys are still new. */
  lemma PutFresh(acc: seq<Prop>, props: seq<Prop>, i: nat, v: Json)
    requires i < |props| && DistinctKeys(props)
    requires forall m :: i <= m < |props| ==> props[m].key !in Keys(acc)
    ensures Put(acc, props[i].key, v) == acc + [Prop(props[i].key, v)]
    ensures forall m :: i + 1 <= m < |props| ==> props[m].key !in Keys(acc + [Prop(props[i].key, v)])
  {
    forall m | i + 1 <= m < |props|
      ensures props[m].key !in Keys(acc + [Prop(props[i].key, v)])
    {
      assert props[m].key != props[i].key;
      assert Keys(acc + [Prop(props[i].key, v)]) == Keys(acc) + [props[i].key];
    }
  }

  /** On real objects the sanitiser computes its reference meaning. */
  lemma {:induction false} SanitizeIsClean(j: Json)
    requires RealObjects(j)
    ensures Sanitize(j) == Clean(j)
    decreases j, 1
  {
    match j
    case Arr(items) =>
      forall i | 0 <= i < |items|
        ensures Sanitize(items[i]) == Clean(items[i])
      {
        SanitizeIsClean(items[i]);
      }
    case Obj(props) =>
      SanitizeFieldsIsClean(j, [], 0);
      assert props[0..] == props;
    case _ =>
  }

  /** Filtering keeps the keys of a real object distinct. */
  lemma {:induction false} FilterDistinctKeys(props: seq<Prop>, f: Prop -> bool)
    requires DistinctKeys(props)
    ensures DistinctKeys(Filter(props, f))
  {
    if props != [] {
      FilterDistinctKeys(props[1..], f);
      var rest := Filter(props[1..], f);
      forall m | 0 <= m < |rest|
        ensures rest[m].key != props[0].key
      {
        assert rest[m] in props[1..];
      }
    }
  }

  /** Every value the reference sanitiser produces is serialisable. */
  lemma {:induction false} CleanSerializable(j: Json)
    ensures Serializable(Clean(j))
    decreases j
  {
    match j
    case Arr(items) =>
      forall i | 0 <= i < |items|
        ensures Serializable(Clean(items[i]))
      {
        CleanSerializable(items[i]);
      }
    case Obj(props) =>
      var kept := Filter(props, NotFunction);
      var r := CleanAll(kept, props);
      forall k | 0 <= k < |r|
        ensures !r[k].val.Undefined? && !r[k].val.Func? && Serializable(r[k].val)
      {
        assert kept[k] in props && NotFunction(kept[k]);
        CleanSerializable(kept[k].val);
      }
    case _ =>
  }

  /** Cleaning keeps objects real. */
  lemma {:induction false} CleanRealObjects(j: Json)
    requires RealObjects(j)
    ensures RealObjects(Clean(j))
    decreases j
  {
    match j
    case Arr(items) =>
      forall i | 0 <= i < |items|
        ensures RealObjects(Clean(items[i]))
      {
        CleanRealObjects(items[i]);
      }
    case Obj(props) =>
      var kept := Filter(props, NotFunction);
      FilterDistinctKeys(props, NotFunction);
      var r := CleanAll(kept, props);
      forall k | 0 <= k < |r|
        ensures RealObjects(r[k].val)
      {
        assert kept[k] in props && r[k] == CleanField(kept[k], props);
        CleanRealObjects(kept[k].val);
      }
    case _ =>
  }

  /** Cleaning a cleaned value changes nothing. */
  lemma {:induction false} CleanIdempotent(j: Json)
    ensures Clean(Clean(j)) == Clean(j)
    decreases j, 1
  {
    match j
    case Arr(items) =>
      forall i | 0 <= i < |items|
        ensures Clean(Clean(items[i])) == Clean(items[i])
      {
        CleanIdempotent(items[i]);
      }
    case Obj(props) =>
      CleanFieldsIdempotent(j);
    case _ =>
  }

  lemma {:induction false} CleanFieldsIdempotent(j: Json)
    requires j.Obj?
    ensures Clean(Clean(j)) == Clean(j)
    decreases j, 0
  {
    var props := j.props;
    var kept := Filter(props, NotFunction);
    var r := CleanAll(kept, props);
    assert Clean(j) == Obj(r);
    forall k | 0 <= k < |r|
      ensures NotFunction(r[k]) && CleanField(r[k], r) == r[k]
    {
      assert kept[k] in props && NotFunction(kept[k]);
      CleanIdempotent(kept[k].val);
    }
    FilterAll(r, NotFunction);
    assert Clean(Obj(r)) == Obj(CleanAll(r, r));
    assert CleanAll(r, r) == r;
  }

  /** `sanitizeForSerialization` is idempotent on real objects. */
  lemma SanitizeIdempotent(j: Json)
    requires RealObjects(j)
    ensures Sanitize(Sanitize(j)) == Sanitize(j)
  {
    SanitizeIsClean(j);
    CleanRealObjects(j);
    SanitizeIsClean(Clean(j));
    CleanIdempotent(j);
  }

  /** After sanitising, no object field anywhere is `undefined` or a function. */
  lemma SanitizeSerializable(j: Json)
    requires RealObjects(j)
    ensures Serializable(Sanitize(j))
  {
    SanitizeIsClean(j);
    CleanSerializable(j);
  }

  /**
   * `null`, `undefined` and primitives come back unchanged; an array keeps its length and
   * order with each element sanitised, so an `undefined` element stays `undefined`.
   */
  lemma SanitizeShape(j: Json)
    ensures !j.Arr? && !j.Obj? ==> Sanitize(j) == j
    ensures j.Arr? ==>
      (Sanitize(j).Arr? && |Sanitize(j).items| == |j.items|
       && forall i :: 0 <= i < |j.items| ==> Sanitize(j).items[i] == Sanitize(j.items[i]))
    ensures j.Arr? ==> forall i :: 0 <= i < |j.items| && j.items[i].Undefined? ==> Sanitize(j).items[i].Undefined?
  {
  }

  /** The keys of a cleaned object are the keys of its non-function fields, in order. */
  lemma CleanObjectKeys(props: seq<Prop>)
    ensures Clean(Obj(props)).Obj? && Keys(Clean(Obj(props)).props) == Keys(Filter(props, NotFunction))
  {
  }

  /** In a real object, a field survives cleaning exactly when it is not a function. */
  lemma CleanObjectDrops(props: seq<Prop>, i: nat)
    requires DistinctKeys(props) && i < |props|
    ensures props[i].val.Func? <==> props[i].key !in Keys(Clean(Obj(props)).props)
  {
    var kept := Filter(props, NotFunction);
    var r := CleanAll(kept, props);
    CleanObjectKeys(props);
    if !props[i].val.Func? {
      assert props[i] in kept;
      var m :| 0 <= m < |kept| && kept[m] == props[i];
      assert Keys(r)[m] == props[i].key;
    }
  }

  /** In a real object, a surviving field reads as its cleaned value, `null` for `undefined`. */
  lemma CleanObjectLookup(props: seq<Prop>, i: nat)
    requires DistinctKeys(props) && i < |props| && !props[i].val.Func?
    ensures Lookup(Clean(Obj(props)).props, props[i].key) == if props[i].val.Undefined? then Null else Clean(props[i].val)
  {
    var kept := Filter(props, NotFunction);
    var r := CleanAll(kept, props);
    FilterDistinctKeys(props, NotFunction);
    assert props[i] in kept;
    var m :| 0 <= m < |kept| && kept[m] == props[i];
    assert r[m] == CleanField(props[i], props);
    assert DistinctKeys(r) by {
      assert forall a :: 0 <= a < |r| ==> r[a].key == kept[a].key;
    }
    LookupDistinct(r, m);
  }

  /**
   * Field by field on a real object: the keys are the non-function keys in order; a
   * function-valued field is gone; `undefined` becomes `null`; a nested array or object is
   * sanitised; any other value is copied.
   */
  lemma SanitizeObjectField(props: seq<Prop>, i: nat)
    requires RealObjects(Obj(props)) && i < |props|
    ensures var r := Sanitize(Obj(props));
      && r.Obj?
      && Keys(r.props) == Keys(Filter(props, NotFunction))
      && (props[i].val.Func? <==> props[i].key !in Keys(r.props))
      && (!props[i].val.Func? ==> Lookup(r.props, props[i].key) == FieldValue(props[i].val))
  {
    SanitizeIsClean(Obj(props));
    CleanObjectKeys(props);
    CleanObjectDrops(props, i);
    if !props[i].val.Func? {
      CleanObjectLookup(props, i);
      assert props[i] in props;
      SanitizeIsClean(props[i].val);
    }
  }

  // ---------------------------------------------------------------------------
  // Record sanitisers
  // ---------------------------------------------------------------------------

  /** `{...j, ...fields}`: the spread of `j` with `fields` written over it. */
  function Override(j: Json, fields: seq<Prop>): (r: Json)
    ensures r.Obj?
  {
    Obj(PutAll(SpreadProps(j), fields))
  }

  /** A field written by the literal reads as written; every other field is the spread one. */
  lemma OverrideLookup(j: Json, fields: seq<Prop>, k: string)
    requires DistinctKeys(fields)
    ensures Lookup(Override(j, fields).props, k) == if k in Keys(fields) then Lookup(fields, k) else Lookup(SpreadProps(j), k)
  {
    LookupPutAll(SpreadProps(j), fields, k);
  }

  /** `x ?? null`. */
  function OrNull(x: Json): Json {
    Coalesce(x, Null)
  }

  /** `sanitizeBrand`: `null` for a falsy brand, else the brand with nullish coordinates as `null`. */
  function SanitizeBrand(brand: Json): (r: Json)
    ensures !Truthy(brand) <==> r == Null
  {
    if !Truthy(brand) then Null
    else Override(brand, [Prop("latitude", OrNull(Field(brand, "latitude"))),
                          Prop("longitude", OrNull(Field(brand, "longitude")))])
  }

  /** The fields `keys` of `x` written over its spread, each `?? null`. */
  function NullFields(x: Json, keys: seq<string>): (f: seq<Prop>)
    ensures Keys(f) == keys
  {
    seq(|keys|, i requires 0 <= i < |keys| => Prop(keys[i], OrNull(Field(x, keys[i]))))
  }

  /** The fields `sanitizeShop` writes over the shop. */
  function ShopFields(shop: Json): (f: seq<Prop>)
    ensures Keys(f) == ShopDefaults && DistinctKeys(f)
  {
    assert Distinct(ShopDefaults);
    NullFields(shop, ShopDefaults)
  }

  /** With distinct keys, a `?? null` field reads as the original unless nullish, every other as spread. */
  lemma NullFieldsLookup(x: Json, keys: seq<string>, k: string)
    requires Distinct(keys)
    ensures Lookup(Override(x, NullFields(x, keys)).props, k) ==
      if k in keys then (if Nullish(Field(x, k)) then Null else Field(x, k)) else Lookup(SpreadProps(x), k)
  {
    var f := NullFields(x, keys);
    assert DistinctKeys(f) by {
      assert forall i :: 0 <= i < |f| ==> f[i].key == keys[i];
    }
    OverrideField(x, f, k);
    if k in keys {
      var i :| 0 <= i < |keys| && keys[i] == k;
      assert f[i].key == k;
    }
  }

  /** `sanitizeShop`: as for a brand, and a nullish city or country is `null` too. */
  function SanitizeShop(shop: Json): (r: Json)
    ensures !Truthy(shop) <==> r == Null
  {
    if !Truthy(shop) then Null else Override(shop, ShopFields(shop))
  }

  /** The fields `sanitizeShop` writes. */
  const ShopDefaults: seq<string> := ["latitude", "longitude", "city", "country"]

  /** A field `k` of an object literal written over a spread, by position in the literal. */
  lemma OverrideField(j: Json, fields: seq<Prop>, k: string)
    requires DistinctKeys(fields)
    ensures k !in Keys(fields) ==> Lookup(Override(j, fields).props, k) == Lookup(SpreadProps(j), k)
    ensures forall i :: 0 <= i < |fields| && fields[i].key == k ==> Lookup(Override(j, fields).props, k) == fields[i].val
  {
    OverrideLookup(j, fields, k);
    forall i | 0 <= i < |fields| && fields[i].key == k {
      LookupDistinct(fields, i);
    }
  }

  /** A brand keeps every field; its coordinates read as before unless nullish, then `null`. */
  lemma SanitizeBrandFields(x: Json, k: string)
    requires Truthy(x)
    ensures Lookup(SanitizeBrand(x).props, k) ==
      if k == "latitude" || k == "longitude" then
        (if Nullish(Field(x, k)) then Null else Field(x, k))
      else Lookup(SpreadProps(x), k)
  {
    var f := [Prop("latitude", OrNull(Field(x, "latitude"))), Prop("longitude", OrNull(Field(x, "longitude")))];
    assert Keys(f) == ["latitude", "longitude"];
    OverrideField(x, f, k);
    if k == "latitude" {
      assert f[0].key == k;
    } else if k == "longitude" {
      assert f[1].key == k;
    }
  }

  /** A shop keeps every field; its coordinates, city and country read as before unless nullish, then `null`. */
  lemma SanitizeShopFields(x: Json, k: string)
    requires Truthy(x)
    ensures Lookup(SanitizeShop(x).props, k) ==
      if k in ShopDefaults then
        (if Nullish(Field(x, k)) then Null else Field(x, k))
      else Lookup(SpreadProps(x), k)
  {
    assert Distinct(ShopDefaults);
    NullFieldsLookup(x, ShopDefaults, k);
  }

  const CategoryKeys: seq<string> := ["parent", "children", "items", "customFields"]

  /** The fields `sanitizeCategory` writes over the category. */
  function CategoryFields(c: Json): (f: seq<Prop>)
    ensures Keys(f) == CategoryKeys && DistinctKeys(f)
  {
    CategoryKeysDistinct();
    [Prop("parent", Or(Field(c, "parent"), Null)),
     Prop("children", Or(Field(c, "children"), Null)),
     Prop("items", Or(Field(c, "items"), Num(0))),
     Prop("customFields", Or(Field(c, "customFields"), Obj([])))]
  }

  /** The four category keys have four different lengths, so no two are equal. */
  lemma CategoryKeysDistinct()
    ensures |CategoryKeys| == 4
    ensures forall i, j :: 0 <= i < j < 4 ==> |CategoryKeys[i]| != |CategoryKeys[j]|
  {
  }

  /** `sanitizeCategory`: falsy `parent`/`children` become `null`, `items` 0, `customFields` `{}`. */
  function SanitizeCategory(category: Json): (r: Json)
    ensures !Truthy(category) <==> r == Null
  {
    if !Truthy(category) then Null else Override(category, CategoryFields(category))
  }

  /** A category keeps every field; the four defaulted ones read as before unless falsy. */
  lemma SanitizeCategoryFields(c: Json, k: string)
    requires Truthy(c)
    ensures var v := Lookup(SanitizeCategory(c).props, k);
      && (k == "parent" || k == "children" ==> v == if Truthy(Field(c, k)) then Field(c, k) else Null)
      && (k == "items" ==> v == if Truthy(Field(c, k)) then Field(c, k) else Num(0))
      && (k == "customFields" ==> v == if Truthy(Field(c, k)) then Field(c, k) else Obj([]))
      && (k !in CategoryKeys ==> v == Lookup(SpreadProps(c), k))
  {
    var f := CategoryFields(c);
    OverrideField(c, f, k);
    if k == "parent" {
      assert f[0].key == k;
    } else if k == "children" {
      assert f[1].key == k;
    } else if k == "items" {
      assert f[2].key == k;
    } else if k == "customFields" {
      assert f[3].key == k;
    }
  }

  /**
   * `sanitizeCategories(categories = [])`: `undefined` is the empty list; `None` is the
   * TypeError of calling `.map` on anything that is not an array.
   */
  function SanitizeCategories(categories: Json): (r: Option<Json>)
    ensures r.Some? <==> categories.Undefined? || categories.Arr?
    ensures categories.Arr? ==>
      (r.value.Arr? && |r.value.items| == |categories.items|
       && forall i :: 0 <= i < |categories.items| ==> r.value.items[i] == SanitizeCategory(categories.items[i]))
  {
    match categories
    case Undefined => Some(Arr([]))
    case Arr(items) => Some(Arr(seq(|items|, i requires 0 <= i < |items| => SanitizeCategory(items[i]))))
    case _ => None
  }

  const ProductKeys: seq<string> :=
    ["rating", "compareAtPrice", "brand", "shop", "categories", "tags", "badges", "images", "reviews", "availability"]

  lemma ProductKeysDistinct()
    ensures forall i, j :: 0 <= i < j < |ProductKeys| ==> ProductKeys[i] != ProductKeys[j]
  {
  }

  /** The value `sanitizeProductForSSP` writes for the field `k`, given the sanitised categories. */
  function ProductValue(product: Json, categories: Json, k: string): Json {
    var f := Field(product, k);
    if k == "brand" then SanitizeBrand(f)
    else if k == "shop" then SanitizeShop(f)
    else if k == "categories" then categories
    else if k == "tags" || k == "badges" || k == "images" then Coalesce(f, Arr([]))
    else if k == "reviews" then Coalesce(f, Num(0))
    else OrNull(f)
  }

  /** The fields `sanitizeProductForSSP` writes over the product, in the order of its literal. */
  function ProductFields(product: Json, categories: Json): (f: seq<Prop>)
    ensures Keys(f) == ProductKeys
  {
    seq(|ProductKeys|, i requires 0 <= i < |ProductKeys| => Prop(ProductKeys[i], ProductValue(product, categories, ProductKeys[i])))
  }

  /**
   * `sanitizeProductForSSP`; `None` is the TypeError thrown for a nullish product or for
   * categories that are neither absent nor an array.
   */
  function SanitizeProductForSSP(product: Json): (r: Option<Json>)
    ensures r.Some? <==> !Nullish(product) && SanitizeCategories(Field(product, "categories")).Some?
  {
    if Nullish(product) then None
    else match SanitizeCategories(Field(product, "categories"))
      case None => None
      case Some(categories) => Some(Override(product, ProductFields(product, categories)))
  }

  /** A written field reads as `ProductValue`; every other field is the product's own. */
  lemma SanitizeProductLookup(product: Json, k: string)
    requires SanitizeProductForSSP(product).Some?
    ensures Lookup(SanitizeProductForSSP(product).value.props, k) ==
      if k in ProductKeys then ProductValue(product, SanitizeCategories(Field(product, "categories")).value, k)
      else Lookup(SpreadProps(product), k)
  {
    var cats := SanitizeCategories(Field(product, "categories")).value;
    var f := ProductFields(product, cats);
    ProductKeysDistinct();
    OverrideField(product, f, k);
    if k in ProductKeys {
      var i :| 0 <= i < |ProductKeys| && ProductKeys[i] == k;
      assert f[i] == Prop(k, ProductValue(product, cats, k));
    }
  }

  /**
   * Nullish `rating`, `compareAtPrice` and `availability` become `null`; nullish `tags`,
   * `badges` and `images` become `[]` and nullish `reviews` 0; brand, shop and categories go
   * through their sanitisers; every other field is the product's.
   */
  lemma SanitizeProductFields(product: Json, k: string)
    requires SanitizeProductForSSP(product).Some?
    ensures var v := Lookup(SanitizeProductForSSP(product).value.props, k);
      var f := Field(product, k);
      && (k == "rating" || k == "compareAtPrice" || k == "availability" ==> v == if Nullish(f) then Null else f)
      && (k == "tags" || k == "badges" || k == "images" ==> v == if Nullish(f) then Arr([]) else f)
      && (k == "reviews" ==> v == if Nullish(f) then Num(0) else f)
      && (k == "brand" ==> v == SanitizeBrand(f))
      && (k == "shop" ==> v == SanitizeShop(f))
      && (k == "categories" ==> v == SanitizeCategories(f).value)
      && (k !in ProductKeys ==> v == Lookup(SpreadProps(product), k))
  {
    SanitizeProductLookup(product, k);
    var cats := SanitizeCategories(Field(product, "categories")).value;
    if k in ProductKeys {
      assert Lookup(SanitizeProductForSSP(product).value.props, k) == ProductValue(product, cats, k);
    }
  }
}
