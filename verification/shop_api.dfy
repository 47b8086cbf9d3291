/**
 * The catalogue client (`src/api/real-api/real-shop.api.ts`): the query it sends for a
 * product list, the navigation and totals it derives from the reply, and `mapProduct`,
 * which turns a backend product record into an `IProduct`. Requests are left out; each
 * operation is a function of the decoded reply it receives.
 */
module ShopApi {
  import opened Wrappers
  import opened Text
  import opened JsValue
  import opened Seqs
  import opened SearchParams
  import opened Pagination

  // ---------------------------------------------------------------------------
  // The product-list query
  // ---------------------------------------------------------------------------

  /** The filter names the backend accepts. */
  const Allowed: seq<string> :=
    ["search", "categoryId", "brandId", "shopId", "carId", "vehicleType", "condition", "minPrice", "maxPrice", "isFeatured"]

  /** The names the options set before the filters are read. */
  const OptionNames: seq<string> := ["page", "limit", "sortBy"]

  /**
   * The parameter one filter entry sets in the `forEach`: none for a falsy value, `carId`
   * for `vehicle`, none for `category`, the entry's own name when it is allowed, else none.
   */
  function Target(e: Prop): (t: Option<string>)
    ensures t.Some? ==> t.value in Allowed
  {
    if !Truthy(e.val) then None
    else if e.key == "vehicle" then Some("carId")
    else if e.key == "category" then None
    else if e.key in Allowed then Some(e.key)
    else None
  }

  /** The value the filter entries leave in parameter `k`: that of the last entry setting it. */
  function LastSet(entries: seq<Prop>, k: string): (r: Option<string>)
    ensures r.Some? ==> k in Allowed
  {
    if entries == [] then None
    else
      var last := entries[|entries| - 1];
      if Target(last) == Some(k) then Some(JsString(last.val)) else LastSet(entries[..|entries| - 1], k)
  }

  /**
   * What the options and the category lookup put in parameter `k` before the filters are
   * read; `resolve` stands for `getCategoryIdBySlug`.
   */
  function OptionParam(options: Json, filters: seq<Prop>, resolve: string -> Json, k: string): Option<string> {
    var category := Lookup(filters, "category");
    if k == "categoryId" then
      if Truthy(category) && Truthy(resolve(JsString(category))) then Some(JsString(resolve(JsString(category)))) else None
    else ListOptionParam(options, k)
  }

  /** Parameter `k` of the product-list request: the filters override the options. */
  function ListParam(options: Json, filters: seq<Prop>, resolve: string -> Json, k: string): Option<string> {
    Override(LastSet(filters, k), OptionParam(options, filters, resolve, k))
  }

  /** Parameter `k` after filter entry `e`: the entry's value if it sets `k`, else what was there. */
  lemma LastSetSnoc(entries: seq<Prop>, e: Prop, k: string)
    ensures LastSet(entries + [e], k) == if Target(e) == Some(k) then Some(JsString(e.val)) else LastSet(entries, k)
  {
    assert (entries + [e])[..|entries|] == entries;
  }

  /**
   * The query `getProductsList` sends for `options` and the filter object `filters`
   * (its properties in order).
   */
  method ProductsListParams(options: Json, filters: seq<Prop>, resolve: string -> Json) returns (r: seq<Param>)
    ensures DistinctParams(r)
    ensures forall k :: ValueOf(r, k) == ListParam(options, filters, resolve, k)
  {
    var params := new UrlSearchParams();
    SetOptionParams(params, options, filters, resolve);
    for i := 0 to |filters|
      invariant params.Valid()
      invariant forall k :: ValueOf(params.pairs, k) == Override(LastSet(filters[..i], k), OptionParam(options, filters, resolve, k))
    {
      var e := filters[i];
      assert filters[..i + 1] == filters[..i] + [e];
      forall k {
        LastSetSnoc(filters[..i], e, k);
      }
      if Truthy(e.val) {
        if e.key == "vehicle" {
          params.Set("carId", JsString(e.val));
        } else if e.key == "category" {
        } else if e.key in Allowed {
          params.Set(e.key, JsString(e.val));
        }
      }
    }
    assert filters[..|filters|] == filters;
    r := params.pairs;
  }

  /** `a` if present, else `b`. */
  function Override(a: Option<string>, b: Option<string>): Option<string> {
    if a.Some? then a else b
  }

  /** The `page`, `limit`, `sortBy` and resolved `categoryId` parameters, set on empty parameters. */
  method SetOptionParams(params: UrlSearchParams, options: Json, filters: seq<Prop>, resolve: string -> Json)
    requires params.Valid() && params.pairs == []
    modifies params
    ensures params.Valid()
    ensures forall k :: ValueOf(params.pairs, k) == OptionParam(options, filters, resolve, k)
  {
    SetListOptions(params, options);
    var category := Lookup(filters, "category");
    if Truthy(category) {
      var categoryId := resolve(JsString(category));
      if Truthy(categoryId) {
        params.Set("categoryId", JsString(categoryId));
      }
    }
  }

  /** Only the option names and the allowed filter names are ever sent; `brand`, for one, is not. */
  lemma OnlyWhitelisted(options: Json, filters: seq<Prop>, resolve: string -> Json, k: string)
    requires k !in OptionNames && k !in Allowed
    ensures ListParam(options, filters, resolve, k).None?
  {
  }

  /** A filter entry with a falsy value changes nothing: dropping it gives the same query. */
  lemma {:induction false} FalsySkipped(entries: seq<Prop>, i: nat, k: string)
    requires i < |entries| && !Truthy(entries[i].val)
    ensures LastSet(entries[..i] + entries[i + 1..], k) == LastSet(entries, k)
    decreases |entries|
  {
    var n := |entries|;
    var init := entries[..n - 1];
    var last := entries[n - 1];
    assert entries == init + [last];
    LastSetSnoc(init, last, k);
    if i < n - 1 {
      assert entries[..i] + entries[i + 1..] == (init[..i] + init[i + 1..]) + [last];
      LastSetSnoc(init[..i] + init[i + 1..], last, k);
      FalsySkipped(init, i, k);
    } else {
      assert entries[..i] + entries[i + 1..] == init;
    }
  }

  /**
   * A truthy `vehicle` filter is sent as `carId` unless a later entry sets `carId`; the
   * names `vehicle` and `category` themselves are never sent.
   */
  lemma {:induction false} VehicleBecomesCarId(entries: seq<Prop>, i: nat)
    requires i < |entries| && entries[i].key == "vehicle" && Truthy(entries[i].val)
    requires forall j :: i < j < |entries| ==> Target(entries[j]) != Some("carId")
    ensures LastSet(entries, "carId") == Some(JsString(entries[i].val))
    ensures LastSet(entries, "vehicle").None? && LastSet(entries, "category").None?
    decreases |entries|
  {
    if i < |entries| - 1 {
      VehicleBecomesCarId(entries[..|entries| - 1], i);
    }
  }

  /** `category` reaches the query only as the `categoryId` its slug resolves to. */
  lemma CategoryAsId(options: Json, filters: seq<Prop>, resolve: string -> Json)
    requires Truthy(Lookup(filters, "category")) && Truthy(resolve(JsString(Lookup(filters, "category"))))
    requires LastSet(filters, "categoryId").None?
    ensures ListParam(options, filters, resolve, "categoryId") == Some(JsString(resolve(JsString(Lookup(filters, "category")))))
    ensures ListParam(options, filters, resolve, "category").None?
  {
    CategoryNotAllowed();
  }

  /** `category` is not a name the backend accepts, so no filter entry sets it. */
  lemma CategoryNotAllowed()
    ensures "category" !in Allowed
  {
    assert |Allowed| == 10;
    assert Allowed[7][0] == 'm' && Allowed[8][0] == 'm';
    forall i | 0 <= i < |Allowed|
      ensures Allowed[i] != "category"
    {
      if |Allowed[i]| == 8 {
        assert i == 7 || i == 8;
      }
    }
  }

  // ---------------------------------------------------------------------------
  // Products
  // ---------------------------------------------------------------------------

  datatype Stock = InStock | OutOfStock | OnBackorder

  /** `stockStatus`: `stock === 0` or `'out-of-stock'`, then `'on-backorder'`, else in stock. */
  function StockStatus(stock: Json): (r: Stock)
    ensures r == OutOfStock <==> stock == Num(0) || stock == Str("out-of-stock")
    ensures r == OnBackorder <==> stock == Str("on-backorder")
  {
    var s := if stock == Num(0) || stock == Str("out-of-stock") then OutOfStock else InStock;
    if stock == Str("on-backorder") then OnBackorder else s
  }

  /** `compatibility`: every car, nothing known, or the listed car ids. */
  datatype Compat = All | Unknown | Cars(ids: seq<Json>)

  /** `comp.carId || comp.car?.id`; reading `carId` of a nullish entry throws. */
  function CarId(comp: Json): (r: Option<Json>)
    ensures r.None? <==> Nullish(comp)
  {
    match Get(comp, "carId")
    case None => None
    case Some(id) => Some(Or(id, Field(Field(comp, "car"), "id")))
  }

  /** The car id of every entry, or `None` when one entry is nullish. */
  function CarIds(comps: seq<Json>): (r: Option<seq<Json>>)
    ensures r.Some? <==> forall i :: 0 <= i < |comps| ==> !Nullish(comps[i])
    ensures r.Some? ==> |r.value| == |comps| && forall i :: 0 <= i < |comps| ==> Some(r.value[i]) == CarId(comps[i])
  {
    if forall i :: 0 <= i < |comps| ==> !Nullish(comps[i]) then
      Some(seq(|comps|, i requires 0 <= i < |comps| => CarId(comps[i]).value))
    else None
  }

  /**
   * The compatibility of `p.compatibleCars`: an array gives its truthy car ids (so an empty
   * array gives none, not `'unknown'`); a truthy non-array whose `length` is 0 gives
   * `'unknown'`; anything else `'all'`.
   */
  function Compatibility(cc: Json): (r: Option<Compat>)
    ensures !Truthy(cc) ==> r == Some(All)
    ensures cc == Arr([]) ==> r == Some(Cars([]))
    ensures r == Some(Unknown) ==> cc.Obj? && Lookup(cc.props, "length") == Num(0)
    ensures Truthy(cc) && !cc.Arr? && Field(cc, "length") == Num(0) ==> r == Some(Unknown)
    ensures cc.Arr? ==> (r.Some? <==> forall i :: 0 <= i < |cc.items| ==> !Nullish(cc.items[i]))
    ensures r.Some? && r.value.Cars? ==>
      (cc.Arr? && |r.value.ids| <= |cc.items| && forall i :: 0 <= i < |r.value.ids| ==> Truthy(r.value.ids[i]))
    ensures cc.Arr? && r.Some? ==>
      && r.value.Cars?
      && (forall x :: x in r.value.ids <==> x in CarIds(cc.items).value && Truthy(x))
      && (forall x :: multiset(r.value.ids)[x] == if Truthy(x) then multiset(CarIds(cc.items).value)[x] else 0)
  {
    if Truthy(cc) && cc.Arr? then
      match CarIds(cc.items)
      case None => None
      case Some(ids) =>
        FilterSubMultiset(ids, Truthy);
        assert |multiset(Filter(ids, Truthy))| <= |multiset(ids)|;
        FilterCount(ids, Truthy);
        Some(Cars(Filter(ids, Truthy)))
    else if Truthy(cc) && Field(cc, "length") == Num(0) then Some(Unknown)
    else Some(All)
  }

  /** The listed ids keep the entries' order. */
  lemma CompatibilityOrder(items: seq<Json>)
    requires Compatibility(Arr(items)).Some?
    ensures IsSubsequence(Compatibility(Arr(items)).value.ids, CarIds(items).value)
  {
    FilterIsSubsequence(CarIds(items).value, Truthy);
  }

  /** The length of the leading run of white space. */
  function SpaceRun(s: string): (k: nat)
    ensures k <= |s| && forall i :: 0 <= i < k ==> IsSpace(s[i])
    ensures k < |s| ==> !IsSpace(s[k])
  {
    if |s| > 0 && IsSpace(s[0]) then 1 + SpaceRun(s[1..]) else 0
  }

  /** `s.replace(/\s+/g, '-')`: every run of white space becomes one `-`. */
  function CollapseSpace(s: string): (r: string)
    ensures |r| <= |s|
    ensures forall i :: 0 <= i < |r| ==> !IsSpace(r[i]) && (r[i] == '-' || r[i] in s)
    ensures (forall i :: 0 <= i < |s| ==> !IsSpace(s[i])) ==> r == s
    decreases |s|
  {
    if s == [] then []
    else if IsSpace(s[0]) then
      var rest := s[SpaceRun(s)..];
      var r := "-" + CollapseSpace(rest);
      assert forall c :: c in rest ==> c in s;
      r
    else
      var r := [s[0]] + CollapseSpace(s[1..]);
      assert forall c :: c in s[1..] ==> c in s;
      r
  }

  /** An attribute slug: lower-cased, white-space runs replaced by `-`. */
  function Slug(s: string): (r: string)
    ensures forall i :: 0 <= i < |r| ==> !IsSpace(r[i])
    ensures ToLower(r) == r
  {
    CollapseLowered(s);
    CollapseSpace(ToLower(s))
  }

  lemma LowerCharIdempotent(c: char)
    ensures LowerChar(LowerChar(c)) == LowerChar(c)
  {
  }

  /** Collapsing white space in a lower-cased string leaves it lower-cased. */
  lemma CollapseLowered(s: string)
    ensures ToLower(CollapseSpace(ToLower(s))) == CollapseSpace(ToLower(s))
  {
    var low := ToLower(s);
    var r := CollapseSpace(low);
    forall i | 0 <= i < |r| ensures LowerChar(r[i]) == r[i] {
      if r[i] != '-' {
        var j :| 0 <= j < |low| && low[j] == r[i];
        LowerCharIdempotent(s[j]);
      }
    }
  }

  /** A slug is its own slug. */
  lemma SlugIdempotent(s: string)
    ensures Slug(Slug(s)) == Slug(s)
  {
  }

  /** How the leading white-space run of `x + y` relates to those of `x` and `y`. */
  lemma {:induction false} SpaceRunAppend(x: string, y: string)
    ensures SpaceRun(x) < |x| ==> SpaceRun(x + y) == SpaceRun(x)
    ensures SpaceRun(x) == |x| ==> SpaceRun(x + y) == |x| + SpaceRun(y)
  {
    if x == [] {
      assert x + y == y;
    } else {
      assert (x + y)[1..] == x[1..] + y;
      if IsSpace(x[0]) {
        SpaceRunAppend(x[1..], y);
      }
    }
  }

  /**
   * A string that does not end in white space collapses on its own, whatever follows it:
   * no run of white space crosses the boundary.
   */
  lemma {:induction false} CollapseSpaceSplit(a: string, t: string)
    requires a == [] || !IsSpace(a[|a| - 1])
    ensures CollapseSpace(a + t) == CollapseSpace(a) + CollapseSpace(t)
    decreases |a|
  {
    if a == [] {
      assert a + t == t;
    } else if IsSpace(a[0]) {
      var a' := a[SpaceRun(a)..];
      assert a'[|a'| - 1] == a[|a| - 1];
      CollapseSpaceSplit(a', t);
      CollapseSplitAtSpace(a, t);
    } else {
      SliceAppend(a, t, 1);
      assert (a + t)[0] == a[0];
      CollapseSpaceSplit(a[1..], t);
    }
  }

  /** The white-space step of `CollapseSpaceSplit`: the run at the front of `a` is the run at the front of `a + t`. */
  lemma CollapseSplitAtSpace(a: string, t: string)
    requires a != [] && IsSpace(a[0]) && !IsSpace(a[|a| - 1])
    requires CollapseSpace(a[SpaceRun(a)..] + t) == CollapseSpace(a[SpaceRun(a)..]) + CollapseSpace(t)
    ensures CollapseSpace(a + t) == CollapseSpace(a) + CollapseSpace(t)
  {
    var k := SpaceRun(a);
    SpaceRunAppend(a, t);
    SliceAppend(a, t, k);
    CollapseSpaceRun(a + t);
    CollapseSpaceRun(a);
  }

  /**
   * A white-space run between two words becomes a single `-` and the words are collapsed
   * on their own: `'front  brake'` gives `'front-brake'`.
   */
  lemma CollapseSpaceJoin(a: string, w: string, b: string)
    requires w != [] && forall i :: 0 <= i < |w| ==> IsSpace(w[i])
    requires a == [] || !IsSpace(a[|a| - 1])
    requires b == [] || !IsSpace(b[0])
    ensures CollapseSpace(a + w + b) == CollapseSpace(a) + "-" + CollapseSpace(b)
  {
    CollapseRunThen(w, b);
    CollapseSplitAfter(a, w, b);
  }

  /** A white-space run followed by a word collapses to `-` and the word's collapse. */
  lemma CollapseRunThen(w: string, b: string)
    requires w != [] && forall i :: 0 <= i < |w| ==> IsSpace(w[i])
    requires b == [] || !IsSpace(b[0])
    ensures CollapseSpace(w + b) == "-" + CollapseSpace(b)
  {
    SpaceRunAppend(w, b);
    SliceAppend(w, b, |w|);
    CollapseSpaceRun(w + b);
  }

  /** `CollapseSpaceJoin` once the run and the word after it are collapsed. */
  lemma CollapseSplitAfter(a: string, w: string, b: string)
    requires a == [] || !IsSpace(a[|a| - 1])
    requires CollapseSpace(w + b) == "-" + CollapseSpace(b)
    ensures CollapseSpace(a + w + b) == CollapseSpace(a) + "-" + CollapseSpace(b)
  {
    var wb := w + b;
    assert a + w + b == a + wb;
    CollapseSpaceSplit(a, wb);
    var x, y := CollapseSpace(a), CollapseSpace(b);
    assert x + ("-" + y) == x + "-" + y;
  }

  lemma SliceAppend<T>(x: seq<T>, y: seq<T>, k: nat)
    requires k <= |x|
    ensures (x + y)[k..] == x[k..] + y
  {
  }

  /** A string that starts with white space collapses to `-` and the rest after the run. */
  lemma CollapseSpaceRun(s: string)
    requires s != [] && IsSpace(s[0])
    ensures CollapseSpace(s) == "-" + CollapseSpace(s[SpaceRun(s)..])
  {
  }

  /** One entry of `attributes`. */
  datatype Attribute = Attribute(name: Json, slug: string, featured: Json, valueName: Json, valueSlug: string)

  /** `(x || '').toLowerCase().replace(...)`: a truthy non-string has no `toLowerCase` and throws. */
  function SlugOf(name: Json): (r: Option<string>)
    ensures r.Some? <==> name.Str? || !Truthy(name)
    ensures name.Str? ==> r == Some(Slug(name.s))
  {
    match Or(name, Str(""))
    case Str(s) => Some(Slug(s))
    case _ => None
  }

  /**
   * The mapping of one specification entry; reading a field of a nullish entry throws, and
   * so does the slug of a truthy name or value that is not a string.
   */
  function MapAttribute(attr: Json): (r: Option<Attribute>)
    ensures r.None? <==>
      || Nullish(attr)
      || SlugOf(Or(Field(attr, "key"), Field(attr, "name"))).None?
      || SlugOf(Field(attr, "value")).None?
    ensures r.Some? ==> OrElse(r.value.name, Or(Field(attr, "key"), Field(attr, "name")), Str(""))
    ensures r.Some? ==> OrElse(r.value.featured, Field(attr, "featured"), Bool(false))
    ensures r.Some? ==> OrElse(r.value.valueName, Field(attr, "value"), Str(""))
    ensures r.Some? ==>
      && r.value.slug == SlugOf(Or(Field(attr, "key"), Field(attr, "name"))).value
      && r.value.valueSlug == SlugOf(Field(attr, "value")).value
    ensures r.Some? ==>
      && r.value.name.Str? && r.value.slug == Slug(r.value.name.s)
      && r.value.valueName.Str? && r.value.valueSlug == Slug(r.value.valueName.s)
  {
    if Nullish(attr) then None
    else
      var name := Or(Or(Field(attr, "key"), Field(attr, "name")), Str(""));
      var value := Or(Field(attr, "value"), Str(""));
      match (SlugOf(name), SlugOf(value))
      case (Some(ns), Some(vs)) => Some(Attribute(name, ns, Or(Field(attr, "featured"), Bool(false)), value, vs))
      case _ => None
  }

  function MapAttributes(attrs: seq<Json>): (r: Option<seq<Attribute>>)
    ensures r.Some? <==> forall i :: 0 <= i < |attrs| ==> MapAttribute(attrs[i]).Some?
    ensures r.Some? ==> |r.value| == |attrs| && forall i :: 0 <= i < |attrs| ==> Some(r.value[i]) == MapAttribute(attrs[i])
  {
    if forall i :: 0 <= i < |attrs| ==> MapAttribute(attrs[i]).Some? then
      Some(seq(|attrs|, i requires 0 <= i < |attrs| => MapAttribute(attrs[i]).value))
    else None
  }

  /** One image: a string is kept, an object gives its `url` or `''`, `null` throws. */
  function MapImage(img: Json): (r: Option<Json>)
    ensures img.Str? ==> r == Some(img)
    ensures r.None? <==> Nullish(img)
  {
    if img.Str? then Some(img)
    else match Get(img, "url")
      case None => None
      case Some(u) => Some(Or(u, Str("")))
  }

  function MapImages(imgs: seq<Json>): (r: Option<seq<Json>>)
    ensures r.Some? <==> forall i :: 0 <= i < |imgs| ==> !Nullish(imgs[i])
    ensures r.Some? ==> |r.value| == |imgs| && forall i :: 0 <= i < |imgs| ==> Some(r.value[i]) == MapImage(imgs[i])
  {
    if forall i :: 0 <= i < |imgs| ==> !Nullish(imgs[i]) then
      Some(seq(|imgs|, i requires 0 <= i < |imgs| => MapImage(imgs[i]).value))
    else None
  }

  // ---------------------------------------------------------------------------
  // Badges
  // ---------------------------------------------------------------------------

  /** Every badge `buildBadges` can give, in the order it pushes them. */
  const AllBadges: seq<string> := ["sale", "new", "hot", "featured"]

  /** `comparePrice && Number(comparePrice) > Number(price)`. */
  predicate SaleBadge(p: Json) {
    Truthy(Field(p, "comparePrice")) && Greater(ToNumber(Field(p, "comparePrice")), ToNumber(Field(p, "price")))
  }

  /** Whether product `p` earns badge `b`. */
  predicate Earns(p: Json, b: string) {
    if b == "sale" then SaleBadge(p)
    else if b == "new" then Truthy(Field(p, "isNew"))
    else if b == "hot" then Field(p, "condition") == Str("imported")
    else b == "featured" && Truthy(Field(p, "isFeatured"))
  }

  function EarnedBy(p: Json): string -> bool {
    b => Earns(p, b)
  }

  /** The badges of `p`: those of the four it earns, in the fixed order. */
  function Badges(p: Json): (r: seq<string>)
    ensures forall b :: b in r <==> b in AllBadges && Earns(p, b)
  {
    Filter(AllBadges, EarnedBy(p))
  }

  /** `buildBadges`: pushes each earned badge in turn. */
  method BuildBadges(p: Json) returns (badges: seq<string>)
    ensures badges == Badges(p)
  {
    var sale, isNew := SaleBadge(p), Truthy(Field(p, "isNew"));
    var hot, featured := Field(p, "condition") == Str("imported"), Truthy(Field(p, "isFeatured"));
    badges := [];
    if sale {
      badges := badges + ["sale"];
    }
    assert badges == Pushed(sale, "sale");
    if isNew {
      badges := badges + ["new"];
    }
    assert badges == Pushed(sale, "sale") + Pushed(isNew, "new");
    if hot {
      badges := badges + ["hot"];
    }
    assert badges == Pushed(sale, "sale") + Pushed(isNew, "new") + Pushed(hot, "hot");
    if featured {
      badges := badges + ["featured"];
    }
    assert badges == Pushed(sale, "sale") + Pushed(isNew, "new") + Pushed(hot, "hot") + Pushed(featured, "featured");
    BadgesUnfold(p);
    Assoc4(Pushed(sale, "sale"), Pushed(isNew, "new"), Pushed(hot, "hot"), Pushed(featured, "featured"));
  }

  lemma Assoc4(a: seq<string>, b: seq<string>, c: seq<string>, d: seq<string>)
    ensures a + b + c + d == a + (b + (c + d))
  {
  }

  /** `[x]` when `b` holds, else nothing. */
  function Pushed<T>(b: bool, x: T): seq<T> {
    if b then [x] else []
  }

  /** The badge list one earned badge at a time. */
  lemma BadgesUnfold(p: Json)
    ensures Badges(p) ==
      Pushed(SaleBadge(p), "sale") + (Pushed(Truthy(Field(p, "isNew")), "new")
      + (Pushed(Field(p, "condition") == Str("imported"), "hot") + Pushed(Truthy(Field(p, "isFeatured")), "featured")))
  {
    var e := EarnedBy(p);
    FilterFour("sale", "new", "hot", "featured", e);
    assert e("sale") == SaleBadge(p);
    assert e("new") == Truthy(Field(p, "isNew"));
    assert e("hot") == (Field(p, "condition") == Str("imported"));
    assert e("featured") == Truthy(Field(p, "isFeatured"));
  }

  /** Filtering four elements keeps each that passes, in place. */
  lemma FilterFour<T(!new)>(a: T, b: T, c: T, d: T, e: T -> bool)
    ensures Filter([a, b, c, d], e) == Pushed(e(a), a) + (Pushed(e(b), b) + (Pushed(e(c), c) + Pushed(e(d), d)))
  {
    FilterCons([a, b, c, d], e);
    assert [a, b, c, d][1..] == [b, c, d];
    FilterCons([b, c, d], e);
    assert [b, c, d][1..] == [c, d];
    FilterCons([c, d], e);
    assert [c, d][1..] == [d];
    FilterCons([d], e);
    assert [d][1..] == [];
    assert Pushed(e(d), d) + [] == Pushed(e(d), d);
  }

  /** The filter of a non-empty sequence: its head if it passes, then the filter of the rest. */
  lemma FilterCons<T(!new)>(s: seq<T>, e: T -> bool)
    requires s != []
    ensures Filter(s, e) == Pushed(e(s[0]), s[0]) + Filter(s[1..], e)
  {
  }

  /** Badges come in the order sale, new, hot, featured, each at most once. */
  lemma BadgesOrdered(p: Json)
    ensures IsSubsequence(Badges(p), AllBadges)
  {
    FilterIsSubsequence(AllBadges, EarnedBy(p));
  }

  // ---------------------------------------------------------------------------
  // mapProduct
  // ---------------------------------------------------------------------------

  /** The part of `IProduct` the model covers. */
  datatype Product = Product(
    id: Json, name: Json, description: Json, slug: Json, sku: Json, partNumber: Json,
    stock: Stock, price: int, compareAtPrice: Option<Number>, images: seq<Json>,
    badges: Json, rating: Option<Number>, reviews: Json, availability: Json,
    compatibility: Compat, tags: Json, attributes: seq<Attribute>)

  /**
   * The fields of `mapProduct` outside the modelled lists that throw a `TypeError`: the
   * excerpt's fallback `description?.slice` on a value that is neither a string nor an
   * array, `categories.map` on a truthy value that is not an array, or `mapCategory` reading
   * a field of a nullish category.
   */
  predicate ProductFieldsThrow(p: Json) {
    var d := Field(p, "description");
    var categories := Field(p, "categories");
    || (!Truthy(Field(p, "excerpt")) && !Nullish(d) && !d.Str? && !d.Arr?)
    || (Truthy(categories) && !categories.Arr?)
    || (categories.Arr? && exists i :: 0 <= i < |categories.items| && Nullish(categories.items[i]))
  }

  /**
   * `mapProduct`: `None` is a TypeError, from a nullish record, an `images` or
   * `specifications` value without `map`, a nullish entry in one of them or in
   * `compatibleCars`, a slug source that is not a string, or one of `ProductFieldsThrow`.
   */
  function MapProduct(p: Json): (r: Option<Product>)
    ensures r.Some? <==>
      && !Nullish(p) && !ProductFieldsThrow(p)
      && ArrayOr(Field(p, "images")).Some? && MapImages(ArrayOr(Field(p, "images")).value).Some?
      && Compatibility(Field(p, "compatibleCars")).Some?
      && ArrayOr(Or(Field(p, "specifications"), Field(p, "attributes"))).Some?
      && MapAttributes(ArrayOr(Or(Field(p, "specifications"), Field(p, "attributes"))).value).Some?
    ensures r.Some? ==> r.value.id == Field(p, "id")
    ensures r.Some? ==>
      && OrElse(r.value.name, Field(p, "name"), Str(""))
      && OrElse(r.value.description, Field(p, "description"), Str(""))
      && OrElse(r.value.slug, Field(p, "slug"), Str(""))
      && OrElse(r.value.sku, Field(p, "sku"), Str(""))
      && OrElse(r.value.partNumber, Field(p, "partNumber"), Or(Field(p, "sku"), Str("")))
      && OrElse(r.value.tags, Field(p, "tags"), Arr([]))
    ensures r.Some? ==> r.value.stock == StockStatus(Field(p, "stock"))
    ensures r.Some? ==> r.value.price == NumberOrZero(Field(p, "price"))
    ensures r.Some? ==>
      && (Truthy(Field(p, "comparePrice")) ==> r.value.compareAtPrice == Some(ToNumber(Field(p, "comparePrice"))))
      && (!Truthy(Field(p, "comparePrice")) ==> r.value.compareAtPrice.None?)
    ensures r.Some? ==>
      && (Truthy(Field(p, "rating")) ==> r.value.rating == Some(ToNumber(Field(p, "rating"))))
      && (!Truthy(Field(p, "rating")) ==> r.value.rating.None?)
    ensures r.Some? ==>
      OrElse(r.value.reviews, Field(p, "reviewCount"), Or(Field(Field(p, "_count"), "reviews"), Num(0)))
    ensures r.Some? ==> OrElse(r.value.badges, Field(p, "badges"), BadgeList(Badges(p)))
    ensures r.Some? ==>
      OrElse(r.value.availability, Field(p, "availability"),
        Str(if r.value.stock == InStock then "In Stock" else "Out of Stock"))
    ensures r.Some? ==> Some(r.value.images) == MapImages(ArrayOr(Field(p, "images")).value)
    ensures r.Some? ==> Some(r.value.compatibility) == Compatibility(Field(p, "compatibleCars"))
    ensures r.Some? ==>
      Some(r.value.attributes) == MapAttributes(ArrayOr(Or(Field(p, "specifications"), Field(p, "attributes"))).value)
  {
    if Nullish(p) || ProductFieldsThrow(p) then None
    else
      var imgs := ArrayOr(Field(p, "images"));
      var compat := Compatibility(Field(p, "compatibleCars"));
      var attrs := ArrayOr(Or(Field(p, "specifications"), Field(p, "attributes")));
      if imgs.None? || compat.None? || attrs.None? then None
      else
        var images := MapImages(imgs.value);
        var attributes := MapAttributes(attrs.value);
        if images.None? || attributes.None? then None
        else Some(BuildProduct(p, images.value, compat.value, attributes.value))
  }

  /** The badge names as the string array `buildBadges` returns. */
  function BadgeList(badges: seq<string>): Json {
    Arr(seq(|badges|, i requires 0 <= i < |badges| => Str(badges[i])))
  }

  /** The record `mapProduct` returns once its lists are mapped. */
  function BuildProduct(p: Json, images: seq<Json>, compat: Compat, attributes: seq<Attribute>): Product {
    var stock := StockStatus(Field(p, "stock"));
    Product(
      Field(p, "id"),
      Or(Field(p, "name"), Str("")),
      Or(Field(p, "description"), Str("")),
      Or(Field(p, "slug"), Str("")),
      Or(Field(p, "sku"), Str("")),
      Or(Or(Field(p, "partNumber"), Field(p, "sku")), Str("")),
      stock,
      NumberOrZero(Field(p, "price")),
      if Truthy(Field(p, "comparePrice")) then Some(ToNumber(Field(p, "comparePrice"))) else None,
      images,
      Or(Field(p, "badges"), BadgeList(Badges(p))),
      if Truthy(Field(p, "rating")) then Some(ToNumber(Field(p, "rating"))) else None,
      Or(Or(Field(p, "reviewCount"), Field(Field(p, "_count"), "reviews")), Num(0)),
      Or(Field(p, "availability"), Str(if stock == InStock then "In Stock" else "Out of Stock")),
      compat,
      Or(Field(p, "tags"), Arr([])),
      attributes)
  }

  /**
   * Without its own `availability`, a product reads "In Stock" exactly when its stock
   * status is in stock; a back-ordered one reads "Out of Stock".
   */
  lemma AvailabilityFollowsStock(p: Json)
    requires MapProduct(p).Some? && !Truthy(Field(p, "availability"))
    ensures MapProduct(p).value.availability == Str("In Stock") <==> MapProduct(p).value.stock == InStock
    ensures Field(p, "stock") == Str("on-backorder") ==> MapProduct(p).value.availability == Str("Out of Stock")
  {
  }

  /** Every product of `items` mapped, or `None` when one mapping throws. */
  function MapProducts(items: seq<Json>): (r: Option<seq<Product>>)
    ensures r.Some? <==> forall i :: 0 <= i < |items| ==> MapProduct(items[i]).Some?
    ensures r.Some? ==> |r.value| == |items| && forall i :: 0 <= i < |items| ==> Some(r.value[i]) == MapProduct(items[i])
  {
    if items == [] then Some([])
    else
      var head, rest := MapProduct(items[0]), MapProducts(items[1..]);
      if head.Some? && rest.Some? then
        MappedCons(items, MapProduct, head.value, rest.value);
        Some([head.value] + rest.value)
      else None
  }

  /** The inductive step of a mapping that can fail: a mapped head in front of the mapped rest. */
  lemma MappedCons<T>(items: seq<Json>, f: Json -> Option<T>, p: T, ps: seq<T>)
    requires items != [] && f(items[0]) == Some(p)
    requires |ps| == |items| - 1 && forall i :: 0 <= i < |items| - 1 ==> Some(ps[i]) == f(items[1..][i])
    ensures forall i :: 0 <= i < |items| ==> Some(([p] + ps)[i]) == f(items[i])
  {
    forall i | 0 < i < |items|
      ensures Some(([p] + ps)[i]) == f(items[i])
    {
      assert items[1..][i - 1] == items[i];
    }
  }

  /** `(res.data || []).map(mapProduct)`; reading `data` of a nullish reply throws. */
  function DataProducts(res: Json): (r: Option<seq<Product>>)
    ensures r.Some? <==>
      && !Nullish(res) && ArrayOr(Field(res, "data")).Some?
      && forall i :: 0 <= i < |ArrayOr(Field(res, "data")).value| ==> MapProduct(ArrayOr(Field(res, "data")).value[i]).Some?
    ensures r.Some? ==>
      var data := ArrayOr(Field(res, "data")).value;
      && |r.value| == |data|
      && forall i :: 0 <= i < |data| ==> Some(r.value[i]) == MapProduct(data[i])
    ensures !Nullish(res) && !Truthy(Field(res, "data")) ==> r == Some([])
  {
    match Get(res, "data")
    case None => None
    case Some(d) =>
      match ArrayOr(d)
      case None => None
      case Some(items) => MapProducts(items)
  }

  datatype ProductsList = ProductsList(items: seq<Product>, sort: Json, navigation: Navigation, filters: seq<Json>)

  /** `buildFiltersFromResponse`: the reply's `filters` when it is an array, else none. */
  function FiltersFromResponse(filters: Json): (r: seq<Json>)
    ensures filters.Arr? ==> r == filters.items
    ensures !filters.Arr? ==> r == []
  {
    if !Truthy(filters) || !filters.Arr? then [] else filters.items
  }

  /** `getProductsList` after the request: the products, the sort, and the navigation from `res.meta`. */
  function ProductsListResult(options: Json, res: Json): (r: Option<ProductsList>)
    ensures r.Some? <==> DataProducts(res).Some?
    ensures r.Some? ==>
      (&& r.value.items == DataProducts(res).value
       && r.value.navigation == PageNavigation(Field(res, "meta"))
       && OrElse(r.value.sort, Field(options, "sort"), Str("default"))
       && (Field(res, "filters").Arr? ==> r.value.filters == Field(res, "filters").items)
       && (!Field(res, "filters").Arr? ==> r.value.filters == []))
  {
    match DataProducts(res)
    case None => None
    case Some(items) =>
      Some(ProductsList(items, Or(Field(options, "sort"), Str("default")), PageNavigation(Field(res, "meta")),
                        FiltersFromResponse(Field(res, "filters"))))
  }

  // ---------------------------------------------------------------------------
  // Special offers
  // ---------------------------------------------------------------------------

  /** `p.compareAtPrice && p.compareAtPrice > p.price`: `NaN` and 0 are falsy. */
  predicate OnSale(p: Product) {
    p.compareAtPrice.Some? && p.compareAtPrice.value.Finite? && p.compareAtPrice.value.v != 0
    && p.compareAtPrice.value.v > p.price
  }

  /** `getSpecialOffers` after the request: the mapped products that are on sale, in order. */
  function SpecialOffers(res: Json): (r: Option<seq<Product>>)
    ensures r.Some? <==> DataProducts(res).Some?
    ensures r.Some? ==> forall x :: x in r.value <==> x in DataProducts(res).value && OnSale(x)
  {
    match DataProducts(res)
    case None => None
    case Some(products) => Some(Filter(products, OnSale))
  }

  /** The offers keep the listing's order. */
  lemma SpecialOffersOrder(res: Json)
    requires SpecialOffers(res).Some?
    ensures IsSubsequence(SpecialOffers(res).value, DataProducts(res).value)
  {
    FilterIsSubsequence(DataProducts(res).value, OnSale);
  }

  /** For a product with a numeric price of zero or more, an offer is exactly a product with the sale badge. */
  lemma OfferIffSaleBadge(p: Json)
    requires MapProduct(p).Some?
    requires ToNumber(Field(p, "price")).Finite? && ToNumber(Field(p, "price")).v >= 0
    ensures OnSale(MapProduct(p).value) <==> "sale" in Badges(p)
  {
  }

  /** A product without a price counts as costing 0: it is an offer, yet `buildBadges` gives it no sale badge. */
  lemma MissingPriceOfferWithoutSaleBadge()
    ensures var p := Obj([Prop("comparePrice", Num(10))]);
      MapProduct(p).Some? && OnSale(MapProduct(p).value) && "sale" !in Badges(p)
  {
    var p := Obj([Prop("comparePrice", Num(10))]);
    assert Lookup(p.props, "comparePrice") == Num(10);
    assert Lookup(p.props, "price") == Undefined;
    assert !Earns(p, "sale");
  }

  // ---------------------------------------------------------------------------
  // Search results
  // ---------------------------------------------------------------------------

  /** `Math.ceil(a / b)` for `b != 0`. */
  function CeilDiv(a: int, b: int): (r: int)
    requires b != 0
    ensures b > 0 ==> (r - 1) * b < a <= r * b
    ensures b > 0 && a <= 0 ==> r <= 0
  {
    var (n, d) := if b > 0 then (a, b) else (-a, -b);
    var q := (n + d - 1) / d;
    assert q * d <= n + d - 1 < q * d + d;
    q
  }

  /** A page count: a number, `Infinity`, or `NaN`. */
  datatype PageCount = Count(n: int) | Infinity | NotANumber

  /** `Math.max(1, Math.ceil(total / limit))`. */
  function FallbackPages(total: Number, limit: int): (r: PageCount)
    ensures total.Finite? && limit > 0 ==> r.Count? && r.n >= 1
    ensures total.Finite? && limit > 0 && total.v > 0 ==> (r.n - 1) * limit < total.v <= r.n * limit
    ensures total.Finite? && total.v <= 0 && limit > 0 ==> r == Count(1)
  {
    if total.NaN? then NotANumber
    else if limit == 0 then
      if total.v > 0 then Infinity else if total.v == 0 then NotANumber else Count(1)
    else
      var c := CeilDiv(total.v, limit);
      Count(if c < 1 then 1 else c)
  }

  /** `totalPages`: the reply's own count, else the one computed from the total. */
  datatype TotalPages = Reported(j: Json) | Computed(p: PageCount)

  datatype SearchResult = SearchResult(products: seq<Product>, total: Json, page: Json, totalPages: TotalPages)

  /** `Array.isArray(res) ? res : (res.data ?? res.products ?? [])`, then `.map`. */
  function RawList(res: Json): (r: Option<seq<Json>>)
    ensures res.Arr? ==> r == Some(res.items)
    ensures Nullish(res) ==> r.None?
  {
    if res.Arr? then Some(res.items)
    else match Get(res, "data")
      case None => None
      case Some(d) =>
        match Coalesce(Coalesce(d, Field(res, "products")), Arr([]))
        case Arr(items) => Some(items)
        case _ => None
  }

  /**
   * `getSearchResults` after the request: `total` is `meta.total`, else `res.total`, else
   * the product count; `totalPages` likewise, else computed from the total.
   */
  function SearchResults(res: Json, page: int, limit: int): (r: Option<SearchResult>)
    ensures r.Some? <==> RawList(res).Some? && MapProducts(RawList(res).value).Some?
    ensures r.Some? ==> r.value.products == MapProducts(RawList(res).value).value
    ensures r.Some? && !Nullish(Field(Field(res, "meta"), "total")) ==> r.value.total == Field(Field(res, "meta"), "total")
    ensures r.Some? && Nullish(Field(Field(res, "meta"), "total")) && !Nullish(Field(res, "total")) ==> r.value.total == Field(res, "total")
    ensures r.Some? && Nullish(Field(Field(res, "meta"), "total")) && Nullish(Field(res, "total")) ==> r.value.total == Num(|r.value.products|)
    ensures r.Some? && Nullish(Field(Field(res, "meta"), "totalPages")) && Nullish(Field(res, "totalPages")) ==>
      r.value.totalPages == Computed(FallbackPages(ToNumber(r.value.total), limit))
    ensures r.Some? && !Nullish(Field(Field(res, "meta"), "totalPages")) ==>
      r.value.totalPages == Reported(Field(Field(res, "meta"), "totalPages"))
    ensures r.Some? && Nullish(Field(Field(res, "meta"), "totalPages")) && !Nullish(Field(res, "totalPages")) ==>
      r.value.totalPages == Reported(Field(res, "totalPages"))
    ensures r.Some? && !Nullish(Field(Field(res, "meta"), "page")) ==> r.value.page == Field(Field(res, "meta"), "page")
    ensures r.Some? && Nullish(Field(Field(res, "meta"), "page")) && !Nullish(Field(res, "page")) ==> r.value.page == Field(res, "page")
    ensures r.Some? && Nullish(Field(Field(res, "meta"), "page")) && Nullish(Field(res, "page")) ==> r.value.page == Num(page)
  {
    match RawList(res)
    case None => None
    case Some(raw) =>
      match MapProducts(raw)
      case None => None
      case Some(products) =>
        var meta := Field(res, "meta");
        var total := Coalesce(Coalesce(Field(meta, "total"), Field(res, "total")), Num(|products|));
        var pages := Coalesce(Field(meta, "totalPages"), Field(res, "totalPages"));
        Some(SearchResult(
          products,
          total,
          Coalesce(Coalesce(Field(meta, "page"), Field(res, "page")), Num(page)),
          if Nullish(pages) then Computed(FallbackPages(ToNumber(total), limit)) else Reported(pages)))
  }
}
