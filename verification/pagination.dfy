/**
 * Paged lists: the `page`, `limit` and `sortBy` parameters a list request carries and the
 * page navigation built from the reply's `meta` (`getProductsList` in
 * `src/api/real-api/real-shop.api.ts` and `getOrdersList` in
 * `src/api/real-api/real-account.api.ts` do both identically).
 */
module Pagination {
  import opened Wrappers
  import opened JsValue
  import opened SearchParams

  const DefaultPage := 1
  const DefaultLimit := 20

  // ---------------------------------------------------------------------------
  // The list options
  // ---------------------------------------------------------------------------

  /** What `options.page`, `options.limit` and `options.sort` put in parameter `k`: truthy ones only. */
  function ListOptionParam(options: Json, k: string): Option<string> {
    var name := if k == "sortBy" then "sort" else k;
    if (k == "page" || k == "limit" || k == "sortBy") && Truthy(Field(options, name)) then Some(JsString(Field(options, name)))
    else None
  }

  /** `page`, `limit` and `sortBy` from the list options, set on empty parameters. */
  method SetListOptions(params: UrlSearchParams, options: Json)
    requires params.Valid() && params.pairs == []
    modifies params
    ensures params.Valid()
    ensures forall k :: ValueOf(params.pairs, k) == ListOptionParam(options, k)
  {
    if Truthy(Field(options, "page")) {
      params.Set("page", JsString(Field(options, "page")));
    }
    assert forall k :: ValueOf(params.pairs, k) == if k == "page" then ListOptionParam(options, k) else None;
    if Truthy(Field(options, "limit")) {
      params.Set("limit", JsString(Field(options, "limit")));
    }
    assert forall k :: ValueOf(params.pairs, k) == if k == "page" || k == "limit" then ListOptionParam(options, k) else None;
    if Truthy(Field(options, "sort")) {
      params.Set("sortBy", JsString(Field(options, "sort")));
    }
  }

  // ---------------------------------------------------------------------------
  // The navigation
  // ---------------------------------------------------------------------------

  /** `navigation`; `from` and `to` are the arithmetic results, `NaN` when a field is not numeric. */
  datatype Navigation = Navigation(page: Json, limit: Json, total: Json, pages: Json, from: Number, to: Number)

  function Sub(a: Number, b: Number): Number {
    if a.Finite? && b.Finite? then Finite(a.v - b.v) else NaN
  }

  function Add(a: Number, b: Number): Number {
    if a.Finite? && b.Finite? then Finite(a.v + b.v) else NaN
  }

  function Mul(a: Number, b: Number): Number {
    if a.Finite? && b.Finite? then Finite(a.v * b.v) else NaN
  }

  /** `Math.min(a, b)`: `NaN` if either is. */
  function Min(a: Number, b: Number): Number {
    if a.Finite? && b.Finite? then Finite(if a.v < b.v then a.v else b.v) else NaN
  }

  /** `navigation` from `res.meta`: `meta?.page`, `meta?.limit`, `meta?.total`, `meta?.totalPages`. */
  function PageNavigation(meta: Json): (r: Navigation)
    ensures Nullish(meta) ==> r.from == Finite(1) && r.to == Finite(0)
  {
    Window(Field(meta, "page"), Field(meta, "limit"), Field(meta, "total"), Field(meta, "totalPages"))
  }

  /**
   * A falsy page, limit, total or page count reads as 1, 20, 0 and 1;
   * `from = (page - 1) * limit + 1` and `to = min(page * limit, total)`.
   */
  function Window(page: Json, limit: Json, total: Json, pages: Json): (r: Navigation)
    ensures OrElse(r.page, page, Num(DefaultPage)) && OrElse(r.limit, limit, Num(DefaultLimit))
    ensures OrElse(r.total, total, Num(0)) && OrElse(r.pages, pages, Num(1))
    ensures Truthy(r.page) && Truthy(r.limit) && Truthy(r.pages)
    ensures r.from == From(ToNumber(r.page), ToNumber(r.limit))
    ensures r.to == To(ToNumber(r.page), ToNumber(r.limit), ToNumber(r.total))
  {
    var p := Or(page, Num(DefaultPage));
    var l := Or(limit, Num(DefaultLimit));
    var t := Or(total, Num(0));
    Navigation(p, l, t, Or(pages, Num(1)), From(ToNumber(p), ToNumber(l)), To(ToNumber(p), ToNumber(l), ToNumber(t)))
  }

  /** `(page - 1) * limit + 1`. */
  function From(page: Number, limit: Number): Number {
    Add(Mul(Sub(page, Finite(1)), limit), Finite(1))
  }

  /** `Math.min(page * limit, total)`. */
  function To(page: Number, limit: Number, total: Number): Number {
    Min(Mul(page, limit), total)
  }

  /** With numeric page, limit and total the window starts at `(page - 1) * limit + 1`. */
  lemma NumericFrom(page: int, limit: int, total: int, pages: Json)
    requires page != 0 && limit != 0
    ensures Window(Num(page), Num(limit), Num(total), pages).from == From(Finite(page), Finite(limit))
  {
  }

  /** With numeric page, limit and total the window ends at `min(page * limit, total)`. */
  lemma NumericTo(page: int, limit: int, total: int, pages: Json)
    requires page != 0 && limit != 0
    ensures Window(Num(page), Num(limit), Num(total), pages).to == To(Finite(page), Finite(limit), Finite(total))
  {
  }

  /** `(page - 1) * limit` is `page * limit - limit`, and not negative from page 1 on. */
  lemma Before(page: int, limit: int)
    requires page >= 1 && limit >= 1
    ensures 0 <= (page - 1) * limit == page * limit - limit
  {
  }

  /**
   * On a page that lies within the total, the window `from..to` holds at most `limit`
   * items, never goes past the total, and is full unless it is the last page.
   */
  lemma WindowBounds(page: int, limit: int, total: int, pages: Json)
    requires page >= 1 && limit >= 1 && (page - 1) * limit < total
    ensures var n := Window(Num(page), Num(limit), Num(total), pages);
      && n.from.Finite? && n.to.Finite?
      && 1 <= n.from.v <= n.to.v <= total
      && n.to.v - n.from.v + 1 <= limit
      && (page * limit <= total ==> n.to.v - n.from.v + 1 == limit)
  {
    NumericFrom(page, limit, total, pages);
    NumericTo(page, limit, total, pages);
    Before(page, limit);
    var full := page * limit;
    assert From(Finite(page), Finite(limit)) == Finite(full - limit + 1);
    assert To(Finite(page), Finite(limit), Finite(total)) == Finite(if full < total then full else total);
  }

  /** Page `page + 1` starts right after `page * limit`. */
  lemma NextPageFrom(page: int, limit: int, total: int, pages: Json)
    requires page >= 1 && limit >= 1
    ensures Window(Num(page + 1), Num(limit), Num(total), pages).from == Finite(page * limit + 1)
  {
    var next := page + 1;
    NumericFrom(next, limit, total, pages);
    assert From(Finite(next), Finite(limit)) == Finite(page * limit + 1) by {
      assert Sub(Finite(next), Finite(1)) == Finite(page);
      assert Mul(Finite(page), Finite(limit)) == Finite(page * limit);
    }
  }

  /** Consecutive pages tile the list: page `p + 1` starts right after page `p` ends. */
  lemma PagesTile(page: int, limit: int, total: int, pages: Json)
    requires page >= 1 && limit >= 1 && page * limit <= total
    ensures var a := Window(Num(page), Num(limit), Num(total), pages);
      var b := Window(Num(page + 1), Num(limit), Num(total), pages);
      a.to.Finite? && b.from.Finite? && b.from.v == a.to.v + 1
  {
    NumericTo(page, limit, total, pages);
    NextPageFrom(page, limit, total, pages);
  }

  /**
   * The navigation of a reply whose `meta` carries a numeric page, limit and total, the page
   * lying within the total: `from = (page - 1) * limit + 1`, `to = min(page * limit, total)`.
   */
  lemma MetaWindow(meta: Json, page: int, limit: int, total: int)
    requires page >= 1 && limit >= 1 && (page - 1) * limit < total
    requires Field(meta, "page") == Num(page) && Field(meta, "limit") == Num(limit) && Field(meta, "total") == Num(total)
    ensures var n := PageNavigation(meta);
      && n.from == Finite((page - 1) * limit + 1)
      && n.to == Finite(if page * limit < total then page * limit else total)
      && 1 <= n.from.v <= n.to.v <= total
  {
    var pages := Field(meta, "totalPages");
    NumericFrom(page, limit, total, pages);
    NumericTo(page, limit, total, pages);
    WindowBounds(page, limit, total, pages);
    assert From(Finite(page), Finite(limit)) == Finite((page - 1) * limit + 1) by {
      assert Sub(Finite(page), Finite(1)) == Finite(page - 1);
      assert Mul(Finite(page - 1), Finite(limit)) == Finite((page - 1) * limit);
    }
    assert To(Finite(page), Finite(limit), Finite(total)) == Finite(if page * limit < total then page * limit else total) by {
      assert Mul(Finite(page), Finite(limit)) == Finite(page * limit);
    }
  }
}
