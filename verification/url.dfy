/**
 * The link builder (`src/services/url.ts`): every page of the storefront as a link the
 * router understands. A link is a plain path, a `{href, as}` pair (the route pattern with
 * the parameter in its query, and the address the browser shows) or a path name with a
 * query record.
 */
module Url {
  import opened Wrappers
  import opened Text
  import opened JsValue

  /** `IAppLinkHref`. */
  datatype Link =
    | Path(path: string)
    | Pair(href: string, asPath: string)
    | Query(pathname: string, query: seq<Prop>)

  /** The pages whose link takes no argument. */
  datatype Page =
    | Home | MotoHome | MotoParts | UsedVehicles | UsedCars | UsedMoto | Garages | Cart
    | Checkout | Wishlist | Compare | TrackOrder | Blog | Post | PromoSameDay | PromoTrending
    | PromoFreeShipping | PromoSpecialOffers | SignIn | SignUp | PasswordRecovery
    | AccountDashboard | AccountGarage | AccountProfile | AccountPassword | AccountOrders
    | AccountAddresses | AboutUs | ContactUs | StoreLocation | Terms

  /** The fixed address of each page; `post` ignores the post it is given. */
  function StaticPath(p: Page): (r: string)
    ensures |r| >= 1 && r[0] == '/'
  {
    match p
    case Home => "/"
    case MotoHome => "/moto"
    case MotoParts => "/moto-parts"
    case UsedVehicles => "/used-vehicles"
    case UsedCars => "/used-vehicles/cars"
    case UsedMoto => "/used-vehicles/moto"
    case Garages => "/garages"
    case Cart => "/cart"
    case Checkout => "/cart/checkout"
    case Wishlist => "/wishlist"
    case Compare => "/compare"
    case TrackOrder => "/track-order"
    case Blog => "/demo/blog/classic-right-sidebar"
    case Post => "/demo/blog/post-full-width"
    case PromoSameDay => "/promotions/same-day-delivery"
    case PromoTrending => "/promotions/trending-sale"
    case PromoFreeShipping => "/promotions/free-shipping"
    case PromoSpecialOffers => "/promotions/special-offers"
    case SignIn => "/account/login"
    case SignUp => "/account/register"
    case PasswordRecovery => "/account/forgot-password"
    case AccountDashboard => "/account/dashboard"
    case AccountGarage => "/account/garage"
    case AccountProfile => "/account/profile"
    case AccountPassword => "/account/password"
    case AccountOrders => "/account/orders"
    case AccountAddresses => "/account/addresses"
    case AboutUs => "/about-us"
    case ContactUs => "/contact-us"
    case StoreLocation => "/"
    case Terms => "/terms"
  }

  /** Only the home page and the store-location page lead to the site root. */
  lemma RootPages(p: Page)
    ensures StaticPath(p) == "/" <==> p == Home || p == StoreLocation
  {
    assert |StaticPath(p)| == 1 <==> p == Home || p == StoreLocation;
  }

  // ---------------------------------------------------------------------------
  // Links with one parameter
  // ---------------------------------------------------------------------------

  /**
   * The shape shared by every dynamic route: `href` is `<base>/[<param>]?<param>=<value>`,
   * `as` is `<base>/<value>`.
   */
  function ParamLink(base: string, param: string, value: string): (r: Link)
    ensures r.Pair?
    ensures StartsWith(r.asPath, base + "/") && r.asPath[|base| + 1..] == value
    ensures StartsWith(r.href, base + "/[" + param + "]?" + param + "=")
    ensures r.href[|base| + 2 * |param| + 5..] == value
  {
    Pair(base + "/[" + param + "]?" + param + "=" + value, base + "/" + value)
  }

  /** The parameter read back from the address of a link under `base`. */
  function ParamOf(link: Link, base: string): (r: Option<string>)
    ensures r.Some? ==> link.Pair? && link.asPath == base + "/" + r.value
  {
    if link.Pair? && StartsWith(link.asPath, base + "/") then
      assert link.asPath == link.asPath[..|base| + 1] + link.asPath[|base| + 1..];
      Some(link.asPath[|base| + 1..])
    else None
  }

  /** The value a dynamic route is built with is what its address gives back. */
  lemma ParamRoundTrip(base: string, param: string, value: string)
    ensures ParamOf(ParamLink(base, param, value), base) == Some(value)
  {
  }

  /** Two links of the same route are equal exactly when their values are. */
  lemma ParamLinkInjective(base: string, param: string, v1: string, v2: string)
    ensures ParamLink(base, param, v1) == ParamLink(base, param, v2) <==> v1 == v2
  {
    if ParamLink(base, param, v1) == ParamLink(base, param, v2) {
      ParamRoundTrip(base, param, v1);
      ParamRoundTrip(base, param, v2);
    }
  }

  /** `product`: `/products/[slug]`. */
  function Product(slug: string): (r: Link)
    ensures ParamOf(r, "/products") == Some(slug)
    ensures r == Pair("/products/[slug]?slug=" + slug, "/products/" + slug)
  {
    ParamRoundTrip("/products", "slug", slug);
    ParamLink("/products", "slug", slug)
  }

  /** `brand`: `/supplier/[slug]`. */
  function Brand(slug: string): (r: Link)
    ensures ParamOf(r, "/supplier") == Some(slug)
    ensures r == Pair("/supplier/[slug]?slug=" + slug, "/supplier/" + slug)
  {
    ParamRoundTrip("/supplier", "slug", slug);
    ParamLink("/supplier", "slug", slug)
  }

  /** `garageProfile`: `/garages/[slug]`. */
  function GarageProfile(slug: string): (r: Link)
    ensures ParamOf(r, "/garages") == Some(slug)
    ensures r == Pair("/garages/[slug]?slug=" + slug, "/garages/" + slug)
  {
    ParamRoundTrip("/garages", "slug", slug);
    ParamLink("/garages", "slug", slug)
  }

  /** `checkoutSuccess`: the order's token as a template literal writes it. */
  function CheckoutSuccess(token: Json): (r: Link)
    ensures ParamOf(r, "/cart/checkout") == Some(JsString(token))
    ensures r == Pair("/cart/checkout/[token]?token=" + JsString(token), "/cart/checkout/" + JsString(token))
  {
    ParamRoundTrip("/cart/checkout", "token", JsString(token));
    ParamLink("/cart/checkout", "token", JsString(token))
  }

  /** `accountOrderView`: the order's id as a template literal writes it (`undefined` included). */
  function AccountOrderView(id: Json): (r: Link)
    ensures ParamOf(r, "/account/orders") == Some(JsString(id))
    ensures r == Pair("/account/orders/[id]?id=" + JsString(id), "/account/orders/" + JsString(id))
  {
    ParamRoundTrip("/account/orders", "id", JsString(id));
    ParamLink("/account/orders", "id", JsString(id))
  }

  /** `accountAddressEdit`. */
  function AccountAddressEdit(id: Json): (r: Link)
    ensures ParamOf(r, "/account/addresses") == Some(JsString(id))
    ensures r == Pair("/account/addresses/[id]?id=" + JsString(id), "/account/addresses/" + JsString(id))
  {
    ParamRoundTrip("/account/addresses", "id", JsString(id));
    ParamLink("/account/addresses", "id", JsString(id))
  }

  /** `accountAddressNew`, written out as two literals. */
  function AccountAddressNew(): (r: Link)
    ensures ParamOf(r, "/account/addresses") == Some("new")
  {
    Pair("/account/addresses/[id]?id=new", "/account/addresses/new")
  }

  /** The new-address page is the edit page of an address whose id is `"new"`. */
  lemma AddressNewIsEdit()
    ensures AccountAddressNew() == AccountAddressEdit(Str("new"))
  {
  }

  // ---------------------------------------------------------------------------
  // Catalogue links
  // ---------------------------------------------------------------------------

  /** `IShopCategory` as far as links read it; `kind` is the category's `type`. */
  datatype Category = Category(kind: string, slug: string, layout: string)

  /** The suffix a `products` layout adds to both halves of a category link. */
  function LayoutSuffix(layout: string): string {
    if layout == "products" then "/products" else ""
  }

  /** `shopCategory`: a `products` layout links to the category's product list. */
  function ShopCategory(c: Category): (r: Link)
    ensures r.Pair? && r.asPath == "/catalog/" + c.slug + LayoutSuffix(c.layout)
    ensures c.layout != "products" ==> r == ParamLink("/catalog", "slug", c.slug)
    ensures c.layout == "products" ==> r.href == "/catalog/[slug]/products?slug=" + c.slug
  {
    if c.layout == "products" then
      Pair("/catalog/[slug]/products?slug=" + c.slug, "/catalog/" + c.slug + "/products")
    else
      ParamLink("/catalog", "slug", c.slug)
  }

  /**
   * Slugs without a `/` never collide: two categories get the same address exactly when
   * they have the same slug and both or neither use the `products` layout.
   */
  lemma ShopCategoryInjective(c1: Category, c2: Category)
    requires '/' !in c1.slug && '/' !in c2.slug
    ensures ShopCategory(c1).asPath == ShopCategory(c2).asPath <==>
      c1.slug == c2.slug && (c1.layout == "products" <==> c2.layout == "products")
  {
    var s1, s2 := LayoutSuffix(c1.layout), LayoutSuffix(c2.layout);
    var t1, t2 := c1.slug + s1, c2.slug + s2;
    assert ShopCategory(c1).asPath[9..] == t1;
    assert ShopCategory(c2).asPath[9..] == t2;
    if ShopCategory(c1).asPath == ShopCategory(c2).asPath {
      assert t1 == t2;
      if s1 != s2 {
        assert false;
      }
      assert c1.slug == t1[..|t1| - |s1|];
    }
  }

  /** `category`: shop categories link as `shopCategory`, every other kind to the site root. */
  function CategoryLink(c: Category): (r: Link)
    ensures c.kind == "shop" ==> r == ShopCategory(c)
    ensures c.kind != "shop" ==> r == Path(StaticPath(Home))
  {
    if c.kind == "shop" then ShopCategory(c) else Path("/")
  }

  /** `products`: the catalogue product list with the filters spread into its query. */
  function Products(filters: Option<seq<Prop>>): (r: Link)
    ensures r.Query? && r.pathname == "/catalog/products"
    ensures filters.None? ==> r.query == []
  {
    Query("/catalog/products", match filters case None => [] case Some(f) => PutAll([], f))
  }

  /** The query carries every filter unchanged, and nothing else. */
  lemma ProductsCopiesFilters(filters: seq<Prop>, k: string)
    requires DistinctKeys(filters)
    ensures Lookup(Products(Some(filters)).query, k) == Lookup(filters, k)
  {
    LookupPutAll([], filters, k);
  }

  /** The shop a `shop` link is for; `None` is a missing (`null`/`undefined`) shop. */
  datatype Shop = Shop(slug: string)

  /** `shop`: a shop with a slug gets its page, anything else the catalogue. */
  function ShopLink(shop: Option<Shop>): (r: Link)
    ensures r.Pair? <==> shop.Some? && shop.value.slug != ""
    ensures r.Pair? ==> ParamOf(r, "/shop") == Some(shop.value.slug)
    ensures !r.Pair? ==> r == Path("/catalog")
  {
    if shop.Some? && shop.value.slug != "" then
      ParamRoundTrip("/shop", "slug", shop.value.slug);
      ParamLink("/shop", "slug", shop.value.slug)
    else Path("/catalog")
  }

  /** `search`; `encode` stands for `encodeURIComponent`. */
  function Search(query: string, encode: string -> string): (r: Link)
    ensures r.Pair? && r.href == r.asPath
    ensures StartsWith(r.href, "/search?query=") && r.href[14..] == encode(query)
  {
    var path := "/search?query=" + encode(query);
    Pair(path, path)
  }
}
