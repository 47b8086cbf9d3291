/**
 * The account client (`src/api/real-api/real-account.api.ts`): what signing in, up and out
 * does to the stored token pair, the address and order mappers, and the address and order
 * queries built on them. Each operation is modelled from the decoded reply onwards; a
 * request that throws is the caller never reaching that point.
 */
module AccountApi {
  import opened Wrappers
  import opened Text
  import opened JsValue
  import opened HttpClient
  import opened SearchParams
  import opened Pagination

  // ---------------------------------------------------------------------------
  // Session
  // ---------------------------------------------------------------------------

  /** `IUser`: each field is the reply's value when truthy, else `''`. */
  datatype User = User(email: Json, phone: Json, firstName: Json, lastName: Json, avatar: Json)

  /** `mapUser`; reading a field of a nullish user throws. */
  function MapUser(u: Json): (r: Option<User>)
    ensures r.None? <==> Nullish(u)
    ensures r.Some? ==> OrElse(r.value.email, Field(u, "email"), Str(""))
    ensures r.Some? ==> OrElse(r.value.phone, Field(u, "phone"), Str(""))
    ensures r.Some? ==> OrElse(r.value.firstName, Field(u, "firstName"), Str(""))
    ensures r.Some? ==> OrElse(r.value.lastName, Field(u, "lastName"), Str(""))
    ensures r.Some? ==> OrElse(r.value.avatar, Field(u, "avatar"), Str(""))
  {
    if Nullish(u) then None
    else
      Some(User(
        Or(Field(u, "email"), Str("")),
        Or(Field(u, "phone"), Str("")),
        Or(Field(u, "firstName"), Str("")),
        Or(Field(u, "lastName"), Str("")),
        Or(Field(u, "avatar"), Str(""))))
  }

  /**
   * What `signIn` and `signUp` do with the reply `data` of their request: store
   * `data.accessToken` and `data.refreshToken`, then map `data.user`. A nullish reply
   * throws before anything is stored; a nullish user throws after the tokens are stored.
   */
  method CompleteSignIn(client: AuthClient, data: Json) returns (user: Option<User>)
    requires client.Valid()
    modifies client
    ensures client.Valid()
    ensures Nullish(data) ==> client.storage == old(client.storage) && user.None?
    ensures !Nullish(data) ==>
      (client.storage == if client.inBrowser
       then old(client.storage)[StorageKey := client.codec.stringify(TokenRecord(Field(data, "accessToken"), Field(data, "refreshToken")))]
       else old(client.storage))
    ensures (&& !Nullish(data) && client.inBrowser && Lawful(client.codec)
             && Storable(Field(data, "accessToken")) && Storable(Field(data, "refreshToken"))) ==>
      (&& Field(client.GetTokens(), "accessToken") == Field(data, "accessToken")
       && Field(client.GetTokens(), "refreshToken") == Field(data, "refreshToken"))
    ensures user == (if Nullish(data) then None else MapUser(Field(data, "user")))
    ensures client.calls == old(client.calls) && client.refreshQueue == old(client.refreshQueue)
    ensures client.isRefreshing == old(client.isRefreshing)
  {
    if Nullish(data) {
      return None;
    }
    client.SetTokens(Field(data, "accessToken"), Field(data, "refreshToken"));
    user := MapUser(Field(data, "user"));
  }

  /**
   * `signOut`: the logout call's outcome (`None` when it threw) is only logged; the
   * tokens are cleared either way.
   */
  method SignOut(client: AuthClient, logout: Option<Json>)
    requires client.Valid()
    modifies client
    ensures client.Valid()
    ensures client.storage == if client.inBrowser then old(client.storage) - {StorageKey} else old(client.storage)
    ensures client.GetTokens() == Null || !client.inBrowser
    ensures client.calls == old(client.calls) && client.refreshQueue == old(client.refreshQueue)
    ensures client.isRefreshing == old(client.isRefreshing)
  {
    client.ClearTokens();
  }

  // ---------------------------------------------------------------------------
  // Addresses
  // ---------------------------------------------------------------------------

  /** The eleven text fields an address has in the storefront, each a string or `''`. */
  datatype AddressFields = AddressFields(
    firstName: Json, lastName: Json, company: Json, country: Json, address1: Json, address2: Json,
    city: Json, state: Json, postcode: Json, email: Json, phone: Json)

  /** `IAddress`: the fields plus the server's `id` and the `default` flag. */
  datatype Address = Address(id: Json, fields: AddressFields, default: Json)

  /** `emptyAddress()`. */
  const EmptyAddress := AddressFields(Str(""), Str(""), Str(""), Str(""), Str(""), Str(""), Str(""), Str(""), Str(""), Str(""), Str(""))

  /**
   * The fields of the record `a`, each `|| ''`; `address1` falls back to `street`, and
   * `postcode` is the value given (the mappers differ only there).
   */
  function FieldsOf(a: Json, postcode: Json): (r: AddressFields)
    ensures OrElse(r.firstName, Field(a, "firstName"), Str("")) && OrElse(r.lastName, Field(a, "lastName"), Str(""))
    ensures OrElse(r.company, Field(a, "company"), Str("")) && OrElse(r.country, Field(a, "country"), Str(""))
    ensures Truthy(Field(a, "address1")) ==> r.address1 == Field(a, "address1")
    ensures !Truthy(Field(a, "address1")) ==> OrElse(r.address1, Field(a, "street"), Str(""))
    ensures OrElse(r.address2, Field(a, "address2"), Str("")) && OrElse(r.city, Field(a, "city"), Str(""))
    ensures OrElse(r.state, Field(a, "state"), Str("")) && OrElse(r.postcode, postcode, Str(""))
    ensures OrElse(r.email, Field(a, "email"), Str("")) && OrElse(r.phone, Field(a, "phone"), Str(""))
  {
    AddressFields(
      Or(Field(a, "firstName"), Str("")),
      Or(Field(a, "lastName"), Str("")),
      Or(Field(a, "company"), Str("")),
      Or(Field(a, "country"), Str("")),
      Or(Or(Field(a, "address1"), Field(a, "street")), Str("")),
      Or(Field(a, "address2"), Str("")),
      Or(Field(a, "city"), Str("")),
      Or(Field(a, "state"), Str("")),
      Or(postcode, Str("")),
      Or(Field(a, "email"), Str("")),
      Or(Field(a, "phone"), Str("")))
  }

  /** `mapAddress`; a nullish record throws. `postcode` falls back to `zipCode`, `default` reads `isDefault`. */
  function MapAddress(a: Json): (r: Option<Address>)
    ensures r.None? <==> Nullish(a)
    ensures r.Some? ==> r.value.id == Field(a, "id")
    ensures r.Some? && Truthy(Field(a, "isDefault")) ==> r.value.default == Field(a, "isDefault")
    ensures r.Some? && !Truthy(Field(a, "isDefault")) ==> r.value.default == Bool(false)
    ensures r.Some? && !Truthy(Field(a, "postcode")) && Truthy(Field(a, "zipCode")) ==> r.value.fields.postcode == Field(a, "zipCode")
    ensures r.Some? ==> r.value.fields == FieldsOf(a, Or(Field(a, "postcode"), Field(a, "zipCode")))
  {
    if Nullish(a) then None
    else Some(Address(Field(a, "id"), FieldsOf(a, Or(Field(a, "postcode"), Field(a, "zipCode"))), Or(Field(a, "isDefault"), Bool(false))))
  }

  /** `mapAddressData`: the address of an order, without the `zipCode` fallback. */
  function MapAddressData(a: Json): (r: AddressFields)
    ensures Truthy(Field(a, "postcode")) ==> r.postcode == Field(a, "postcode")
    ensures !Truthy(Field(a, "postcode")) ==> r.postcode == Str("")
    ensures r == FieldsOf(a, Field(a, "postcode"))
  {
    FieldsOf(a, Field(a, "postcode"))
  }

  /**
   * The two mappers read a record alike except for the postcode: an order's address
   * ignores `zipCode`, so a record with only a `zipCode` loses it there.
   */
  lemma MappersAgree(a: Json)
    requires !Nullish(a)
    ensures Truthy(Field(a, "postcode")) ==> MapAddress(a).value.fields == MapAddressData(a)
    ensures !Truthy(Field(a, "postcode")) && Truthy(Field(a, "zipCode")) ==>
      (&& MapAddress(a).value.fields == MapAddressData(a).(postcode := Field(a, "zipCode"))
       && MapAddressData(a).postcode == Str(""))
  {
  }

  /** `IEditAddressData`: the form's strings and its default checkbox. */
  datatype AddressData = AddressData(
    firstName: string, lastName: string, company: string, country: string, address1: string, address2: string,
    city: string, state: string, postcode: string, email: string, phone: string, default: bool)

  /** The keys of the object `mapAddressToApi` builds, in order. */
  const ApiAddressKeys := ["firstName", "lastName", "company", "country", "address1", "address2",
                           "city", "state", "postcode", "email", "phone", "isDefault"]

  /** The values `mapAddressToApi` writes under `ApiAddressKeys`, in the same order. */
  function ApiValues(d: AddressData): (r: seq<Json>)
    ensures |r| == |ApiAddressKeys|
  {
    [Str(d.firstName), Str(d.lastName), Str(d.company), Str(d.country), Str(d.address1), Str(d.address2),
     Str(d.city), Str(d.state), Str(d.postcode), Str(d.email), Str(d.phone), Bool(d.default)]
  }

  /** The API's names are twelve different keys. */
  lemma ApiKeysDistinct()
    ensures Distinct(ApiAddressKeys)
  {
  }

  /** `mapAddressToApi`: the form's fields under the API's names, `default` as `isDefault`; no key twice. */
  function MapAddressToApi(d: AddressData): (r: Json)
    ensures r.Obj? && Keys(r.props) == ApiAddressKeys && DistinctKeys(r.props)
  {
    ApiKeysDistinct();
    LookupRecord(ApiAddressKeys, ApiValues(d), 0);
    Obj(Record(ApiAddressKeys, ApiValues(d)))
  }

  /** The form's fields as the address they describe. */
  function FormFields(d: AddressData): AddressFields {
    AddressFields(Str(d.firstName), Str(d.lastName), Str(d.company), Str(d.country), Str(d.address1), Str(d.address2),
                  Str(d.city), Str(d.state), Str(d.postcode), Str(d.email), Str(d.phone))
  }

  /** Reading a key of the object `mapAddressToApi` builds. */
  lemma ApiField(d: AddressData, i: nat)
    requires i < |ApiAddressKeys|
    ensures Field(MapAddressToApi(d), ApiAddressKeys[i]) == ApiValues(d)[i]
  {
    ApiKeysDistinct();
    LookupRecord(ApiAddressKeys, ApiValues(d), i);
  }

  /** Each API name of `j` reads as the form value `mapAddressToApi` writes under it. */
  predicate HoldsApiValues(j: Json, d: AddressData) {
    forall i :: 0 <= i < |ApiAddressKeys| ==> Field(j, ApiAddressKeys[i]) == ApiValues(d)[i]
  }

  /** The object `mapAddressToApi` builds reads back every value under its name. */
  lemma ApiFields(d: AddressData)
    ensures HoldsApiValues(MapAddressToApi(d), d)
  {
    forall i | 0 <= i < |ApiAddressKeys|
      ensures Field(MapAddressToApi(d), ApiAddressKeys[i]) == ApiValues(d)[i]
    {
      ApiField(d, i);
    }
  }

  /** `j` holds the form's name fields. */
  predicate CarriesNames(j: Json, d: AddressData) {
    Field(j, "firstName") == Str(d.firstName) && Field(j, "lastName") == Str(d.lastName) && Field(j, "company") == Str(d.company)
  }

  /** `j` holds the form's street fields. */
  predicate CarriesStreet(j: Json, d: AddressData) {
    Field(j, "country") == Str(d.country) && Field(j, "address1") == Str(d.address1) && Field(j, "address2") == Str(d.address2)
  }

  /** `j` holds the form's locality fields. */
  predicate CarriesLocality(j: Json, d: AddressData) {
    Field(j, "city") == Str(d.city) && Field(j, "state") == Str(d.state) && Field(j, "postcode") == Str(d.postcode)
  }

  /** `j` holds the form's contact fields and its default flag. */
  predicate CarriesContact(j: Json, d: AddressData) {
    Field(j, "email") == Str(d.email) && Field(j, "phone") == Str(d.phone) && Field(j, "isDefault") == Bool(d.default)
  }

  /** `j` has no `id`, `street` or `zipCode` for `mapAddress` to read instead. */
  predicate CarriesNoExtras(j: Json) {
    Field(j, "id") == Undefined && Field(j, "street") == Undefined && Field(j, "zipCode") == Undefined
  }

  /** `j` holds the form's fields under the API's names, and nothing `mapAddress` would read instead. */
  predicate Carries(j: Json, d: AddressData) {
    CarriesNames(j, d) && CarriesStreet(j, d) && CarriesLocality(j, d) && CarriesContact(j, d) && CarriesNoExtras(j)
  }

  lemma ApiNames(j: Json, d: AddressData)
    requires HoldsApiValues(j, d)
    ensures CarriesNames(j, d)
  {
    assert Field(j, ApiAddressKeys[0]) == ApiValues(d)[0];
    assert Field(j, ApiAddressKeys[1]) == ApiValues(d)[1];
    assert Field(j, ApiAddressKeys[2]) == ApiValues(d)[2];
  }

  lemma ApiStreet(j: Json, d: AddressData)
    requires HoldsApiValues(j, d)
    ensures CarriesStreet(j, d)
  {
    assert Field(j, ApiAddressKeys[3]) == ApiValues(d)[3];
    assert Field(j, ApiAddressKeys[4]) == ApiValues(d)[4];
    assert Field(j, ApiAddressKeys[5]) == ApiValues(d)[5];
  }

  lemma ApiLocality(j: Json, d: AddressData)
    requires HoldsApiValues(j, d)
    ensures CarriesLocality(j, d)
  {
    assert Field(j, ApiAddressKeys[6]) == ApiValues(d)[6];
    assert Field(j, ApiAddressKeys[7]) == ApiValues(d)[7];
    assert Field(j, ApiAddressKeys[8]) == ApiValues(d)[8];
  }

  lemma ApiContact(j: Json, d: AddressData)
    requires HoldsApiValues(j, d)
    ensures CarriesContact(j, d)
  {
    assert Field(j, ApiAddressKeys[9]) == ApiValues(d)[9];
    assert Field(j, ApiAddressKeys[10]) == ApiValues(d)[10];
    assert Field(j, ApiAddressKeys[11]) == ApiValues(d)[11];
  }

  lemma ApiNoExtras(d: AddressData)
    ensures CarriesNoExtras(MapAddressToApi(d))
  {
    ApiMissing(d, "id");
    ApiMissing(d, "street");
    ApiMissing(d, "zipCode");
  }

  /** A key the object `mapAddressToApi` builds does not have reads as `undefined`. */
  lemma ApiMissing(d: AddressData, k: string)
    requires k !in ApiAddressKeys
    ensures Field(MapAddressToApi(d), k) == Undefined
  {
    assert k !in Keys(MapAddressToApi(d).props);
  }

  /** `s || ''` and `s || undefined || ''` give back the string `s`, empty or not. */
  lemma OrEmpty(s: string)
    ensures Or(Str(s), Str("")) == Str(s) && Or(Or(Str(s), Undefined), Str("")) == Str(s)
  {
  }

  /** `mapAddress` reads back the form from any record that carries it. */
  lemma MapCarried(j: Json, d: AddressData)
    requires !Nullish(j) && Carries(j, d)
    ensures MapAddress(j) == Some(Address(Undefined, FormFields(d), Bool(d.default)))
  {
    var postcode := Or(Field(j, "postcode"), Field(j, "zipCode"));
    assert FieldsOf(j, postcode) == FormFields(d) by {
      OrEmpty(d.address1);
      OrEmpty(d.postcode);
    }
  }

  /**
   * The address round trip: an address sent with `mapAddressToApi` and read back with
   * `mapAddress` keeps every string field, even empty ones, and its default flag; it has
   * no `id` until the server gives it one.
   */
  lemma AddressRoundTrip(d: AddressData)
    ensures MapAddress(MapAddressToApi(d)) == Some(Address(Undefined, FormFields(d), Bool(d.default)))
  {
    var j := MapAddressToApi(d);
    ApiFields(d);
    ApiNames(j, d);
    ApiStreet(j, d);
    ApiLocality(j, d);
    ApiContact(j, d);
    ApiNoExtras(d);
    MapCarried(j, d);
  }

  /** `(res || []).map(mapAddress)`: `None` when the reply is neither falsy nor an array, or holds a nullish entry. */
  function GetAddresses(res: Json): (r: Option<seq<Address>>)
    ensures r.Some? <==> ArrayOr(res).Some? && forall i :: 0 <= i < |ArrayOr(res).value| ==> !Nullish(ArrayOr(res).value[i])
    ensures r.Some? ==>
      (&& |r.value| == |ArrayOr(res).value|
       && forall i :: 0 <= i < |r.value| ==> Some(r.value[i]) == MapAddress(ArrayOr(res).value[i]))
    ensures !Truthy(res) ==> r == Some([])
  {
    match ArrayOr(res)
    case None => None
    case Some(items) =>
      if forall i :: 0 <= i < |items| ==> !Nullish(items[i]) then
        Some(seq(|items|, i requires 0 <= i < |items| => MapAddress(items[i]).value))
      else None
  }

  /** The position of the first address whose `default` is truthy. */
  function FirstDefault(addresses: seq<Address>): (r: Option<nat>)
    ensures r.None? <==> forall i :: 0 <= i < |addresses| ==> !Truthy(addresses[i].default)
    ensures r.Some? ==>
      (&& r.value < |addresses| && Truthy(addresses[r.value].default)
       && forall i :: 0 <= i < r.value ==> !Truthy(addresses[i].default))
  {
    if |addresses| == 0 then None
    else if Truthy(addresses[0].default) then Some(0)
    else match FirstDefault(addresses[1..])
      case None => None
      case Some(i) => Some(i + 1)
  }

  /** `getDefaultAddress`: `addresses.find((a) => a.default) || addresses[0] || null`. */
  function DefaultAddress(addresses: seq<Address>): (r: Option<Address>)
    ensures r.None? <==> |addresses| == 0
    ensures r.Some? ==> r.value in addresses
  {
    match FirstDefault(addresses)
    case Some(i) => Some(addresses[i])
    case None => if |addresses| > 0 then Some(addresses[0]) else None
  }

  /**
   * The default address is the first one flagged default; with none flagged it is the
   * first address.
   */
  lemma DefaultAddressChoice(addresses: seq<Address>)
    ensures forall i ::
      (0 <= i < |addresses| && Truthy(addresses[i].default) && forall m :: 0 <= m < i ==> !Truthy(addresses[m].default)) ==>
      DefaultAddress(addresses) == Some(addresses[i])
    ensures (forall i :: 0 <= i < |addresses| ==> !Truthy(addresses[i].default)) && |addresses| > 0 ==>
      DefaultAddress(addresses) == Some(addresses[0])
    ensures DefaultAddress(addresses).Some? && (exists i :: 0 <= i < |addresses| && Truthy(addresses[i].default)) ==>
      Truthy(DefaultAddress(addresses).value.default)
  {
  }

  /** The message `getAddress` throws. */
  const AddressNotFound := "Address not found"

  /** `getAddress`: the first address whose `id` is strictly equal to the number asked for. */
  function GetAddress(addresses: seq<Address>, id: int): (r: Result<Address, string>)
    ensures r.Err? <==> forall i :: 0 <= i < |addresses| ==> addresses[i].id != Num(id)
    ensures r.Err? ==> r.error == AddressNotFound
    ensures r.Ok? ==>
      (&& r.value.id == Num(id)
       && exists i :: 0 <= i < |addresses| && addresses[i] == r.value && forall m :: 0 <= m < i ==> addresses[m].id != Num(id))
  {
    if |addresses| == 0 then Err(AddressNotFound)
    else if addresses[0].id == Num(id) then Ok(addresses[0])
    else
      var rest := GetAddress(addresses[1..], id);
      if rest.Ok? then
        assert addresses[1..][0] == addresses[1];
        rest
      else rest
  }

  // ---------------------------------------------------------------------------
  // Orders
  // ---------------------------------------------------------------------------

  /** What `getOrdersList` keeps of an order line. */
  datatype OrderItem = OrderItem(productId: Json, name: Json, price: Number, quantity: Json, total: Number)

  /** One row of `totals`. */
  datatype Total = Total(title: string, price: Number)

  /** The value a `+` chain builds: a number until a string joins it, a string after. */
  datatype Sum = NumSum(n: Number) | TextSum(s: string)

  datatype Order = Order(
    id: Json, token: Json, number: Json, createdAt: Json, payment: Json, status: string,
    items: seq<OrderItem>, quantity: Sum, subtotal: Number, totals: seq<Total>, total: Number,
    shippingAddress: AddressFields, billingAddress: AddressFields)

  /** `String(n)` for a number. */
  function NumberString(n: Number): string {
    if n.NaN? then "NaN" else IntToString(n.v)
  }

  /**
   * `acc + j` for the quantity reduce: a string, array, object or function operand turns the
   * sum into text; anything else is added as a number.
   */
  function Plus(acc: Sum, j: Json): (r: Sum)
    ensures acc.TextSum? ==> r.TextSum?
    ensures acc.NumSum? && j.Num? ==> r == NumSum(Add(acc.n, Finite(j.n)))
  {
    match acc
    case TextSum(s) => TextSum(s + JsString(j))
    case NumSum(n) =>
      if j.Str? || j.Arr? || j.Obj? || j.Func? then TextSum(NumberString(n) + JsString(j))
      else NumSum(Add(n, ToNumber(j)))
  }

  /** `items.reduce((sum, i) => sum + i.quantity, 0)`, folding from the left. */
  function QuantityOf(items: seq<Json>): Sum
    decreases |items|
  {
    if |items| == 0 then NumSum(Finite(0))
    else Plus(QuantityOf(items[..|items| - 1]), Field(items[|items| - 1], "quantity"))
  }

  /** The arithmetic sum of numeric quantities. */
  function QuantityTotal(items: seq<Json>): int
    requires forall i :: 0 <= i < |items| ==> Field(items[i], "quantity").Num?
    decreases |items|
  {
    if |items| == 0 then 0
    else QuantityTotal(items[..|items| - 1]) + Field(items[|items| - 1], "quantity").n
  }

  /** With numeric quantities the order's quantity is their sum. */
  lemma {:induction false} QuantityIsSum(items: seq<Json>)
    requires forall i :: 0 <= i < |items| ==> Field(items[i], "quantity").Num?
    ensures QuantityOf(items) == NumSum(Finite(QuantityTotal(items)))
    decreases |items|
  {
    if |items| > 0 {
      QuantityIsSum(items[..|items| - 1]);
    }
  }

  /** Once a quantity is a string, the rest of the reduce concatenates: the quantity is text. */
  lemma {:induction false} TextQuantityStaysText(items: seq<Json>, k: nat)
    requires k < |items| && Field(items[k], "quantity").Str?
    ensures QuantityOf(items).TextSum?
    decreases |items|
  {
    if k < |items| - 1 {
      TextQuantityStaysText(items[..|items| - 1], k);
    }
  }

  /** `Number(x || 0)`: a missing fee counts as 0. */
  function Fee(x: Json): (r: Number)
    ensures !Truthy(x) ==> r == Finite(0)
    ensures x.Num? ==> r == Finite(x.n)
  {
    ToNumber(Or(x, Num(0)))
  }

  /** `totals`: exactly shipping then tax. */
  function Totals(o: Json): (r: seq<Total>)
    ensures |r| == 2 && r[0].title == "Shipping" && r[1].title == "Tax"
    ensures r[0].price == Fee(Field(o, "shippingFee")) && r[1].price == Fee(Field(o, "tax"))
  {
    [Total("Shipping", Fee(Field(o, "shippingFee"))), Total("Tax", Fee(Field(o, "tax")))]
  }

  /**
   * The product part of a line throws a `TypeError`: `description?.slice` on a value that is
   * neither a string nor an array, `images?.map` on a value that is not an array, or
   * `img.url` on a nullish image.
   */
  predicate ProductThrows(product: Json) {
    var d := Field(product, "description");
    var images := Field(product, "images");
    || (!Nullish(d) && !d.Str? && !d.Arr?)
    || (!Nullish(images) && !images.Arr?)
    || (images.Arr? && exists i :: 0 <= i < |images.items| && Nullish(images.items[i]))
  }

  /** One line of `items`; reading a field of a nullish line throws, and so may its product. */
  function MapOrderItem(item: Json): (r: Option<OrderItem>)
    ensures r.None? <==> Nullish(item) || ProductThrows(Field(item, "product"))
    ensures r.Some? && Truthy(Field(Field(item, "product"), "id")) ==> r.value.productId == Field(Field(item, "product"), "id")
    ensures r.Some? && !Truthy(Field(Field(item, "product"), "id")) ==> r.value.productId == Field(item, "productId")
    ensures r.Some? ==> OrElse(r.value.name, Field(Field(item, "product"), "name"), Str(""))
    ensures r.Some? ==> r.value.price == ToNumber(Field(item, "price")) && r.value.quantity == Field(item, "quantity")
    ensures r.Some? ==> r.value.total == ToNumber(Field(item, "total"))
  {
    if Nullish(item) || ProductThrows(Field(item, "product")) then None
    else
      var product := Field(item, "product");
      Some(OrderItem(
        Or(Field(product, "id"), Field(item, "productId")),
        Or(Field(product, "name"), Str("")),
        ToNumber(Field(item, "price")),
        Field(item, "quantity"),
        ToNumber(Field(item, "total"))))
  }

  /** `items.map(mapOrderItem)` over lines none of which throws. */
  function OrderItems(lines: seq<Json>): (r: seq<OrderItem>)
    requires forall i :: 0 <= i < |lines| ==> MapOrderItem(lines[i]).Some?
    ensures |r| == |lines| && forall i :: 0 <= i < |lines| ==> Some(r[i]) == MapOrderItem(lines[i])
  {
    seq(|lines|, i requires 0 <= i < |lines| => MapOrderItem(lines[i]).value)
  }

  /** `o.status?.toLowerCase() || 'pending'`; a status that is not a string has no `toLowerCase` and throws. */
  function Status(status: Json): (r: Option<string>)
    ensures r.None? <==> !Nullish(status) && !status.Str?
    ensures r.Some? ==> r.value != ""
    ensures status.Str? && status.s != "" ==> r == Some(ToLower(status.s))
  {
    if Nullish(status) then Some("pending")
    else if status.Str? then
      var lower := ToLower(status.s);
      Some(if lower != "" then lower else "pending")
    else None
  }

  /** `mapOrder`; `None` is one of the TypeErrors it can throw. */
  function MapOrder(o: Json): (r: Option<Order>)
    ensures r.Some? <==>
      && !Nullish(o)
      && Status(Field(o, "status")).Some?
      && ArrayOr(Field(o, "items")).Some?
      && forall i :: 0 <= i < |ArrayOr(Field(o, "items")).value| ==> MapOrderItem(ArrayOr(Field(o, "items")).value[i]).Some?
    ensures r.Some? ==>
      && r.value.id == Field(o, "id")
      && OrElse(r.value.createdAt, Field(o, "createdAt"), Str(""))
      && OrElse(r.value.payment, Field(Field(o, "payment"), "method"), Str("unknown"))
      && Some(r.value.status) == Status(Field(o, "status"))
      && r.value.subtotal == ToNumber(Field(o, "subtotal"))
      && r.value.total == ToNumber(Field(o, "total"))
      && (Truthy(Field(o, "address")) ==> r.value.shippingAddress == MapAddressData(Field(o, "address")))
    ensures r.Some? ==>
      var lines := ArrayOr(Field(o, "items")).value;
      && |r.value.items| == |lines|
      && (forall i :: 0 <= i < |lines| ==> Some(r.value.items[i]) == MapOrderItem(lines[i]))
      && r.value.quantity == QuantityOf(lines)
      && r.value.totals == Totals(o)
      && r.value.shippingAddress == r.value.billingAddress
      && (!Truthy(Field(o, "address")) ==> r.value.shippingAddress == EmptyAddress)
  {
    if Nullish(o) then None
    else match Status(Field(o, "status"))
      case None => None
      case Some(status) =>
        match ArrayOr(Field(o, "items"))
        case None => None
        case Some(lines) =>
          if !(forall i :: 0 <= i < |lines| ==> MapOrderItem(lines[i]).Some?) then None
          else
            var address := if Truthy(Field(o, "address")) then MapAddressData(Field(o, "address")) else EmptyAddress;
            Some(Order(
              Field(o, "id"),
              Or(Field(o, "orderNumber"), Field(o, "id")),
              Or(Field(o, "orderNumber"), Str("")),
              Or(Field(o, "createdAt"), Str("")),
              Or(Field(Field(o, "payment"), "method"), Str("unknown")),
              status,
              OrderItems(lines),
              QuantityOf(lines),
              ToNumber(Field(o, "subtotal")),
              Totals(o),
              ToNumber(Field(o, "total")),
              address,
              address))
  }

  /** An order without a number is known by its `id`; its displayed number is then empty. */
  lemma OrderToken(o: Json)
    requires MapOrder(o).Some?
    ensures !Truthy(Field(o, "orderNumber")) ==> MapOrder(o).value.token == Field(o, "id") && MapOrder(o).value.number == Str("")
    ensures Truthy(Field(o, "orderNumber")) ==> MapOrder(o).value.token == Field(o, "orderNumber") == MapOrder(o).value.number
  {
  }

  /** `(res.data || []).map(mapOrder)`; reading `data` of a nullish reply throws. */
  function DataOrders(res: Json): (r: Option<seq<Order>>)
    ensures r.Some? <==>
      && !Nullish(res) && ArrayOr(Field(res, "data")).Some?
      && forall i :: 0 <= i < |ArrayOr(Field(res, "data")).value| ==> MapOrder(ArrayOr(Field(res, "data")).value[i]).Some?
    ensures r.Some? ==>
      var data := ArrayOr(Field(res, "data")).value;
      && |r.value| == |data|
      && forall i :: 0 <= i < |data| ==> Some(r.value[i]) == MapOrder(data[i])
  {
    match Get(res, "data")
    case None => None
    case Some(d) =>
      match ArrayOr(d)
      case None => None
      case Some(items) =>
        if forall i :: 0 <= i < |items| ==> MapOrder(items[i]).Some? then
          Some(seq(|items|, i requires 0 <= i < |items| => MapOrder(items[i]).value))
        else None
  }

  /** The query `getOrdersList` sends: `page`, `limit` and `sortBy` from the options. */
  method OrdersListParams(options: Json) returns (r: seq<Param>)
    ensures DistinctParams(r)
    ensures forall k :: ValueOf(r, k) == ListOptionParam(options, k)
  {
    var params := new UrlSearchParams();
    SetListOptions(params, options);
    r := params.pairs;
  }

  datatype OrdersList = OrdersList(items: seq<Order>, sort: Json, navigation: Navigation)

  /** `getOrdersList` after the request: the orders, the sort, and the navigation from `res.meta`. */
  function OrdersListResult(options: Json, res: Json): (r: Option<OrdersList>)
    ensures r.Some? <==> DataOrders(res).Some?
    ensures r.Some? ==>
      (&& r.value.items == DataOrders(res).value
       && r.value.navigation == PageNavigation(Field(res, "meta"))
       && OrElse(r.value.sort, Field(options, "sort"), Str("default")))
  {
    match DataOrders(res)
    case None => None
    case Some(items) => Some(OrdersList(items, Or(Field(options, "sort"), Str("default")), PageNavigation(Field(res, "meta"))))
  }

  /**
   * The orders navigation for a numeric `meta`: `from = (page - 1) * limit + 1` and
   * `to = min(page * limit, total)`, bounded as on any other paged list.
   */
  lemma OrdersWindow(options: Json, res: Json, page: int, limit: int, total: int)
    requires OrdersListResult(options, res).Some?
    requires page >= 1 && limit >= 1 && (page - 1) * limit < total
    requires var meta := Field(res, "meta");
      Field(meta, "page") == Num(page) && Field(meta, "limit") == Num(limit) && Field(meta, "total") == Num(total)
    ensures var n := OrdersListResult(options, res).value.navigation;
      && n.from == Finite((page - 1) * limit + 1)
      && n.to == Finite(if page * limit < total then page * limit else total)
      && 1 <= n.from.v <= n.to.v <= total
  {
    MetaWindow(Field(res, "meta"), page, limit, total);
  }
}
