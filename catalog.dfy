/**
 * The record shapes the storefront receives from its API
 * (src/lib/interfaces.ts), reduced to the fields the modelled logic reads.
 * Prices are whole tugriks.
 */
module Catalog {
  import opened Wrappers

  /** An attribute name with the values it takes. */
  datatype Attribute = Attribute(name: string, values: seq<string>)

  /** The product a variant belongs to. */
  datatype ProductShort = ProductShort(name: string, slug: string, maxLimit: Option<int>)

  /** A variant as `/variant/list/` returns it. */
  datatype VariantFull = VariantFull(
    sku: string,
    price: int,
    inventory: Option<int>,
    discountPrice: Option<int>,
    product: Option<ProductShort>)

  /** A variant as it appears inside a product. */
  datatype ProductVariant = ProductVariant(sku: string, price: int, discountPrice: Option<int>)

  datatype Product = Product(name: string, slug: string, variants: seq<ProductVariant>)

  /** A process an order goes through, with its display name. */
  datatype Process = Process(name: string, code: string)

  datatype MenuChild = MenuChild(url: string, title: string)

  datatype MenuEntry = MenuEntry(id: int, url: string, title: string, children: seq<MenuChild>, isParent: bool)

  /** The store settings the cart summary and the account page read. */
  datatype StoreSettings = StoreSettings(
    processes: seq<Process>,
    menu: seq<MenuEntry>,
    deliveryFeeEnabled: bool,
    deliveryFeeThreshold: Option<int>,
    deliveryFee: Option<int>,
    paymentSystemEnabled: bool)

  /** The settings in force before the store setup has loaded. */
  const PlaceholderSettings := StoreSettings([], [], true, None, None, true)

  datatype UserProfile = UserProfile(
    name: string,
    email: string,
    isBusiness: bool,
    ttd: string,
    consumerNo: string,
    phoneNumbers: string)

  datatype UserAddress = UserAddress(
    id: string,
    code: string,
    point: string,
    city: string,
    district: string,
    khoroo: string,
    description: string)

  /** The effective price of a variant: its discount price when it has one. */
  function EffectivePrice(price: int, discountPrice: Option<int>): (p: int)
    ensures discountPrice.Some? ==> p == discountPrice.value
    ensures discountPrice.None? ==> p == price
  {
    discountPrice.GetOr(price)
  }

  /** `list.find(v => v.sku === sku)` over variants. */
  function FindVariant(vs: seq<VariantFull>, sku: string): (r: Option<VariantFull>)
    ensures r.Some? ==> r.value in vs && r.value.sku == sku
    ensures r.None? <==> forall k | 0 <= k < |vs| :: vs[k].sku != sku
    ensures r.Some? ==> exists k | 0 <= k < |vs| :: vs[k] == r.value && forall j | 0 <= j < k :: vs[j].sku != sku
  {
    if |vs| == 0 then None
    else if vs[0].sku == sku then Some(vs[0])
    else
      var r := FindVariant(vs[1..], sku);
      assert r.Some? ==> exists k | 0 <= k < |vs[1..]| :: vs[1..][k] == r.value && forall j | 0 <= j < k :: vs[1..][j].sku != sku;
      if r.Some? then
        var k :| 0 <= k < |vs[1..]| && vs[1..][k] == r.value && forall j | 0 <= j < k :: vs[1..][j].sku != sku;
        assert vs[k + 1] == r.value && forall j | 0 <= j < k + 1 :: vs[j].sku != sku;
        r
      else r
  }
}
