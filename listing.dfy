/**
 * The product listing page (src/components/listing/ProductListing.tsx): the
 * filters are read from and written to the page's query string, the price
 * summary of a product is computed from its variants, and attribute values
 * are toggled in and out of the selection.
 */
module Listing {
  import opened Wrappers
  import opened Strings
  import opened JsNumber
  import opened Catalog

  /** The query-string names the page reads or writes. */
  datatype ParamName = Discounted | IsFeatured | IsNew | OrderBy | PriceLow | PriceHigh | AttributeFilters | Query

  /** The name as it is spelled in the query string. */
  function NameText(n: ParamName): string {
    match n
    case Discounted => "discounted"
    case IsFeatured => "isFeatured"
    case IsNew => "isNew"
    case OrderBy => "orderBy"
    case PriceLow => "priceLow"
    case PriceHigh => "priceHigh"
    case AttributeFilters => "attribute_filters"
    case Query => "query"
  }

  /** Distinct names are spelled differently, so a query string is read faithfully by name. */
  lemma NameTextInjective(a: ParamName, b: ParamName)
    ensures NameText(a) == NameText(b) ==> a == b
  {
  }

  /**
   * A query string as `URLSearchParams.get` reads it: for each of the page's
   * names, the value of its first occurrence, or nothing. Other names are
   * never read. A `URLSearchParams` that is only ever written with `set`
   * holds each name at most once.
   */
  datatype Params = Params(
    discounted: Option<string>,
    isFeatured: Option<string>,
    isNew: Option<string>,
    orderBy: Option<string>,
    priceLow: Option<string>,
    priceHigh: Option<string>,
    attributeFilters: Option<string>,
    query: Option<string>)

  /** `new URLSearchParams()`. */
  const NO_PARAMS := Params(None, None, None, None, None, None, None, None)

  /** `params.get(name)`: `null` when the name does not occur. */
  function ParamGet(p: Params, name: ParamName): Option<string> {
    match name
    case Discounted => p.discounted
    case IsFeatured => p.isFeatured
    case IsNew => p.isNew
    case OrderBy => p.orderBy
    case PriceLow => p.priceLow
    case PriceHigh => p.priceHigh
    case AttributeFilters => p.attributeFilters
    case Query => p.query
  }

  /** `params.set(name, value)`: the name now occurs once, with that value. */
  function ParamSet(p: Params, name: ParamName, value: string): (r: Params)
    ensures ParamGet(r, name) == Some(value)
    ensures forall other | other != name :: ParamGet(r, other) == ParamGet(p, other)
  {
    match name
    case Discounted => p.(discounted := Some(value))
    case IsFeatured => p.(isFeatured := Some(value))
    case IsNew => p.(isNew := Some(value))
    case OrderBy => p.(orderBy := Some(value))
    case PriceLow => p.(priceLow := Some(value))
    case PriceHigh => p.(priceHigh := Some(value))
    case AttributeFilters => p.(attributeFilters := Some(value))
    case Query => p.(query := Some(value))
  }

  /** An attribute name and value; a piece without `:` reads back with an undefined value. */
  datatype Selection = Selection(attribute: string, value: Option<string>)

  /** The filters the page keeps in its state and in its query string. */
  datatype UrlFilters = UrlFilters(
    discounted: bool,
    isFeatured: bool,
    isNew: bool,
    orderBy: Option<string>,
    priceLow: Option<Num>,
    priceHigh: Option<Num>,
    attributeFilters: seq<Selection>)

  /** How a template literal prints the value: an undefined one prints as `undefined`. */
  function ValueText(v: Option<string>): string {
    match v
    case Some(s) => s
    case None => "undefined"
  }

  /** `` `${a.attribute}:${a.value}` ``. */
  function PairText(a: Selection): string {
    a.attribute + ":" + ValueText(a.value)
  }

  function PairTexts(s: seq<Selection>): (r: seq<string>)
    ensures |r| == |s| && forall k | 0 <= k < |s| :: r[k] == PairText(s[k])
  {
    if |s| == 0 then [] else [PairText(s[0])] + PairTexts(s[1..])
  }

  /** `const [attribute, value] = pair.split(":")`. */
  function ParsePair(piece: string): Selection {
    var parts := Split(piece, ':');
    Selection(parts[0], if |parts| >= 2 then Some(parts[1]) else None)
  }

  function ParsePairs(pieces: seq<string>): (r: seq<Selection>)
    ensures |r| == |pieces| && forall k | 0 <= k < |pieces| :: r[k] == ParsePair(pieces[k])
  {
    if |pieces| == 0 then [] else [ParsePair(pieces[0])] + ParsePairs(pieces[1..])
  }

  /** `params.get(name) ? parseInt(params.get(name)!) : null`. */
  function ParsePrice(v: Option<string>): Option<Num> {
    if v.Some? && v.value != "" then Some(ParseInt(v.value)) else None
  }

  /** `parseURLFilters()` over the entries of the query string. */
  function ParseUrlFilters(p: Params): UrlFilters {
    UrlFilters(
      ParamGet(p, Discounted) == Some("true"),
      ParamGet(p, IsFeatured) == Some("true"),
      ParamGet(p, IsNew) == Some("true"),
      ParamGet(p, OrderBy),
      ParsePrice(ParamGet(p, PriceLow)),
      ParsePrice(ParamGet(p, PriceHigh)),
      match ParamGet(p, AttributeFilters)
      case Some(v) => ParsePairs(Split(v, ','))
      case None => [])
  }

  /**
   * What `updateURLParams` writes: each flag only when it is true, the
   * ordering only when it is non-empty, each price whenever it is not
   * `null` (0 included), the attributes (`attr:value` joined by `,`) only
   * when there are some, the search query only when it is non-empty, and
   * nothing else.
   */
  predicate Written(p: Params, f: UrlFilters, query: Option<string>) {
    ParamGet(p, Discounted) == (if f.discounted then Some("true") else None) &&
    ParamGet(p, IsFeatured) == (if f.isFeatured then Some("true") else None) &&
    ParamGet(p, IsNew) == (if f.isNew then Some("true") else None) &&
    ParamGet(p, OrderBy) == (if f.orderBy == Some("") then None else f.orderBy) &&
    ParamGet(p, PriceLow) == (if f.priceLow.Some? then Some(NumToString(f.priceLow.value)) else None) &&
    ParamGet(p, PriceHigh) == (if f.priceHigh.Some? then Some(NumToString(f.priceHigh.value)) else None) &&
    ParamGet(p, AttributeFilters) ==
      (if |f.attributeFilters| > 0 then Some(Join(PairTexts(f.attributeFilters), ',')) else None) &&
    ParamGet(p, Query) == (if query == Some("") then None else query)
  }

  /**
   * The first four `set` calls of `updateURLParams`, on an empty
   * `URLSearchParams`: the three flags and the ordering.
   */
  method WriteFlagParams(f: UrlFilters) returns (params: Params)
    ensures ParamGet(params, Discounted) == (if f.discounted then Some("true") else None)
    ensures ParamGet(params, IsFeatured) == (if f.isFeatured then Some("true") else None)
    ensures ParamGet(params, IsNew) == (if f.isNew then Some("true") else None)
    ensures ParamGet(params, OrderBy) == (if f.orderBy == Some("") then None else f.orderBy)
    ensures params.priceLow == None && params.priceHigh == None && params.attributeFilters == None && params.query == None
  {
    params := NO_PARAMS;
    if f.discounted { params := params.(discounted := Some("true")); }
    if f.isFeatured { params := params.(isFeatured := Some("true")); }
    if f.isNew { params := params.(isNew := Some("true")); }
    if f.orderBy.Some? && f.orderBy.value != "" { params := params.(orderBy := Some(f.orderBy.value)); }
  }

  /**
   * The remaining `set` calls of `updateURLParams`: the two prices, the
   * attributes and the search query, leaving the flags and the ordering as
   * they were.
   */
  method WriteValueParams(p: Params, f: UrlFilters, query: Option<string>) returns (params: Params)
    requires p.priceLow == None && p.priceHigh == None && p.attributeFilters == None && p.query == None
    ensures params.discounted == p.discounted && params.isFeatured == p.isFeatured && params.isNew == p.isNew && params.orderBy == p.orderBy
    ensures ParamGet(params, PriceLow) == (if f.priceLow.Some? then Some(NumToString(f.priceLow.value)) else None)
    ensures ParamGet(params, PriceHigh) == (if f.priceHigh.Some? then Some(NumToString(f.priceHigh.value)) else None)
    ensures ParamGet(params, AttributeFilters) == (if |f.attributeFilters| > 0 then Some(Join(PairTexts(f.attributeFilters), ',')) else None)
    ensures ParamGet(params, Query) == (if query == Some("") then None else query)
  {
    params := p;
    if f.priceLow.Some? { params := params.(priceLow := Some(NumToString(f.priceLow.value))); }
    if f.priceHigh.Some? { params := params.(priceHigh := Some(NumToString(f.priceHigh.value))); }
    if |f.attributeFilters| > 0 {
      var attrParam := Join(PairTexts(f.attributeFilters), ',');
      params := params.(attributeFilters := Some(attrParam));
    }
    if query.Some? && query.value != "" { params := params.(query := Some(query.value)); }
  }

  /**
   * The debounced body of `updateURLParams`: `params` is built by successive
   * `set` calls on an empty `URLSearchParams`; the navigation itself is left
   * to the router.
   */
  method UpdateUrlParams(f: UrlFilters, query: Option<string>) returns (params: Params)
    ensures Written(params, f, query)
  {
    params := WriteFlagParams(f);
    params := WriteValueParams(params, f, query);
  }

  lemma NumToStringNonEmpty(x: Num)
    ensures NumToString(x) != ""
  {
    if x.Int? && x.i >= 0 {
      assert |NatToString(x.i)| >= 1;
    }
  }

  /** `attr:value` splits back into the attribute and the value when neither holds a `:`. */
  lemma ParsePairText(a: Selection)
    requires a.value.Some? && ':' !in a.attribute && ':' !in a.value.value
    ensures ParsePair(PairText(a)) == a
  {
    SplitAtSeparator(a.attribute, a.value.value, ':');
    SplitNoSeparator(a.value.value, ':');
    assert a.attribute + ":" + a.value.value == a.attribute + [':'] + a.value.value;
  }

  /** The selections that survive a write and a read: no `,` or `:` inside, and a defined value. */
  predicate Serializable(s: seq<Selection>) {
    forall k | 0 <= k < |s| ::
      s[k].value.Some? &&
      ',' !in s[k].attribute && ',' !in s[k].value.value &&
      ':' !in s[k].attribute && ':' !in s[k].value.value
  }

  /**
   * Reading back what `updateURLParams` writes gives the same filters, for
   * every query, when the ordering is not the empty string and every
   * selection is serialisable.
   */
  lemma ParseWritten(p: Params, f: UrlFilters, query: Option<string>)
    requires Written(p, f, query)
    requires f.orderBy != Some("")
    requires Serializable(f.attributeFilters)
    ensures ParseUrlFilters(p) == f
  {
    if f.priceLow.Some? {
      NumToStringNonEmpty(f.priceLow.value);
      ParseIntOfNumToString(f.priceLow.value);
    }
    if f.priceHigh.Some? {
      NumToStringNonEmpty(f.priceHigh.value);
      ParseIntOfNumToString(f.priceHigh.value);
    }
    var s := f.attributeFilters;
    if |s| > 0 {
      var texts := PairTexts(s);
      forall k | 0 <= k < |texts| ensures ',' !in texts[k] {
        assert texts[k] == s[k].attribute + ":" + s[k].value.value;
      }
      SplitJoin(texts, ',');
      forall k | 0 <= k < |s| ensures ParsePairs(texts)[k] == s[k] {
        ParsePairText(s[k]);
      }
      assert ParsePairs(texts) == s;
    }
  }

  /** The `query` entry is never read back: it does not change the parsed filters. */
  lemma QueryIgnored(p1: Params, p2: Params, f: UrlFilters, q1: Option<string>, q2: Option<string>)
    requires Written(p1, f, q1) && Written(p2, f, q2)
    ensures ParseUrlFilters(p1) == ParseUrlFilters(p2)
  {
  }

  /** `Math.min(...s)` of a non-empty list. */
  function Min(s: seq<int>): (m: int)
    requires |s| > 0
    ensures m in s && forall k | 0 <= k < |s| :: m <= s[k]
  {
    if |s| == 1 then s[0]
    else
      var m := Min(s[1..]);
      assert forall k | 1 <= k < |s| :: s[k] == s[1..][k - 1];
      if s[0] <= m then s[0] else m
  }

  /** `Math.max(...s)` of a non-empty list. */
  function Max(s: seq<int>): (m: int)
    requires |s| > 0
    ensures m in s && forall k | 0 <= k < |s| :: s[k] <= m
  {
    if |s| == 1 then s[0]
    else
      var m := Max(s[1..]);
      assert forall k | 1 <= k < |s| :: s[k] == s[1..][k - 1];
      if s[0] >= m then s[0] else m
  }

  /** A value `Math.round((1 - d / p) * 100)` can take: an integer, an infinity, or `NaN`. */
  datatype SalePercent = Finite(n: int) | PlusInfinity | MinusInfinity | NotANumber

  /** The order `Math.max` compares by on values that are not `NaN`: the infinities at either end. */
  predicate AtMost(a: SalePercent, b: SalePercent) {
    a.MinusInfinity? || b.PlusInfinity? || (a.Finite? && b.Finite? && a.n <= b.n)
  }

  /** `Math.max(...s)`: `NaN` exactly when some element is, and otherwise an element at least every other. */
  function MaxSale(s: seq<SalePercent>): (m: SalePercent)
    requires |s| > 0
    ensures m.NotANumber? <==> NotANumber in s
    ensures !m.NotANumber? ==> m in s && forall k | 0 <= k < |s| :: AtMost(s[k], m)
  {
    if |s| == 1 then s[0]
    else
      var m := MaxSale(s[1..]);
      assert forall k | 1 <= k < |s| :: s[k] == s[1..][k - 1];
      if s[0].NotANumber? || m.NotANumber? then NotANumber
      else if AtMost(m, s[0]) then s[0] else m
  }

  /** `variants.map(v => v.price)`. */
  function ListPrices(vs: seq<ProductVariant>): (r: seq<int>)
    ensures |r| == |vs| && forall k | 0 <= k < |vs| :: r[k] == vs[k].price
  {
    if |vs| == 0 then [] else [vs[0].price] + ListPrices(vs[1..])
  }

  /** `variants.filter(v => v.discount_price != null)`. */
  function DiscountedVariants(vs: seq<ProductVariant>): (r: seq<ProductVariant>)
    ensures forall k | 0 <= k < |r| :: r[k] in vs && r[k].discountPrice.Some?
    ensures forall k | 0 <= k < |vs| :: vs[k].discountPrice.Some? ==> vs[k] in r
  {
    if |vs| == 0 then []
    else
      var rest := DiscountedVariants(vs[1..]);
      assert forall k | 1 <= k < |vs| :: vs[k] == vs[1..][k - 1];
      if vs[0].discountPrice.Some? then [vs[0]] + rest else rest
  }

  /** `variants.filter(v => v.discount_price == null)`. */
  function UndiscountedVariants(vs: seq<ProductVariant>): (r: seq<ProductVariant>)
    ensures forall k | 0 <= k < |r| :: r[k] in vs && r[k].discountPrice.None?
    ensures forall k | 0 <= k < |vs| :: vs[k].discountPrice.None? ==> vs[k] in r
  {
    if |vs| == 0 then []
    else
      var rest := UndiscountedVariants(vs[1..]);
      assert forall k | 1 <= k < |vs| :: vs[k] == vs[1..][k - 1];
      if vs[0].discountPrice.None? then [vs[0]] + rest else rest
  }

  /** `discounted.map(v => v.discount_price!)`. */
  function DiscountPrices(ds: seq<ProductVariant>): (r: seq<int>)
    requires forall k | 0 <= k < |ds| :: ds[k].discountPrice.Some?
    ensures |r| == |ds| && forall k | 0 <= k < |ds| :: r[k] == ds[k].discountPrice.value
  {
    if |ds| == 0 then [] else [ds[0].discountPrice.value] + DiscountPrices(ds[1..])
  }

  /**
   * `Math.round((1 - d / p) * 100)`, the percentage off, over exact
   * rationals: `Math.round(x)` is `floor(x + 1/2)`. With a zero list price
   * `d / 0` is an infinity of the sign of `d`: a positive discount price
   * gives minus infinity, a negative one plus infinity, and `0 / 0` is `NaN`.
   */
  function Sale(price: int, discount: int): SalePercent {
    if price == 0 then
      if discount > 0 then MinusInfinity else if discount < 0 then PlusInfinity else NotANumber
    else
      var a := 200 * (price - discount) + price;
      var b := 2 * price;
      Finite(if b > 0 then a / b else (-a) / (-b))
  }

  /** Only `0 / 0` makes the sale `NaN`. */
  lemma SaleIsNaN(price: int, discount: int)
    ensures Sale(price, discount).NotANumber? <==> price == 0 && discount == 0
  {
  }

  /**
   * A non-zero list price gives the integer `n` with
   * `n <= 100 (p - d) / p + 1/2 < n + 1`; a zero one an infinity or `NaN`
   * by the sign of the discount price.
   */
  lemma SaleRounds(price: int, discount: int)
    ensures var r := Sale(price, discount);
      (price > 0 ==> r.Finite? && 2 * price * r.n <= 200 * (price - discount) + price < 2 * price * (r.n + 1)) &&
      (price < 0 ==> r.Finite? && 2 * price * r.n >= 200 * (price - discount) + price > 2 * price * (r.n + 1)) &&
      (price == 0 ==>
         (r.NotANumber? <==> discount == 0) && (r.MinusInfinity? <==> discount > 0) && (r.PlusInfinity? <==> discount < 0))
  {
    if price != 0 {
      var a := 200 * (price - discount) + price;
      var b := 2 * price;
      var q := Sale(price, discount).n;
      assert b > 0 ==> q == a / b && b * q <= a < b * q + b;
      assert b < 0 ==> q == (-a) / (-b) && (-b) * q <= -a < (-b) * q + (-b);
      assert b * (q + 1) == b * q + b;
    }
  }

  function Sales(ds: seq<ProductVariant>): (r: seq<SalePercent>)
    requires forall k | 0 <= k < |ds| :: ds[k].discountPrice.Some?
    ensures |r| == |ds| && forall k | 0 <= k < |ds| :: r[k] == Sale(ds[k].price, ds[k].discountPrice.value)
  {
    if |ds| == 0 then [] else [Sale(ds[0].price, ds[0].discountPrice.value)] + Sales(ds[1..])
  }

  datatype PriceInfo = PriceInfo(
    minPrice: int,
    maxPrice: int,
    lowest: int,
    highest: int,
    maxSale: Option<SalePercent>,
    hasDiscount: bool)

  /** The prices the bounds are taken over: discount prices first, then the undiscounted list prices. */
  function EffectivePrices(vs: seq<ProductVariant>): seq<int> {
    DiscountPrices(DiscountedVariants(vs)) + ListPrices(UndiscountedVariants(vs))
  }

  /** `getPriceInfo(variants)`; an empty list, on which `Math.min` gives `Infinity`, gives nothing. */
  function GetPriceInfo(vs: seq<ProductVariant>): Option<PriceInfo> {
    if |vs| == 0 then None
    else
      var ds := DiscountedVariants(vs);
      assert vs[0] in DiscountedVariants(vs) || vs[0] in UndiscountedVariants(vs);
      var effective := EffectivePrices(vs);
      Some(PriceInfo(
        Min(ListPrices(vs)),
        Max(ListPrices(vs)),
        Min(effective),
        Max(effective),
        if |ds| > 0 then Some(MaxSale(Sales(ds))) else None,
        |ds| > 0))
  }

  /** Each effective price is some variant's effective price. */
  lemma EffectivePricesFromVariants(vs: seq<ProductVariant>, i: nat)
    requires i < |EffectivePrices(vs)|
    ensures exists k | 0 <= k < |vs| :: EffectivePrices(vs)[i] == EffectivePrice(vs[k].price, vs[k].discountPrice)
  {
    var ds, us := DiscountedVariants(vs), UndiscountedVariants(vs);
    var e := EffectivePrices(vs);
    if i < |ds| {
      assert e[i] == ds[i].discountPrice.value;
      var k :| 0 <= k < |vs| && vs[k] == ds[i];
    } else {
      assert e[i] == us[i - |ds|].price;
      var k :| 0 <= k < |vs| && vs[k] == us[i - |ds|];
    }
  }

  /** Each variant's effective price is among the effective prices. */
  lemma VariantInEffectivePrices(vs: seq<ProductVariant>, k: nat)
    requires k < |vs|
    ensures EffectivePrice(vs[k].price, vs[k].discountPrice) in EffectivePrices(vs)
  {
    var ds, us := DiscountedVariants(vs), UndiscountedVariants(vs);
    var e := EffectivePrices(vs);
    if vs[k].discountPrice.Some? {
      var i :| 0 <= i < |ds| && ds[i] == vs[k];
      assert e[i] == DiscountPrices(ds)[i];
    } else {
      var i :| 0 <= i < |us| && us[i] == vs[k];
      assert e[|ds| + i] == ListPrices(us)[i];
    }
  }

  /** The effective prices are exactly the variants' effective prices. */
  lemma EffectivePricesAre(vs: seq<ProductVariant>)
    ensures forall x :: x in EffectivePrices(vs) <==> exists k | 0 <= k < |vs| :: x == EffectivePrice(vs[k].price, vs[k].discountPrice)
  {
    var e := EffectivePrices(vs);
    forall x | x in e ensures exists k | 0 <= k < |vs| :: x == EffectivePrice(vs[k].price, vs[k].discountPrice) {
      var i :| 0 <= i < |e| && e[i] == x;
      EffectivePricesFromVariants(vs, i);
    }
    forall k | 0 <= k < |vs| ensures EffectivePrice(vs[k].price, vs[k].discountPrice) in e {
      VariantInEffectivePrices(vs, k);
    }
  }

  /**
   * For a non-empty list: the list-price bounds, the effective-price bounds
   * (each attained by some variant), a discount iff some variant has a
   * discount price, and a maximum sale exactly when there is a discount.
   */
  lemma PriceInfoSpec(vs: seq<ProductVariant>)
    ensures GetPriceInfo(vs).None? <==> |vs| == 0
    ensures GetPriceInfo(vs).Some? ==>
      var info := GetPriceInfo(vs).value;
      info.minPrice <= info.maxPrice &&
      (forall k | 0 <= k < |vs| :: info.minPrice <= vs[k].price <= info.maxPrice) &&
      (exists k | 0 <= k < |vs| :: vs[k].price == info.minPrice) &&
      (exists k | 0 <= k < |vs| :: vs[k].price == info.maxPrice) &&
      (forall k | 0 <= k < |vs| :: info.lowest <= EffectivePrice(vs[k].price, vs[k].discountPrice) <= info.highest) &&
      (exists k | 0 <= k < |vs| :: EffectivePrice(vs[k].price, vs[k].discountPrice) == info.lowest) &&
      (exists k | 0 <= k < |vs| :: EffectivePrice(vs[k].price, vs[k].discountPrice) == info.highest) &&
      (info.hasDiscount <==> exists k | 0 <= k < |vs| :: vs[k].discountPrice.Some?) &&
      (info.maxSale.None? <==> !info.hasDiscount)
  {
    if |vs| > 0 {
      var info := GetPriceInfo(vs).value;
      var ps := ListPrices(vs);
      var e := EffectivePrices(vs);
      EffectivePricesAre(vs);
      assert info.minPrice in ps && info.maxPrice in ps;
      assert info.lowest in e && info.highest in e;
      forall k | 0 <= k < |vs| ensures info.lowest <= EffectivePrice(vs[k].price, vs[k].discountPrice) <= info.highest {
        var x := EffectivePrice(vs[k].price, vs[k].discountPrice);
        assert x in e;
      }
      var ds := DiscountedVariants(vs);
      if exists k | 0 <= k < |vs| :: vs[k].discountPrice.Some? {
        var k :| 0 <= k < |vs| && vs[k].discountPrice.Some?;
        assert vs[k] in ds;
      }
      if |ds| > 0 {
        assert ds[0] in vs;
      }
    }
  }

  /**
   * The maximum sale is `NaN` exactly when some discounted variant has a
   * zero list price and a zero discount price; otherwise it is the sale of
   * some discounted variant and at least the sale of every one.
   */
  lemma MaxSaleSpec(vs: seq<ProductVariant>)
    requires GetPriceInfo(vs).Some? && GetPriceInfo(vs).value.maxSale.Some?
    ensures var m := GetPriceInfo(vs).value.maxSale.value;
      (m.NotANumber? <==> exists k | 0 <= k < |vs| :: vs[k].discountPrice == Some(0) && vs[k].price == 0) &&
      (!m.NotANumber? ==>
         (exists k | 0 <= k < |vs| :: vs[k].discountPrice.Some? && Sale(vs[k].price, vs[k].discountPrice.value) == m) &&
         forall k | 0 <= k < |vs| :: vs[k].discountPrice.Some? ==> AtMost(Sale(vs[k].price, vs[k].discountPrice.value), m))
  {
    assert GetPriceInfo(vs).value.maxSale.value == MaxSale(Sales(DiscountedVariants(vs)));
    SalesNaN(vs);
    SalesBound(vs);
  }

  /** Some discounted variant's sale is `NaN` exactly when one has a zero list price and a zero discount price. */
  lemma SalesNaN(vs: seq<ProductVariant>)
    ensures NotANumber in Sales(DiscountedVariants(vs)) <==>
      exists k | 0 <= k < |vs| :: vs[k].discountPrice == Some(0) && vs[k].price == 0
  {
    var sales := Sales(DiscountedVariants(vs));
    if exists k | 0 <= k < |vs| :: vs[k].discountPrice == Some(0) && vs[k].price == 0 {
      var k :| 0 <= k < |vs| && vs[k].discountPrice == Some(0) && vs[k].price == 0;
      NaNSaleOfVariant(vs, k);
    }
    if NotANumber in sales {
      var i :| 0 <= i < |sales| && sales[i] == NotANumber;
      VariantOfNaNSale(vs, i);
    }
  }

  /** A variant priced and discounted at zero puts a `NaN` among the sales. */
  lemma NaNSaleOfVariant(vs: seq<ProductVariant>, k: nat)
    requires k < |vs| && vs[k].discountPrice == Some(0) && vs[k].price == 0
    ensures NotANumber in Sales(DiscountedVariants(vs))
  {
    var ds := DiscountedVariants(vs);
    assert vs[k] in ds;
    var j :| 0 <= j < |ds| && ds[j] == vs[k];
    SaleIsNaN(0, 0);
    assert Sales(ds)[j] == NotANumber;
  }

  /** A `NaN` sale comes from a variant priced and discounted at zero. */
  lemma VariantOfNaNSale(vs: seq<ProductVariant>, i: nat)
    requires i < |Sales(DiscountedVariants(vs))| && Sales(DiscountedVariants(vs))[i] == NotANumber
    ensures exists k | 0 <= k < |vs| :: vs[k].discountPrice == Some(0) && vs[k].price == 0
  {
    var ds := DiscountedVariants(vs);
    var k :| 0 <= k < |vs| && vs[k] == ds[i];
    SaleIsNaN(ds[i].price, ds[i].discountPrice.value);
  }

  /** A maximum that is not `NaN` is some discounted variant's sale and at least every one's. */
  lemma SalesBound(vs: seq<ProductVariant>)
    requires |DiscountedVariants(vs)| > 0
    ensures var m := MaxSale(Sales(DiscountedVariants(vs)));
      !m.NotANumber? ==>
        (exists k | 0 <= k < |vs| :: vs[k].discountPrice.Some? && Sale(vs[k].price, vs[k].discountPrice.value) == m) &&
        forall k | 0 <= k < |vs| :: vs[k].discountPrice.Some? ==> AtMost(Sale(vs[k].price, vs[k].discountPrice.value), m)
  {
    var ds := DiscountedVariants(vs);
    var sales := Sales(ds);
    var m := MaxSale(sales);
    if !m.NotANumber? {
      var i :| 0 <= i < |sales| && sales[i] == m;
      var k :| 0 <= k < |vs| && vs[k] == ds[i];
      assert vs[k].discountPrice.Some? && Sale(vs[k].price, vs[k].discountPrice.value) == m;
      forall k | 0 <= k < |vs| && vs[k].discountPrice.Some?
        ensures AtMost(Sale(vs[k].price, vs[k].discountPrice.value), m)
      {
        var j :| 0 <= j < |ds| && ds[j] == vs[k];
        assert sales[j] == Sale(vs[k].price, vs[k].discountPrice.value);
      }
    }
  }

  /** `toggleAttributeValue(attribute, value)` applied to the selection `prev`. */
  function Toggle(prev: seq<Selection>, attribute: string, value: string): seq<Selection> {
    var s := Selection(attribute, Some(value));
    if s in prev then Without(prev, s) else prev + [s]
  }

  /** `prev.filter(a => !(a equals s))`. */
  function Without(prev: seq<Selection>, s: Selection): (r: seq<Selection>)
    ensures forall t :: t in r <==> t in prev && t != s
    ensures |r| <= |prev|
  {
    if |prev| == 0 then []
    else if prev[0] == s then Without(prev[1..], s)
    else [prev[0]] + Without(prev[1..], s)
  }

  /** Dropping a pair that is absent changes nothing. */
  lemma {:induction false} WithoutAbsent(prev: seq<Selection>, s: Selection)
    requires s !in prev
    ensures Without(prev, s) == prev
    decreases |prev|
  {
    if |prev| > 0 {
      WithoutAbsent(prev[1..], s);
      assert prev == [prev[0]] + prev[1..];
    }
  }

  lemma {:induction false} WithoutAppended(prev: seq<Selection>, s: Selection)
    requires s !in prev
    ensures Without(prev + [s], s) == prev
    decreases |prev|
  {
    if |prev| == 0 {
      assert [s][1..] == [];
    } else {
      assert (prev + [s])[1..] == prev[1..] + [s];
      WithoutAppended(prev[1..], s);
      assert prev == [prev[0]] + prev[1..];
    }
  }

  /**
   * Toggling flips the membership of the pair, removing every copy when it
   * is present, and leaves every other pair's membership as it was.
   */
  lemma ToggleFlips(prev: seq<Selection>, attribute: string, value: string)
    ensures var s := Selection(attribute, Some(value));
      (s in Toggle(prev, attribute, value) <==> s !in prev) &&
      (forall t | t != s :: t in Toggle(prev, attribute, value) <==> t in prev)
  {
  }

  /** Toggling an absent pair twice gives back the selection, in its order. */
  lemma ToggleTwice(prev: seq<Selection>, attribute: string, value: string)
    requires Selection(attribute, Some(value)) !in prev
    ensures Toggle(Toggle(prev, attribute, value), attribute, value) == prev
  {
    WithoutAppended(prev, Selection(attribute, Some(value)));
  }
}
