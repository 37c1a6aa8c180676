/**
 * The header above the product grid
 * (src/components/listing/ProductFilterHeader.tsx): the row of removable
 * filter tags, the "clear all" button, the ordering menu and the colour
 * swatch a tag shows for a colour value.
 */
module FilterHeader {
  import opened Wrappers
  import opened Strings
  import opened JsNumber
  import opened Colors
  import opened Listing
  import AttributeFilter
  import opened Lists

  /** A price filter is shown when it is truthy: not `null`, not 0 and not NaN. */
  predicate PriceActive(p: Option<Num>) {
    p.Some? && p.value != Int(0) && p.value != NaN
  }

  /** The search query is shown when it is neither `null` nor empty. */
  predicate QueryActive(q: Option<string>) {
    q.Some? && q.value != ""
  }

  /** The condition of the tag row: some filter, or the query, is active. */
  predicate ChipRowShown(f: UrlFilters, query: Option<string>) {
    |f.attributeFilters| > 0 || f.isNew || f.isFeatured || f.discounted ||
    PriceActive(f.priceLow) || PriceActive(f.priceHigh) || QueryActive(query)
  }

  /** A price of 0 shows no tag, exactly like no price at all. */
  lemma ZeroPriceInactive(f: UrlFilters, query: Option<string>)
    ensures ChipRowShown(f.(priceLow := Some(Int(0))), query) == ChipRowShown(f.(priceLow := None), query)
    ensures ChipRowShown(f.(priceHigh := Some(Int(0))), query) == ChipRowShown(f.(priceHigh := None), query)
  {
  }

  /** The filters `clearAll` leaves: no attribute, flag or price, the ordering kept. */
  function Cleared(f: UrlFilters): UrlFilters {
    UrlFilters(false, false, false, f.orderBy, None, None, [])
  }

  /** Once everything is cleared, the tag row stays only for an active query. */
  lemma ClearedHidesChipRow(f: UrlFilters, query: Option<string>)
    ensures ChipRowShown(Cleared(f), query) <==> QueryActive(query)
  {
  }

  /**
   * What the listing writes into the address after clearing: nothing but the
   * ordering and the query.
   */
  lemma ClearedWritesOnlyOrderAndQuery(p: Params, f: UrlFilters, query: Option<string>)
    requires Written(p, Cleared(f), query)
    ensures forall n | n != OrderBy && n != Query :: ParamGet(p, n) == None
    ensures ParamGet(p, OrderBy) == (if f.orderBy == Some("") then None else f.orderBy)
  {
  }

  /** `e.target.value || null`: the empty option means no ordering. */
  function OrderByChoice(value: string): (r: Option<string>)
    ensures r != Some("")
  {
    if value == "" then None else Some(value)
  }

  /** `orderBy ?? ''`, the option the menu shows. */
  function OrderBySelected(orderBy: Option<string>): string {
    orderBy.GetOr("")
  }

  /** Choosing the option the menu shows gives back the ordering, for any ordering but the empty text. */
  lemma OrderByRoundTrip(orderBy: Option<string>)
    requires orderBy != Some("")
    ensures OrderByChoice(OrderBySelected(orderBy)) == orderBy
  {
  }

  /** The filter state of the listing page, which the header's setters update. */
  class ListingFilters {
    var filters: UrlFilters
    var query: Option<string>

    constructor (filters: UrlFilters, query: Option<string>)
      ensures this.filters == filters && this.query == query
    {
      this.filters := filters;
      this.query := query;
    }

    /** `clearAll()`: the six setters in order; the ordering and the query stay. */
    method ClearAll()
      modifies this
      ensures filters == Cleared(old(filters)) && query == old(query)
      ensures filters.orderBy == old(filters.orderBy)
    {
      filters := filters.(attributeFilters := []);
      filters := filters.(isNew := false);
      filters := filters.(isFeatured := false);
      filters := filters.(discounted := false);
      filters := filters.(priceLow := None);
      filters := filters.(priceHigh := None);
    }

    /** The remove button of attribute tag `index`: `prev.filter((_, i) => i !== index)`. */
    method RemoveTag(index: int)
      modifies this
      ensures filters == old(filters).(attributeFilters := WithoutIndex(old(filters.attributeFilters), index))
      ensures query == old(query)
    {
      filters := filters.(attributeFilters := WithoutIndex(filters.attributeFilters, index));
    }

    /** The ordering menu's `onChange`. */
    method ChooseOrder(value: string)
      modifies this
      ensures filters == old(filters).(orderBy := OrderByChoice(value)) && query == old(query)
    {
      filters := filters.(orderBy := OrderByChoice(value));
    }
  }

  /** `value?.trim() || ""`: the trimmed value, or the empty text without one. */
  function TagText(value: Option<string>): string {
    if value.Some? then Trim(value.value) else ""
  }

  /** The tag shows a swatch: its trimmed value is a multi or a single colour. */
  predicate TagShowsSwatch(value: Option<string>) {
    IsMultiColor(TagText(value)) || IsSingleColor(TagText(value))
  }

  /** `(value || "").trim().split("/").map(c => c.trim())`: no piece is filtered out. */
  function TagColors(value: Option<string>): seq<string> {
    TrimAll(Split(TagText(value), '/'))
  }

  /** The background of the tag's swatch, or `None` for a tag that shows its label. */
  function TagSwatch(value: Option<string>): Option<string> {
    if TagShowsSwatch(value) then Some(SwatchBackground(TagColors(value))) else None
  }

  /** A swatch tag's colours are the pieces of its trimmed value, each a single colour. */
  lemma TagColorsSpec(value: Option<string>)
    requires TagShowsSwatch(value)
    ensures TagColors(value) == Split(TagText(value), '/')
    ensures forall k | 0 <= k < |TagColors(value)| :: IsSingleColor(TagColors(value)[k])
    ensures |TagColors(value)| == 1 <==> IsSingleColor(TagText(value))
  {
    ColorTextPieces(TagText(value));
  }

  /** A selected colour value looks the same as a header tag as it does in the attribute filter. */
  lemma TagMatchesFilterSwatch(value: string)
    ensures TagSwatch(Some(value)) == AttributeFilter.Swatch(value)
  {
    if TagShowsSwatch(Some(value)) {
      TagColorsSpec(Some(value));
      AttributeFilter.SwatchColorsSpec(value);
    }
  }
}
