/**
 * What the two infinite-scroll hooks (src/hooks/useProductFetcher.ts and
 * src/hooks/useBlogFetcher.ts) share: whether another page is worth asking
 * for, and the list built from the pages received so far.
 */
module Paging {
  import opened Wrappers

  /**
   * `count ? loaded < count : pageLength === pageSize`: against the total
   * when the reply gives a non-zero one, otherwise whether the page came
   * back full.
   */
  function HasMore(count: Option<int>, loaded: int, pageLength: int, pageSize: int): (b: bool)
    ensures count.Some? && count.value != 0 ==> (b <==> loaded < count.value)
    ensures count.None? || count.value == 0 ==> (b <==> pageLength == pageSize)
  {
    if count.Some? && count.value != 0 then loaded < count.value else pageLength == pageSize
  }

  /** Once as many items are loaded as the reply counts, no further page is asked for. */
  lemma AllLoadedStops(count: int, loaded: int, pageLength: int, pageSize: int)
    requires count != 0 && loaded >= count
    ensures !HasMore(Some(count), loaded, pageLength, pageSize)
  {
  }

  /** Without a total, a page shorter than the page size is the last one. */
  lemma ShortPageStops(loaded: int, pageLength: int, pageSize: int)
    requires pageLength < pageSize
    ensures !HasMore(None, loaded, pageLength, pageSize) && !HasMore(Some(0), loaded, pageLength, pageSize)
  {
  }

  /** The pages of a list, one after the other. */
  function Concat<T>(pages: seq<seq<T>>): seq<T> {
    if |pages| == 0 then [] else Concat(pages[..|pages| - 1]) + pages[|pages| - 1]
  }

  lemma ConcatAppend<T>(pages: seq<seq<T>>, page: seq<T>)
    ensures Concat(pages + [page]) == Concat(pages) + page
  {
    assert (pages + [page])[..|pages|] == pages;
  }
}
