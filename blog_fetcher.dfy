/**
 * The blog-list hook (src/hooks/useBlogFetcher.ts): the list request built
 * from the title filter, the page counter, and the append-or-replace
 * handling of each page of posts. Each request is taken as settling with
 * the reply given before anything else happens.
 */
module BlogFetcher {
  import opened Wrappers
  import opened JsonDoc
  import opened Paging

  const PAGE_SIZE: int := 10
  const LIST_ENDPOINT: string := "/blog/list/"

  /** A post as the list shows it. */
  datatype Blog = Blog(title: string, slug: string, createdAt: string, image: Option<string>)

  /** The keys a blog-list request can carry. */
  datatype Key = Page | PageSize | Title

  function KeyName(k: Key): string {
    match k
    case Page => "page"
    case PageSize => "page_size"
    case Title => "title"
  }

  /** The object sent as the body of a list request. */
  type Body = map<Key, Json>

  /** `if (title) params.title = title`: only a title that is neither `undefined` nor empty filters. */
  predicate HasTitle(title: Option<string>) {
    title.Some? && title.value != ""
  }

  /** What the body of the request for page `page` holds. */
  predicate BlogQuery(params: Body, title: Option<string>, page: int) {
    params.Keys == (if HasTitle(title) then {Page, PageSize, Title} else {Page, PageSize}) &&
    params[Page] == JNum(page) && params[PageSize] == JNum(PAGE_SIZE) &&
    (HasTitle(title) ==> params[Title] == JStr(title.value))
  }

  /** The `params` object of `getBlogs`. */
  method BuildParams(title: Option<string>, page: int) returns (params: Body)
    ensures BlogQuery(params, title, page)
  {
    params := map[Page := JNum(page), PageSize := JNum(PAGE_SIZE)];
    if HasTitle(title) {
      params := params[Title := JStr(title.value)];
    }
  }

  /** An empty title asks for the same posts as no title at all. */
  lemma EmptyTitleUnfiltered(p1: Body, p2: Body, page: int)
    requires BlogQuery(p1, Some(""), page) && BlogQuery(p2, None, page)
    ensures p1 == p2
  {
  }

  /** A request is determined by its arguments: two requests for the same title and page are the same object. */
  lemma BlogQueryUnique(p1: Body, p2: Body, title: Option<string>, page: int)
    requires BlogQuery(p1, title, page) && BlogQuery(p2, title, page)
    ensures p1 == p2
  {
  }

  /**
   * The reply to a list request, as read: `None` when the response is
   * `null` and reading `response.results` throws. A missing list reads as
   * `None` and is taken as empty.
   */
  datatype BlogReply = BlogReply(results: Option<seq<Blog>>, count: Option<int>)

  class BlogFetcher {
    /** The title the hook was last rendered with. */
    var title: Option<string>
    var blogs: seq<Blog>
    var totalCount: Option<int>
    var hasMore: bool
    var infiniteLoading: bool
    /** `pageRef.current`. */
    var page: int
    /** The bodies posted to the list endpoint, in order. */
    var sent: seq<Body>
    /** The pages received since the list was last replaced. */
    ghost var pages: seq<seq<Blog>>

    ghost predicate Valid()
      reads this
    {
      blogs == Concat(pages)
    }

    /** The hook's initial state, before its effect has run. */
    constructor (title: Option<string>)
      ensures Valid()
      ensures this.title == title && blogs == [] && totalCount == Some(0) && hasMore && !infiniteLoading
      ensures page == 1 && sent == []
    {
      this.title := title;
      blogs := [];
      totalCount := Some(0);
      hasMore := true;
      infiniteLoading := false;
      page := 1;
      sent := [];
      pages := [];
    }

    /** The part after the `await`: the page is appended or replaces the list. */
    method Settle(append: bool, reply: BlogReply)
      requires Valid()
      modifies this
      ensures Valid()
      ensures var got := reply.results.GetOr([]);
        blogs == (if append then old(blogs) + got else got) && totalCount == reply.count &&
        hasMore == HasMore(reply.count, |blogs|, |got|, PAGE_SIZE) && !infiniteLoading
      ensures title == old(title) && page == old(page) && sent == old(sent)
    {
      var got := reply.results.GetOr([]);
      var loaded := if append then |blogs| + |got| else |got|;
      if append {
        ConcatAppend(pages, got);
        blogs := blogs + got;
        pages := pages + [got];
      } else {
        ConcatAppend([], got);
        blogs := got;
        pages := [got];
      }
      totalCount := reply.count;
      hasMore := HasMore(reply.count, loaded, |got|, PAGE_SIZE);
      infiniteLoading := false;
    }

    /**
     * `getBlogs(page, append)`: nothing while a load is in progress. A `null`
     * response leaves the load flag set.
     */
    method GetBlogs(pageNo: int, append: bool, reply: Option<BlogReply>)
      requires Valid()
      modifies this
      ensures Valid()
      ensures title == old(title) && page == old(page)
      ensures old(infiniteLoading) ==>
        blogs == old(blogs) && sent == old(sent) && infiniteLoading && hasMore == old(hasMore) && totalCount == old(totalCount)
      ensures !old(infiniteLoading) ==>
        |sent| == |old(sent)| + 1 && sent[..|old(sent)|] == old(sent) && BlogQuery(sent[|sent| - 1], title, pageNo) &&
        if reply.None? then infiniteLoading && blogs == old(blogs) else
          var got := reply.value.results.GetOr([]);
          blogs == (if append then old(blogs) + got else got) &&
          hasMore == HasMore(reply.value.count, |blogs|, |got|, PAGE_SIZE) && !infiniteLoading
    {
      if infiniteLoading {
        return;
      }
      infiniteLoading := true;
      var params := BuildParams(title, pageNo);
      sent := sent + [params];
      if reply.None? {
        return;
      }
      Settle(append, reply.value);
    }

    /**
     * The effect run on mount and whenever the title changes: the page
     * counter goes back to 1 and page 1 replaces the list, through
     * `getBlogs`, so not while a load is in progress.
     */
    method TitleChanged(newTitle: Option<string>, reply: Option<BlogReply>)
      requires Valid()
      modifies this
      ensures Valid()
      ensures title == newTitle && page == 1
      ensures old(infiniteLoading) ==> blogs == old(blogs) && sent == old(sent) && infiniteLoading
      ensures !old(infiniteLoading) ==>
        |sent| == |old(sent)| + 1 && BlogQuery(sent[|sent| - 1], newTitle, 1) &&
        (reply.Some? ==> blogs == reply.value.results.GetOr([]) && !infiniteLoading)
    {
      title := newTitle;
      page := 1;
      GetBlogs(1, false, reply);
    }

    /**
     * The debounced scroll handler near the bottom of the page: the next page
     * is appended, only when no load is in progress and more remain.
     */
    method Scroll(nearBottom: bool, reply: Option<BlogReply>)
      requires Valid()
      modifies this
      ensures Valid()
      ensures old(infiniteLoading) || !old(hasMore) || !nearBottom ==>
        blogs == old(blogs) && page == old(page) && sent == old(sent)
      ensures !old(infiniteLoading) && old(hasMore) && nearBottom ==>
        page == old(page) + 1 && |sent| == |old(sent)| + 1 && BlogQuery(sent[|sent| - 1], title, page) &&
        (reply.Some? ==> blogs == old(blogs) + reply.value.results.GetOr([]))
    {
      if infiniteLoading || !hasMore || !nearBottom {
        return;
      }
      page := page + 1;
      GetBlogs(page, true, reply);
    }
  }
}
