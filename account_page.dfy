/**
 * The account page (src/app/account/page.tsx): the user request on load,
 * the order list of the orders tab with its pagination, and the status
 * label of an order.
 */
module AccountPage {
  import opened Wrappers
  import opened Catalog
  import opened ClientStore

  const ORDERS_PAGE_SIZE: int := 20

  datatype Tab = Info | Orders

  /** An order of the list, as far as the page reads it. */
  datatype OrderSummary = OrderSummary(id: string, name: string, createdAt: string, processCode: string)

  /** The user the page shows: the profile and the saved addresses. */
  datatype UserData = UserData(profile: Option<UserProfile>, addresses: seq<UserAddress>)

  /** The requests the page sends, in order. */
  datatype AccountRequest = UserInfo | UserOrders(fullData: bool, page: int, pageSize: int)

  /** A reply to the user request: the user, `null`, or a thrown error. */
  datatype UserReply = UserFound(user: UserData) | UserNull | UserThrew

  /** A reply to the orders request: `data?.results` and `data?.count` (each possibly absent), or a thrown error. */
  datatype OrdersReply = OrdersData(results: Option<seq<OrderSummary>>, count: Option<int>) | OrdersThrew

  /** `Math.ceil(a / b)` for a positive divisor. */
  function CeilDiv(a: int, b: int): (q: int)
    requires b > 0
    ensures (q - 1) * b < a <= q * b
  {
    -((-a) / b)
  }

  /** `Math.ceil(ordersTotal / pageSize) || 1`, the page count shown. */
  function PageCount(total: int): (n: int)
    ensures n == (if CeilDiv(total, ORDERS_PAGE_SIZE) == 0 then 1 else CeilDiv(total, ORDERS_PAGE_SIZE))
  {
    var c := CeilDiv(total, ORDERS_PAGE_SIZE);
    if c == 0 then 1 else c
  }

  /** For a non-negative total the count is at least one and the pages just hold the orders. */
  lemma PageCountSpec(total: int)
    requires total >= 0
    ensures PageCount(total) >= 1
    ensures total > 0 ==> (PageCount(total) - 1) * ORDERS_PAGE_SIZE < total <= PageCount(total) * ORDERS_PAGE_SIZE
    ensures total == 0 ==> PageCount(total) == 1
  {
    var c := CeilDiv(total, ORDERS_PAGE_SIZE);
    if total == 0 {
      assert c * ORDERS_PAGE_SIZE >= 0;
      assert (c - 1) * ORDERS_PAGE_SIZE < 0;
    }
  }

  /** "Previous" is disabled on page 1. */
  predicate PrevDisabled(page: int) {
    page == 1
  }

  /** "Next" is disabled from the last page on: `ordersPage >= Math.ceil(ordersTotal / pageSize)`. */
  predicate NextDisabled(page: int, total: int) {
    page >= CeilDiv(total, ORDERS_PAGE_SIZE)
  }

  /** "Next" is enabled exactly when orders lie beyond the current page. */
  lemma NextEnabledIff(page: int, total: int)
    ensures !NextDisabled(page, total) <==> page * ORDERS_PAGE_SIZE < total
  {
    var c := CeilDiv(total, ORDERS_PAGE_SIZE);
    if page < c {
      assert page <= c - 1;
      assert page * ORDERS_PAGE_SIZE <= (c - 1) * ORDERS_PAGE_SIZE;
    } else {
      assert page * ORDERS_PAGE_SIZE >= c * ORDERS_PAGE_SIZE;
    }
  }

  /** `processes.find(p => p.code === code)`. */
  function FindProcess(processes: seq<Process>, code: string): (r: Option<Process>)
    ensures r.Some? ==> r.value in processes && r.value.code == code
    ensures r.None? <==> forall k | 0 <= k < |processes| :: processes[k].code != code
    ensures r.Some? ==> exists k | 0 <= k < |processes| :: processes[k] == r.value && forall j | 0 <= j < k :: processes[j].code != code
  {
    if |processes| == 0 then None
    else if processes[0].code == code then Some(processes[0])
    else
      var r := FindProcess(processes[1..], code);
      if r.Some? then
        var k :| 0 <= k < |processes[1..]| && processes[1..][k] == r.value && forall j | 0 <= j < k :: processes[1..][j].code != code;
        assert processes[k + 1] == r.value && forall j | 0 <= j < k + 1 :: processes[j].code != code;
        r
      else r
  }

  /** An order's status label: the name of the first process with its code, otherwise the code itself. */
  function StatusLabel(processes: seq<Process>, code: string): string {
    match FindProcess(processes, code)
    case Some(p) => p.name
    case None => code
  }

  /** The label is the code when no process has it, and otherwise the name of the first process that has it. */
  lemma StatusLabelSpec(processes: seq<Process>, code: string)
    ensures (forall k | 0 <= k < |processes| :: processes[k].code != code) ==> StatusLabel(processes, code) == code
    ensures (exists k | 0 <= k < |processes| :: processes[k].code == code) ==>
      exists k | 0 <= k < |processes| ::
        processes[k].code == code && StatusLabel(processes, code) == processes[k].name &&
        forall j | 0 <= j < k :: processes[j].code != code
  {
    var r := FindProcess(processes, code);
    if r.Some? {
      var k :| 0 <= k < |processes| && processes[k] == r.value && forall j | 0 <= j < k :: processes[j].code != code;
    }
  }

  class Account {
    const store: Store
    var user: Option<UserData>
    var loading: bool
    var tab: Tab
    var orders: seq<OrderSummary>
    var ordersLoading: bool
    var ordersPage: int
    var ordersTotal: int
    var requests: seq<AccountRequest>

    /** The page's initial state, before its effects. */
    constructor (store: Store)
      ensures this.store == store && user == None && loading && tab == Info && orders == []
      ensures !ordersLoading && ordersPage == 1 && ordersTotal == 0 && requests == []
    {
      this.store := store;
      user := None;
      loading := true;
      tab := Info;
      orders := [];
      ordersLoading := false;
      ordersPage := 1;
      ordersTotal := 0;
      requests := [];
    }

    /**
     * The mount effect: a signed-out visitor only stops loading; otherwise
     * the user is requested, a returned user is kept, and loading stops
     * whatever the reply.
     */
    method LoadUser(reply: UserReply)
      modifies this
      ensures !store.IsLoggedIn() ==> requests == old(requests) && user == old(user)
      ensures store.IsLoggedIn() ==> requests == old(requests) + [UserInfo]
      ensures store.IsLoggedIn() && reply.UserFound? ==> user == Some(reply.user)
      ensures !reply.UserFound? ==> user == old(user)
      ensures !loading
      ensures tab == old(tab) && orders == old(orders) && ordersPage == old(ordersPage) && ordersTotal == old(ordersTotal)
      ensures ordersLoading == old(ordersLoading)
    {
      if !store.IsLoggedIn() {
        loading := false;
        return;
      }
      requests := requests + [UserInfo];
      if reply.UserFound? {
        user := Some(reply.user);
      }
      loading := false;
    }

    /**
     * The effect on `[tab, ordersPage]`: only on the orders tab, the current
     * page is requested, 20 to a page; missing results read as no orders
     * and a missing or zero count as 0. A thrown error leaves the list.
     */
    method LoadOrders(reply: OrdersReply)
      modifies this
      ensures tab != Orders ==> requests == old(requests) && orders == old(orders) && ordersTotal == old(ordersTotal)
      ensures tab != Orders ==> ordersLoading == old(ordersLoading)
      ensures tab == Orders ==> requests == old(requests) + [UserOrders(false, ordersPage, ORDERS_PAGE_SIZE)] && !ordersLoading
      ensures tab == Orders && reply.OrdersData? ==> orders == reply.results.GetOr([]) && ordersTotal == reply.count.GetOr(0)
      ensures tab == Orders && reply.OrdersThrew? ==> orders == old(orders) && ordersTotal == old(ordersTotal)
      ensures tab == old(tab) && ordersPage == old(ordersPage) && user == old(user) && loading == old(loading)
    {
      if tab == Orders {
        ordersLoading := true;
        requests := requests + [UserOrders(false, ordersPage, ORDERS_PAGE_SIZE)];
        match reply {
          case OrdersData(results, count) =>
            orders := results.GetOr([]);
            ordersTotal := count.GetOr(0);
            ordersLoading := false;
          case OrdersThrew =>
            ordersLoading := false;
        }
      }
    }

    /** A tab button; choosing the tab already shown runs no effect. */
    method ChooseTab(t: Tab, reply: OrdersReply)
      modifies this
      ensures tab == t
      ensures t == old(tab) ==> requests == old(requests) && orders == old(orders)
      ensures t != old(tab) && t == Orders ==> requests == old(requests) + [UserOrders(false, ordersPage, ORDERS_PAGE_SIZE)]
      ensures t != old(tab) && t == Info ==> requests == old(requests) && orders == old(orders)
      ensures ordersPage == old(ordersPage)
    {
      if t != tab {
        tab := t;
        LoadOrders(reply);
      }
    }

    /** "Previous": `Math.max(1, p - 1)`, then the effect when the page changed. */
    method PrevPage(reply: OrdersReply)
      requires ordersPage >= 1
      modifies this
      ensures ordersPage == (if old(ordersPage) > 1 then old(ordersPage) - 1 else 1) && ordersPage >= 1
      ensures old(ordersPage) == 1 ==> requests == old(requests) && orders == old(orders)
      ensures old(ordersPage) > 1 && tab == Orders ==> requests == old(requests) + [UserOrders(false, ordersPage, ORDERS_PAGE_SIZE)]
      ensures tab == old(tab)
    {
      var p := if ordersPage - 1 > 1 then ordersPage - 1 else 1;
      if p != ordersPage {
        ordersPage := p;
        LoadOrders(reply);
      }
    }

    /** "Next": the page after, then the effect. */
    method NextPage(reply: OrdersReply)
      modifies this
      ensures ordersPage == old(ordersPage) + 1
      ensures tab == Orders ==> requests == old(requests) + [UserOrders(false, ordersPage, ORDERS_PAGE_SIZE)]
      ensures tab != Orders ==> requests == old(requests)
      ensures tab == old(tab)
    {
      ordersPage := ordersPage + 1;
      LoadOrders(reply);
    }
  }

  /** Starting from page 1, the buttons, used only while enabled, keep the page between 1 and the page count. */
  lemma ButtonsKeepPageInRange(page: int, total: int)
    requires total >= 0 && 1 <= page <= PageCount(total)
    ensures !PrevDisabled(page) ==> 1 <= page - 1 <= PageCount(total)
    ensures !NextDisabled(page, total) ==> 1 <= page + 1 <= PageCount(total)
  {
    PageCountSpec(total);
    NextEnabledIff(page, total);
    if !NextDisabled(page, total) {
      assert page < CeilDiv(total, ORDERS_PAGE_SIZE);
    }
  }
}
