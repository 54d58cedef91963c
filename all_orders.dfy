/**
 * The vendor's order list of components/vendor/all-orders.tsx: category
 * filter chips, the parameters of the orders request, and the Previous /
 * Next pagination buttons. Fetching orders and stalls is I/O; the total
 * count the server reports is an input (ReceiveTotal).
 */
module AllOrders {
  import opened Common

  /** The request parameters of `getVendorOrders`; `stallId` is sent only when a stall is chosen. */
  datatype OrdersParams = OrdersParams(sortBy: string, limit: nat, page: int, category: seq<string>, stallId: Option<string>)

  /** The choices of the "Orders to display" select. */
  predicate LimitChoice(n: nat) {
    n == 10 || n == 20 || n == 30 || n == 40 || n == 50
  }

  /** No chip twice and no empty chip. */
  predicate CleanFilters(filters: seq<string>) {
    && (forall i :: 0 <= i < |filters| ==> filters[i] != "")
    && (forall i, j :: 0 <= i < j < |filters| ==> filters[i] != filters[j])
  }

  /** `handleAddFilter`: a non-empty value not yet present is appended; anything else changes nothing. */
  function AddFilter(filters: seq<string>, f: string): (r: seq<string>)
    ensures f != "" && f !in filters ==> r == filters + [f]
    ensures f == "" || f in filters ==> r == filters
    ensures CleanFilters(filters) ==> CleanFilters(r)
  {
    if f != "" && f !in filters then filters + [f] else filters
  }

  /** `handleRemoveFilter`: `filters.filter(x => x !== f)`. */
  function RemoveFilter(filters: seq<string>, f: string): (r: seq<string>)
    ensures f !in r
    ensures forall x :: x in r <==> x in filters && x != f
    ensures |r| <= |filters|
  {
    if filters == [] then []
    else (if filters[0] != f then [filters[0]] else []) + RemoveFilter(filters[1..], f)
  }

  /** Removal keeps the other chips in their order: removing from a concatenation removes from each part. */
  lemma {:induction false} RemoveFilterConcat(a: seq<string>, b: seq<string>, f: string)
    ensures RemoveFilter(a + b, f) == RemoveFilter(a, f) + RemoveFilter(b, f)
  {
    if a == [] {
      assert a + b == b;
    } else {
      assert (a + b)[0] == a[0];
      assert (a + b)[1..] == a[1..] + b;
      RemoveFilterConcat(a[1..], b, f);
    }
  }

  /** A chip that is absent leaves the list as it was. */
  lemma {:induction false} RemoveAbsentFilter(filters: seq<string>, f: string)
    requires f !in filters
    ensures RemoveFilter(filters, f) == filters
  {
    if filters != [] {
      assert filters[0] != f;
      RemoveAbsentFilter(filters[1..], f);
      assert filters == [filters[0]] + filters[1..];
    }
  }

  /** Removing a chip that was just added gives back the list before: add and remove are inverse. */
  lemma AddThenRemove(filters: seq<string>, f: string)
    requires f != "" && f !in filters
    ensures RemoveFilter(AddFilter(filters, f), f) == filters
  {
    RemoveFilterConcat(filters, [f], f);
    RemoveAbsentFilter(filters, f);
    assert RemoveFilter([f], f) == [];
  }

  /** Removing keeps the chips clean. */
  lemma {:induction false} RemoveKeepsClean(filters: seq<string>, f: string)
    requires CleanFilters(filters)
    ensures CleanFilters(RemoveFilter(filters, f))
  {
    if filters != [] {
      RemoveKeepsClean(filters[1..], f);
      var rest := RemoveFilter(filters[1..], f);
      if filters[0] != f {
        var r := [filters[0]] + rest;
        forall j | 1 <= j < |r|
          ensures r[0] != r[j]
        {
          assert r[j] in rest;
          assert r[j] in filters[1..];
        }
      }
    }
  }

  /** The request parameters built by `fetchOrders`. */
  function Params(sortBy: string, limit: nat, page: int, filters: seq<string>, stall: string): (p: OrdersParams)
    ensures p.stallId.Some? <==> stall != ""
    ensures p.stallId.Some? ==> p.stallId.value == stall
    ensures p.sortBy == sortBy && p.limit == limit && p.page == page && p.category == filters
  {
    OrdersParams(sortBy, limit, page, filters, if stall != "" then Some(stall) else None)
  }

  /** "Page {page} of {ceil(total / limit)}". */
  function PageCount(total: nat, limit: nat): (n: nat)
    requires limit > 0
    ensures n * limit >= total
    ensures total > 0 ==> (n - 1) * limit < total
    ensures total == 0 ==> n == 0
  {
    (total + limit - 1) / limit
  }

  /** Previous is enabled iff `page > 1`. */
  predicate PreviousEnabled(page: int) {
    !(page <= 1)
  }

  /** Next is enabled iff `page * limit < total`. */
  predicate NextEnabled(page: int, limit: nat, total: nat) {
    !(page * limit >= total)
  }

  /** Next is offered exactly while a later page exists: for pages from 1 on, iff page < PageCount. */
  lemma NextIffMorePages(page: int, limit: nat, total: nat)
    requires limit > 0 && page >= 1
    ensures NextEnabled(page, limit, total) <==> page < PageCount(total, limit)
  {
    var n := PageCount(total, limit);
    if page < n {
      assert page <= n - 1;
      MulMono(page, n - 1, limit);
    } else {
      MulMono(n, page, limit);
    }
  }

  lemma MulMono(a: int, b: int, c: nat)
    requires a <= b
    ensures a * c <= b * c
  {
  }

  class AllOrdersView {
    var sort: string
    var limit: nat
    var stall: string
    var filters: seq<string>
    var page: int
    var totalOrders: nat

    ghost predicate Valid()
      reads this
    {
      page >= 1 && LimitChoice(limit) && CleanFilters(filters)
    }

    constructor()
      ensures Valid()
      ensures sort == "newest" && limit == 10 && stall == "" && filters == [] && page == 1 && totalOrders == 0
    {
      sort := "newest";
      limit := 10;
      stall := "";
      filters := [];
      page := 1;
      totalOrders := 0;
    }

    /** The parameters the effect sends for the current state. */
    function CurrentParams(): OrdersParams
      reads this
    {
      Params(sort, limit, page, filters, stall)
    }

    method HandleAddFilter(f: string)
      requires Valid()
      modifies this
      ensures Valid()
      ensures filters == AddFilter(old(filters), f)
      ensures page == old(page) && stall == old(stall) && limit == old(limit) && sort == old(sort)
      ensures totalOrders == old(totalOrders)
    {
      filters := AddFilter(filters, f);
    }

    method HandleRemoveFilter(f: string)
      requires Valid()
      modifies this
      ensures Valid()
      ensures filters == RemoveFilter(old(filters), f)
      ensures page == old(page) && stall == old(stall) && limit == old(limit) && sort == old(sort)
      ensures totalOrders == old(totalOrders)
    {
      RemoveKeepsClean(filters, f);
      filters := RemoveFilter(filters, f);
    }

    method HandleClearFilters()
      requires Valid()
      modifies this
      ensures Valid()
      ensures filters == []
      ensures page == old(page) && stall == old(stall) && limit == old(limit) && sort == old(sort)
      ensures totalOrders == old(totalOrders)
    {
      filters := [];
    }

    method SetLimit(n: nat)
      requires Valid() && LimitChoice(n)
      modifies this
      ensures Valid()
      ensures limit == n && page == old(page) && filters == old(filters)
      ensures stall == old(stall) && sort == old(sort) && totalOrders == old(totalOrders)
    {
      limit := n;
    }

    method SetStall(s: string)
      requires Valid()
      modifies this
      ensures Valid()
      ensures stall == s && page == old(page) && filters == old(filters)
      ensures limit == old(limit) && sort == old(sort) && totalOrders == old(totalOrders)
      ensures CurrentParams().stallId.Some? <==> s != ""
    {
      stall := s;
    }

    /** The server's `totalCount` arrives. */
    method ReceiveTotal(total: nat)
      requires Valid()
      modifies this
      ensures Valid()
      ensures totalOrders == total && page == old(page)
      ensures filters == old(filters) && stall == old(stall) && limit == old(limit) && sort == old(sort)
    {
      totalOrders := total;
    }

    /** A click on Previous; the disabled button ignores it. */
    method Previous()
      requires Valid()
      modifies this
      ensures Valid()
      ensures PreviousEnabled(old(page)) ==> page == old(page) - 1
      ensures !PreviousEnabled(old(page)) ==> page == old(page)
      ensures filters == old(filters) && totalOrders == old(totalOrders) && limit == old(limit)
      ensures stall == old(stall) && sort == old(sort)
    {
      if PreviousEnabled(page) {
        page := page - 1;
      }
    }

    /** A click on Next; the disabled button ignores it. */
    method Next()
      requires Valid()
      modifies this
      ensures Valid()
      ensures NextEnabled(old(page), limit, totalOrders) ==> page == old(page) + 1 && page <= PageCount(totalOrders, limit)
      ensures !NextEnabled(old(page), limit, totalOrders) ==> page == old(page)
      ensures filters == old(filters) && totalOrders == old(totalOrders) && limit == old(limit)
      ensures stall == old(stall) && sort == old(sort)
    {
      if NextEnabled(page, limit, totalOrders) {
        NextIffMorePages(page, limit, totalOrders);
        page := page + 1;
      }
    }
  }
}
