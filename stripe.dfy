/**
 * The Stripe customer listing of the export: `Customer.list(limit=100)`, then
 * `Customer.list(limit=100, starting_after=<id of the last customer so far>)`
 * for as long as the previous page's `data` was truthy.
 */
module Stripe {
  import opened Results
  import opened PyValue

  /** One call of Customer.list. */
  datatype ListRequest = ListRequest(limit: int, startingAfter: Option<Value>)

  /** The Stripe API as the export sees it: the response object of each call. */
  type StripeApi = ListRequest -> Result<Value, Failure>

  /** Every call asks for pages of 100 customers. */
  const PageLimit := 100

  /** A page: response['data'] and the customers `extend` takes from it. */
  datatype Page = Page(data: Value, items: seq<Value>)

  /** One call: fetch the response, take response['data'] and iterate it. */
  function FetchPage(api: StripeApi, after: Option<Value>): (r: Result<Page, Failure>)
    ensures r.Ok? ==> (Truthy(r.value.data) <==> r.value.items != [])
  {
    var response :- api(ListRequest(PageLimit, after));
    var data :- Get(response, "data");
    var items :- Items(data);
    Ok(Page(data, items))
  }

  /** The outcome of each call, by its cursor. */
  type PageSource = Option<Value> -> Result<Page, Failure>

  /** The pages the API serves. */
  function ApiPages(api: StripeApi): PageSource {
    after => FetchPage(api, after)
  }

  /**
   * The listing once `seen` customers are collected and the last page's data
   * was `data`; None when it has not ended within `fuel` more calls. The cursor
   * is customers[-1]['id'], which raises IndexError when nothing was collected.
   */
  function ListFrom(pages: PageSource, seen: seq<Value>, data: Value, fuel: nat): Option<Result<seq<Value>, Failure>>
    decreases fuel
  {
    if !Truthy(data) then Some(Ok(seen))
    else if fuel == 0 then None
    else if seen == [] then Some(Err(IndexError))
    else
      match Get(seen[|seen| - 1], "id")
      case Err(e) => Some(Err(e))
      case Ok(id) =>
        match pages(Some(id))
        case Err(e) => Some(Err(e))
        case Ok(page) => ListFrom(pages, seen + page.items, page.data, fuel - 1)
  }

  /** The whole listing: the first page, then the pages after it. */
  function Listing(pages: PageSource, fuel: nat): Option<Result<seq<Value>, Failure>> {
    match pages(None)
    case Err(e) => Some(Err(e))
    case Ok(page) => ListFrom(pages, page.items, page.data, fuel)
  }

  /**
   * The calls the listing makes from that point on: while data is truthy, one
   * call whose cursor is the id of the last customer collected so far, until a
   * call fails. Reading the cursor fails before any call is made.
   */
  function Calls(pages: PageSource, seen: seq<Value>, data: Value, fuel: nat): seq<ListRequest>
    decreases fuel
  {
    if !Truthy(data) || fuel == 0 || seen == [] then []
    else
      match Get(seen[|seen| - 1], "id")
      case Err(_) => []
      case Ok(id) =>
        [ListRequest(PageLimit, Some(id))]
        + match pages(Some(id))
          case Err(_) => []
          case Ok(page) => Calls(pages, seen + page.items, page.data, fuel - 1)
  }

  /** Every call of the listing: the first without a cursor, then the calls after the first page. */
  function ListingCalls(pages: PageSource, fuel: nat): seq<ListRequest> {
    [ListRequest(PageLimit, None)]
    + match pages(None)
      case Err(_) => []
      case Ok(page) => Calls(pages, page.items, page.data, fuel)
  }

  /** The customers already collected stay at the front, in order. */
  lemma {:induction false} ListFromKeepsSeen(pages: PageSource, seen: seq<Value>, data: Value, fuel: nat)
    requires ListFrom(pages, seen, data, fuel).Some? && ListFrom(pages, seen, data, fuel).value.Ok?
    ensures seen <= ListFrom(pages, seen, data, fuel).value.value
    decreases fuel
  {
    if Truthy(data) {
      var id := Get(seen[|seen| - 1], "id").value;
      var page := pages(Some(id)).value;
      ListFromKeepsSeen(pages, seen + page.items, page.data, fuel - 1);
    }
  }

  /** A listing that has not ended goes on with the page after the last collected customer's id. */
  lemma ListFromStep(pages: PageSource, seen: seq<Value>, data: Value, fuel: nat, id: Value, page: Page)
    requires Truthy(data) && seen != []
    requires ListFrom(pages, seen, data, fuel).Some?
    requires Get(seen[|seen| - 1], "id") == Ok(id) && pages(Some(id)) == Ok(page)
    ensures fuel > 0
    ensures ListFrom(pages, seen, data, fuel) == ListFrom(pages, seen + page.items, page.data, fuel - 1)
    ensures Calls(pages, seen, data, fuel)
         == [ListRequest(PageLimit, Some(id))] + Calls(pages, seen + page.items, page.data, fuel - 1)
  {
  }

  /** The same step, stated over the loop's variables after they are updated. */
  lemma ListFromStepTo(pages: PageSource, seen: seq<Value>, data: Value, fuel: nat, id: Value, page: Page,
                       seen': seq<Value>, data': Value, fuel': nat)
    requires Truthy(data) && seen != []
    requires ListFrom(pages, seen, data, fuel).Some?
    requires Get(seen[|seen| - 1], "id") == Ok(id) && pages(Some(id)) == Ok(page)
    requires seen' == seen + page.items && data' == page.data && fuel' == fuel - 1
    ensures ListFrom(pages, seen, data, fuel) == ListFrom(pages, seen', data', fuel')
    ensures Calls(pages, seen, data, fuel) == [ListRequest(PageLimit, Some(id))] + Calls(pages, seen', data', fuel')
  {
    ListFromStep(pages, seen, data, fuel, id, page);
  }

  /** `cursor` is the id of one of the customers. */
  predicate IdOfOne(customers: seq<Value>, cursor: Value) {
    exists c :: c in customers && Get(c, "id") == Ok(cursor)
  }

  /** A first page whose data is empty ends the listing with no further call. */
  lemma EmptyFirstPage(api: StripeApi, fuel: nat)
    requires FetchPage(api, None).Ok? && !Truthy(FetchPage(api, None).value.data)
    ensures Listing(ApiPages(api), fuel) == Some(Ok([]))
  {
  }

  /** One call with the last collected customer's id as its cursor, then the calls after that page. */
  lemma CallsStep(pages: PageSource, seen: seq<Value>, data: Value, fuel: nat, id: Value)
    requires Truthy(data) && fuel > 0 && seen != [] && Get(seen[|seen| - 1], "id") == Ok(id)
    ensures pages(Some(id)).Err? ==> Calls(pages, seen, data, fuel) == [ListRequest(PageLimit, Some(id))]
    ensures pages(Some(id)).Ok? ==>
      Calls(pages, seen, data, fuel) == [ListRequest(PageLimit, Some(id))]
        + Calls(pages, seen + pages(Some(id)).value.items, pages(Some(id)).value.data, fuel - 1)
  {
  }

  /** Every call asks for 100 customers after a cursor. */
  predicate AfterCursors(calls: seq<ListRequest>) {
    forall k :: 0 <= k < |calls| ==> calls[k].limit == PageLimit && calls[k].startingAfter.Some?
  }

  /** Every call's cursor is the id of one of the customers. */
  predicate CursorsCollected(calls: seq<ListRequest>, customers: seq<Value>) {
    forall k :: 0 <= k < |calls| ==> calls[k].startingAfter.Some? && IdOfOne(customers, calls[k].startingAfter.value)
  }

  lemma AfterCursorsCons(call: ListRequest, rest: seq<ListRequest>)
    requires call.limit == PageLimit && call.startingAfter.Some? && AfterCursors(rest)
    ensures AfterCursors([call] + rest)
  {
    forall k | 1 <= k < |[call] + rest| ensures ([call] + rest)[k] == rest[k - 1] {
    }
  }

  lemma CursorsCollectedCons(call: ListRequest, rest: seq<ListRequest>, customers: seq<Value>)
    requires call.startingAfter.Some? && IdOfOne(customers, call.startingAfter.value) && CursorsCollected(rest, customers)
    ensures CursorsCollected([call] + rest, customers)
  {
    forall k | 1 <= k < |[call] + rest| ensures ([call] + rest)[k] == rest[k - 1] {
    }
  }

  /** Every call after the first asks for 100 customers after a cursor. */
  lemma {:induction false} CallsShape(pages: PageSource, seen: seq<Value>, data: Value, fuel: nat)
    requires ListFrom(pages, seen, data, fuel).Some?
    ensures AfterCursors(Calls(pages, seen, data, fuel))
    decreases fuel
  {
    if Truthy(data) && seen != [] && Get(seen[|seen| - 1], "id").Ok? {
      var id := Get(seen[|seen| - 1], "id").value;
      var call := ListRequest(PageLimit, Some(id));
      match pages(Some(id))
      case Err(_) =>
        CallsStep(pages, seen, data, fuel, id);
        AfterCursorsCons(call, []);
      case Ok(page) =>
        var seen', data', fuel' := seen + page.items, page.data, fuel - 1;
        ListFromStepTo(pages, seen, data, fuel, id, page, seen', data', fuel');
        CallsShape(pages, seen', data', fuel');
        AfterCursorsCons(call, Calls(pages, seen', data', fuel'));
    }
  }

  /** When the listing returns `customers`, every cursor it sent is the id of one of them. */
  lemma {:induction false} CallsCollected(pages: PageSource, seen: seq<Value>, data: Value, fuel: nat, customers: seq<Value>)
    requires ListFrom(pages, seen, data, fuel) == Some(Ok(customers))
    ensures CursorsCollected(Calls(pages, seen, data, fuel), customers)
    decreases fuel
  {
    if Truthy(data) {
      var id := Get(seen[|seen| - 1], "id").value;
      var page := pages(Some(id)).value;
      var seen', data', fuel' := seen + page.items, page.data, fuel - 1;
      ListFromStepTo(pages, seen, data, fuel, id, page, seen', data', fuel');
      CallsCollected(pages, seen', data', fuel', customers);
      ListFromKeepsSeen(pages, seen, data, fuel);
      assert seen[|seen| - 1] in customers;
      CursorsCollectedCons(ListRequest(PageLimit, Some(id)), Calls(pages, seen', data', fuel'), customers);
    }
  }

  /** The facts about the calls of a whole listing that ListCustomers reports. */
  lemma ListingCallsCursors(pages: PageSource, fuel: nat)
    requires Listing(pages, fuel).Some?
    ensures var calls := ListingCalls(pages, fuel);
      && |calls| >= 1 && calls[0] == ListRequest(PageLimit, None)
      && (forall k :: 0 <= k < |calls| ==> calls[k].limit == PageLimit)
      && (forall k :: 1 <= k < |calls| ==> calls[k].startingAfter.Some?)
    ensures var calls := ListingCalls(pages, fuel);
      var r := Listing(pages, fuel).value;
      r.Ok? ==> forall k :: 1 <= k < |calls| ==> IdOfOne(r.value, calls[k].startingAfter.value)
  {
    var calls := ListingCalls(pages, fuel);
    if pages(None).Ok? {
      var page := pages(None).value;
      var rest := Calls(pages, page.items, page.data, fuel);
      assert calls == [ListRequest(PageLimit, None)] + rest;
      CallsShape(pages, page.items, page.data, fuel);
      var r := Listing(pages, fuel).value;
      if r.Ok? {
        CallsCollected(pages, page.items, page.data, fuel, r.value);
      }
      forall k | 1 <= k < |calls| ensures calls[k] == rest[k - 1] {
      }
    }
  }

  /**
   * One call of Customer.list(limit=100, ...): the response, its data and the
   * customers in it. This is the imperative body of the loop's turn that
   * `FetchPage` specifies.
   */
  method CallList(api: StripeApi, after: Option<Value>) returns (req: ListRequest, page: Result<Page, Failure>)
    ensures req == ListRequest(PageLimit, after)
    ensures page == FetchPage(api, after)
  {
    req := ListRequest(PageLimit, after);
    var response := api(req);
    if response.Err? {
      return req, Err(response.error);
    }
    var data := Get(response.value, "data");
    if data.Err? {
      return req, Err(data.error);
    }
    var items := Items(data.value);
    if items.Err? {
      return req, Err(items.error);
    }
    page := Ok(Page(data.value, items.value));
  }

  /**
   * The loop at the top of export_data. Returns the customers (or the error that
   * ended the listing) and the calls made, in order: the first without a cursor,
   * each later one with the id of the last customer collected before it.
   */
  method ListCustomers(api: StripeApi, ghost pages: PageSource, ghost fuel: nat)
    returns (results: Result<seq<Value>, Failure>, sent: seq<ListRequest>)
    requires forall after {:trigger FetchPage(api, after)} :: pages(after) == FetchPage(api, after)
    requires Listing(pages, fuel).Some?
    ensures results == Listing(pages, fuel).value
    ensures sent == ListingCalls(pages, fuel)
    ensures |sent| >= 1 && sent[0] == ListRequest(PageLimit, None)
    ensures forall k :: 0 <= k < |sent| ==> sent[k].limit == PageLimit
    ensures forall k :: 1 <= k < |sent| ==> sent[k].startingAfter.Some?
    ensures results.Ok? ==> forall k :: 1 <= k < |sent| ==> IdOfOne(results.value, sent[k].startingAfter.value)
  {
    ListingCallsCursors(pages, fuel);
    var req, page := CallList(api, None);
    sent := [req];
    if page.Err? {
      return Err(page.error), sent;
    }
    var customers := page.value.items;
    var last := page.value.data;
    ghost var left := fuel;
    while Truthy(last)
      invariant Truthy(last) ==> customers != []
      invariant Listing(pages, fuel) == ListFrom(pages, customers, last, left)
      invariant ListingCalls(pages, fuel) == sent + Calls(pages, customers, last, left)
      decreases left
    {
      var id := Get(customers[|customers| - 1], "id");
      if id.Err? {
        return Err(id.error), sent;
      }
      req, page := CallList(api, Some(id.value));
      sent := sent + [req];
      if page.Err? {
        return Err(page.error), sent;
      }
      ListFromStep(pages, customers, last, left, id.value, page.value);
      ghost var before, lastBefore, leftBefore := customers, last, left;
      customers := customers + page.value.items;
      last := page.value.data;
      left := left - 1;
      ListFromStepTo(pages, before, lastBefore, leftBefore, id.value, page.value, customers, last, left);
    }
    results := Ok(customers);
  }
}
