/**
 * The Chargify client (chargify.py): request URLs, the classification of a
 * response into a value or an APIError, and the page-numbered listing walk.
 * The network is an oracle from request to response.
 */
module Chargify {
  import opened Results
  import opened PyValue

  /** What the JSON decoding step made of a response body. */
  datatype Body =
    | Json(v: Value)
    /** the response was not served as JSON (ContentTypeError) */
    | WrongContentType
    /** the body was not valid JSON (JSONDecodeError); its text */
    | Undecodable(text: string)

  datatype HttpResponse = HttpResponse(status: int, body: Body)

  datatype HttpRequest = HttpRequest(
    verb: string, url: string, params: seq<Entry>, json: Option<Value>, user: string, password: string)

  /** The network: a response, or a transport failure. */
  type Network = HttpRequest -> Result<HttpResponse, Failure>

  /** The account the client talks to. */
  datatype Client = Client(domain: string, apiKey: string)

  /** "https://{domain}.chargify.com/{endpoint}" */
  function Url(domain: string, endpoint: string): (u: string)
    ensures |u| == 22 + |domain| + |endpoint|
    ensures u[..8] == "https://" && u[8..8 + |domain|] == domain
    ensures u[8 + |domain|..22 + |domain|] == ".chargify.com/" && u[22 + |domain|..] == endpoint
  {
    "https://" + domain + ".chargify.com/" + endpoint
  }

  /** The characters of s before its first '.'. */
  function TakeUntilDot(s: string): (r: string)
    ensures '.' !in r
  {
    if s == [] || s[0] == '.' then [] else [s[0]] + TakeUntilDot(s[1..])
  }

  lemma {:induction false} TakeUntilDotOf(d: string, rest: string)
    requires '.' !in d && rest != [] && rest[0] == '.'
    ensures TakeUntilDot(d + rest) == d
  {
    if d != [] {
      assert (d + rest)[1..] == d[1..] + rest;
      TakeUntilDotOf(d[1..], rest);
    } else {
      assert d + rest == rest;
    }
  }

  /** The account name in a request URL. */
  function DomainOf(url: string): string {
    if |url| >= 8 then TakeUntilDot(url[8..]) else []
  }

  /** The endpoint path in a request URL. */
  function EndpointOf(url: string): string {
    var d := DomainOf(url);
    if |url| >= 22 + |d| then url[22 + |d|..] else []
  }

  /** The account name and the endpoint can be read back from a URL. */
  lemma UrlRoundTrip(domain: string, endpoint: string)
    requires '.' !in domain
    ensures DomainOf(Url(domain, endpoint)) == domain
    ensures EndpointOf(Url(domain, endpoint)) == endpoint
  {
    var u := Url(domain, endpoint);
    assert u[8..] == domain + (".chargify.com/" + endpoint);
    TakeUntilDotOf(domain, ".chargify.com/" + endpoint);
  }

  /** The value `_request` holds after decoding: data, None, or the raw text. */
  function Decode(body: Body): Value {
    match body
    case Json(v) => v
    case WrongContentType => Null
    case Undecodable(text) => Str(text)
  }

  /** APIError(data) */
  function NewApiError(host: Host, data: Value): Failure {
    ApiError(data, PyStr(host, data))
  }

  /** The status check of `_request`: success on 2xx, otherwise an exception. */
  function Classify(host: Host, status: int, response: Value): (r: Result<Value, Failure>)
    ensures r.Ok? <==> 200 <= status < 300
    ensures r.Ok? ==> r.value == response
    ensures !(200 <= status < 300) && response.Dict? && "errors" in Keys(response.fields) ==>
      r.error.ApiError? && Some(r.error.data) == Lookup(response.fields, "errors")
      && r.error.message == PyStr(host, r.error.data)
    ensures !(200 <= status < 300) && response.Dict? && "errors" !in Keys(response.fields) ==>
      r == Err(KeyError(Str("errors")))
    ensures !(200 <= status < 300) && !response.Dict? ==>
      r.error.ApiError? && r.error.message == PyStr(host, response) && r.error.data == Str(r.error.message)
  {
    if 200 <= status < 300 then Ok(response)
    else if response.Dict? then
      // response['errors'] on a dict raises KeyError, which the TypeError handler does not catch
      match Lookup(response.fields, "errors")
      case Some(errors) => Err(NewApiError(host, errors))
      case None => Err(KeyError(Str("errors")))
    else
      // subscripting None, a string, a list or a number raises TypeError
      Err(NewApiError(host, Str(PyStr(host, response))))
  }

  /** Send one request and classify the answer. */
  function Send(host: Host, net: Network, req: HttpRequest): Result<Value, Failure> {
    var resp :- net(req);
    Classify(host, resp.status, Decode(resp.body))
  }

  /** Every request is authenticated as (api_key, "x"). */
  function MakeRequest(client: Client, verb: string, endpoint: string, params: seq<Entry>, json: Option<Value>): HttpRequest {
    HttpRequest(verb, Url(client.domain, endpoint), params, json, client.apiKey, "x")
  }

  /** _request(method, endpoint, params, json) */
  function Request(host: Host, net: Network, client: Client, verb: string, endpoint: string,
                   params: seq<Entry>, json: Option<Value>): Result<Value, Failure> {
    Send(host, net, MakeRequest(client, verb, endpoint, params, json))
  }

  /** A body that is not JSON, or not served as JSON, fails as APIError(str(body)). */
  lemma NonJsonErrorBody(host: Host, net: Network, req: HttpRequest, status: int, body: Body)
    requires !(200 <= status < 300) && !body.Json?
    requires net(req) == Ok(HttpResponse(status, body))
    ensures body.Undecodable? ==> Send(host, net, req) == Err(ApiError(Str(body.text), body.text))
    ensures body.WrongContentType? ==> Send(host, net, req) == Err(ApiError(Str("None"), "None"))
  {
  }

  /** get_customer(id): a falsy id is refused before any request is made. */
  function GetCustomer(host: Host, net: Network, client: Client, customerId: Value): (r: Result<Value, Failure>)
    ensures !Truthy(customerId) ==> r == Err(ValueError("invalid customer_id"))
    ensures Truthy(customerId) ==>
      r == Send(host, net, MakeRequest(client, "GET", "customers/" + PyStr(host, customerId) + ".json", [], None))
  {
    if !Truthy(customerId) then Err(ValueError("invalid customer_id"))
    else Request(host, net, client, "GET", "customers/" + PyStr(host, customerId) + ".json", [], None)
  }

  // ---------------------------------------------------------------------
  // _paginated_request
  // ---------------------------------------------------------------------

  /** A listing endpoint: method, path, fixed query parameters, optional unwrap key. */
  datatype Listing = Listing(verb: string, endpoint: string, params: seq<Entry>, key: Option<string>)

  /** get_customers(), get_invoices() and get_subscriptions(per_page). */
  function CustomersListing(): Listing {
    Listing("GET", "customers.json", [], None)
  }

  function InvoicesListing(): Listing {
    Listing("GET", "invoices.json", [], Some("invoices"))
  }

  function SubscriptionsListing(perPage: int): Listing {
    Listing("GET", "subscriptions.json", [Entry("per_page", Int(perPage))], None)
  }

  /** The request for page `page`: params['page'] = page over the fixed parameters. */
  function PageRequest(client: Client, listing: Listing, page: int): HttpRequest {
    MakeRequest(client, listing.verb, listing.endpoint, Put(listing.params, "page", Int(page)), None)
  }

  /** Page requests carry the page number and keep every other parameter. */
  lemma PageRequestParams(client: Client, listing: Listing, page: int, k: string)
    ensures Lookup(PageRequest(client, listing, page).params, k)
         == if k == "page" then Some(Int(page)) else Lookup(listing.params, k)
  {
    PutLookup(listing.params, "page", Int(page), k);
  }

  /** The records one answered request yields; [] when the (unwrapped) result is falsy. */
  function ResponseItems(host: Host, net: Network, req: HttpRequest, key: Option<string>): Result<seq<Value>, Failure> {
    var results :- Send(host, net, req);
    var unwrapped :- if key.Some? && key.value != "" then Get(results, key.value) else Ok(results);
    if !Truthy(unwrapped) then Ok([]) else Items(unwrapped)
  }

  /**
   * A page ends the listing only when the request succeeded and the (unwrapped)
   * result was falsy.
   */
  lemma EmptyOnlyWhenFalsy(host: Host, net: Network, req: HttpRequest, key: Option<string>)
    requires ResponseItems(host, net, req, key) == Ok([])
    ensures Send(host, net, req).Ok?
    ensures var results := Send(host, net, req).value;
      if key.Some? && key.value != "" then Get(results, key.value).Ok? && !Truthy(Get(results, key.value).value)
      else !Truthy(results)
  {
  }

  /** An unwrap key missing from a decoded page is a KeyError, not the end of the listing. */
  lemma MissingKeyIsError(host: Host, net: Network, req: HttpRequest, key: string)
    requires key != ""
    requires Send(host, net, req).Ok? && Send(host, net, req).value.Dict?
    requires key !in Keys(Send(host, net, req).value.fields)
    ensures ResponseItems(host, net, req, Some(key)) == Err(KeyError(Str(key)))
  {
  }

  /** A request that raised ends the page with the same error. */
  lemma RequestErrorEndsPage(host: Host, net: Network, req: HttpRequest, key: Option<string>)
    requires Send(host, net, req).Err?
    ensures ResponseItems(host, net, req, key) == Err(Send(host, net, req).error)
  {
  }

  /** The records page `page` of a listing yields. */
  function PageItems(host: Host, net: Network, client: Client, listing: Listing, page: int): Result<seq<Value>, Failure> {
    ResponseItems(host, net, PageRequest(client, listing, page), listing.key)
  }

  /**
   * What the caller of the async generator does with each record it yields,
   * before the generator resumes: the value it keeps, or the exception that
   * abandons the listing.
   */
  type Consumer = Value -> Result<Value, Failure>

  /** A caller that keeps every record as it is: `[record async for record in ...]`. */
  function AsIs(): Consumer {
    record => Ok(record)
  }

  /** The caller's handling of one page's records, in order; the first exception stops it. */
  function ConsumeAll(each: Consumer, items: seq<Value>): (r: Result<seq<Value>, Failure>)
    ensures r.Ok? ==> |r.value| == |items|
    ensures r.Ok? ==> forall j :: 0 <= j < |items| ==> each(items[j]) == Ok(r.value[j])
    ensures r.Err? ==> exists j :: 0 <= j < |items| && each(items[j]) == Err(r.error)
  {
    if items == [] then Ok([])
    else
      var x :- each(items[0]);
      var rest :- ConsumeAll(each, items[1..]);
      assert forall j :: 1 <= j < |items| ==> items[j] == items[1..][j - 1];
      Ok([x] + rest)
  }

  /** A caller that keeps every record gets the page's records back unchanged. */
  lemma {:induction false} ConsumeAsIs(items: seq<Value>)
    ensures ConsumeAll(AsIs(), items) == Ok(items)
  {
    if items != [] {
      ConsumeAsIs(items[1..]);
      assert [items[0]] + items[1..] == items;
    }
  }

  /**
   * Page `page` as the caller sees it: the page's records, each handled by the
   * caller before the next page is requested.
   */
  function ConsumedPage(host: Host, net: Network, client: Client, listing: Listing, each: Consumer, page: int)
    : Result<seq<Value>, Failure>
  {
    var items :- PageItems(host, net, client, listing, page);
    ConsumeAll(each, items)
  }

  /**
   * One turn of the loop in _paginated_request: send the request, unwrap
   * `results[key]` when a key is given, and stop on a falsy result. This is the
   * imperative body of the turn that `ResponseItems` specifies.
   */
  method FetchTurn(host: Host, net: Network, req: HttpRequest, key: Option<string>) returns (items: Result<seq<Value>, Failure>)
    ensures items == ResponseItems(host, net, req, key)
    ensures items.Ok? && items.value == [] ==> Send(host, net, req).Ok?
  {
    var response := Send(host, net, req);
    if response.Err? {
      return Err(response.error);
    }
    var results := response.value;
    if key.Some? && key.value != "" {
      var inner := Get(results, key.value);
      if inner.Err? {
        return Err(inner.error);
      }
      results := inner.value;
    }
    if !Truthy(results) {
      return Ok([]);
    }
    items := Items(results);
  }

  /** What a page-numbered walk produced: the records or an error, and how many pages it requested. */
  datatype Walked = Walked(result: Result<seq<Value>, Failure>, pages: nat)

  /** The outcome of each page number. */
  type PageSource = int -> Result<seq<Value>, Failure>

  /** The outcome of each page of a listing, as the caller consumes it. */
  function ListingPages(host: Host, net: Network, client: Client, listing: Listing, each: Consumer): PageSource {
    p => ConsumedPage(host, net, client, listing, each, p)
  }

  /** The parameters after n turns: the fixed ones, then params['page'] = n once n >= 1. */
  function PageParams(listing: Listing, n: int): seq<Entry> {
    if n < 1 then listing.params else Put(listing.params, "page", Int(n))
  }

  /** Writing params['page'] again leaves the same parameters as writing it once over the fixed ones. */
  lemma PageParamsStep(listing: Listing, page: int)
    requires page >= 1
    ensures Put(PageParams(listing, page - 1), "page", Int(page)) == PageParams(listing, page)
  {
    if page != 1 {
      PutPut(listing.params, "page", Int(page - 1), Int(page));
    }
  }

  /** One turn's request: write params['page'] = page in place and build the request over it. */
  method NextPageRequest(client: Client, listing: Listing, params: seq<Entry>, page: int)
    returns (next: seq<Entry>, req: HttpRequest)
    requires page >= 1 && params == PageParams(listing, page - 1)
    ensures next == PageParams(listing, page)
    ensures req == PageRequest(client, listing, page)
  {
    PageParamsStep(listing, page);
    next := Put(params, "page", Int(page));
    req := MakeRequest(client, listing.verb, listing.endpoint, next, None);
  }

  /**
   * One turn of the loop: write params['page'] = page, send the request, read
   * its records and yield each of them to the caller.
   */
  method Turn(host: Host, net: Network, client: Client, listing: Listing, each: Consumer, params: seq<Entry>, page: int)
    returns (next: seq<Entry>, req: HttpRequest, items: Result<seq<Value>, Failure>)
    requires page >= 1 && params == PageParams(listing, page - 1)
    ensures next == PageParams(listing, page)
    ensures req == PageRequest(client, listing, page)
    ensures items == ConsumedPage(host, net, client, listing, each, page)
  {
    next, req := NextPageRequest(client, listing, params, page);
    var records := FetchTurn(host, net, req, listing.key);
    if records.Err? {
      return next, req, Err(records.error);
    }
    items := ConsumeAll(each, records.value);
  }

  /** A page's records in front of the rest of a walk. */
  function Prepend(items: seq<Value>, rest: Walked): Walked {
    Walked(if rest.result.Ok? then Ok(items + rest.result.value) else rest.result, rest.pages + 1)
  }

  /** The walk from page `page` on; None when it has not ended within `fuel` pages. */
  function Walk(pages: PageSource, page: int, fuel: nat): Option<Walked>
    decreases fuel
  {
    if fuel == 0 then None
    else
      match pages(page)
      case Err(e) => Some(Walked(Err(e), 1))
      case Ok(items) =>
        if items == [] then Some(Walked(Ok([]), 1))
        else
          match Walk(pages, page + 1, fuel - 1)
          case None => None
          case Some(rest) => Some(Prepend(items, rest))
  }

  /** Page `page` yielded records, so the walk went on to the next page. */
  predicate Continues(pages: PageSource, page: int) {
    pages(page).Ok? && pages(page).value != []
  }

  /** The records of pages start .. start + n - 1, in order. */
  function Collected(pages: PageSource, start: int, n: nat): seq<Value>
    decreases n
  {
    if n == 0 then []
    else (if pages(start).Ok? then pages(start).value else []) + Collected(pages, start + 1, n - 1)
  }

  /**
   * A finished walk of n pages went through pages start .. start + n - 1: every
   * page but the last yielded records; the last one was empty or failed, and no
   * later page was requested; the result is the concatenation of the non-empty
   * pages in order, or the last page's error.
   */
  lemma {:induction false} WalkIsConcatenation(pages: PageSource, start: int, fuel: nat)
    requires Walk(pages, start, fuel).Some?
    ensures var w := Walk(pages, start, fuel).value;
      var last := pages(start + w.pages - 1);
      && w.pages >= 1
      && (forall p :: start <= p < start + w.pages - 1 ==> Continues(pages, p))
      && (last.Err? ==> w.result == Err(last.error))
      && (last.Ok? ==> last.value == [] && w.result == Ok(Collected(pages, start, w.pages - 1)))
    decreases fuel
  {
    if Continues(pages, start) {
      WalkIsConcatenation(pages, start + 1, fuel - 1);
    }
  }

  /**
   * While pages start .. page - 1 have all yielded records, the walk has not
   * ended before `page`; the first page that does not yield records is its last.
   */
  lemma WalkEndsAt(pages: PageSource, start: int, fuel: nat, page: int)
    requires Walk(pages, start, fuel).Some? && start <= page
    requires forall p :: start <= p < page ==> Continues(pages, p)
    ensures page <= start + Walk(pages, start, fuel).value.pages - 1
    ensures !Continues(pages, page) ==> page == start + Walk(pages, start, fuel).value.pages - 1
    ensures Continues(pages, page) ==> page < start + Walk(pages, start, fuel).value.pages - 1
    ensures pages(page).Err? ==> Walk(pages, start, fuel).value.result == Err(pages(page).error)
    ensures pages(page) == Ok([]) ==> Walk(pages, start, fuel).value.result == Ok(Collected(pages, start, page - start))
  {
    WalkIsConcatenation(pages, start, fuel);
    var last := start + Walk(pages, start, fuel).value.pages - 1;
    assert !Continues(pages, last);
  }

  /** The records collected after one more page. */
  lemma {:induction false} CollectedSnoc(pages: PageSource, start: int, n: nat)
    ensures Collected(pages, start, n + 1)
         == Collected(pages, start, n) + (if pages(start + n).Ok? then pages(start + n).value else [])
    decreases n
  {
    if n > 0 {
      CollectedSnoc(pages, start + 1, n - 1);
      var head := if pages(start).Ok? then pages(start).value else [];
      assert head + (Collected(pages, start + 1, n - 1)
                     + (if pages(start + n).Ok? then pages(start + n).value else []))
          == (head + Collected(pages, start + 1, n - 1))
             + (if pages(start + n).Ok? then pages(start + n).value else []);
    }
  }

  /** The requests for pages 1 .. n, in order. */
  function PageRequests(client: Client, listing: Listing, n: nat): seq<HttpRequest>
    decreases n
  {
    if n == 0 then [] else PageRequests(client, listing, n - 1) + [PageRequest(client, listing, n)]
  }

  lemma {:induction false} PageRequestsAt(client: Client, listing: Listing, n: nat)
    ensures |PageRequests(client, listing, n)| == n
    ensures forall j :: 0 <= j < n ==> PageRequests(client, listing, n)[j] == PageRequest(client, listing, j + 1)
    decreases n
  {
    if n > 0 {
      PageRequestsAt(client, listing, n - 1);
    }
  }

  /** `pages` is what the listing serves, as the caller consumes it. */
  ghost predicate Serves(host: Host, net: Network, client: Client, listing: Listing, each: Consumer, pages: PageSource) {
    forall p {:trigger ConsumedPage(host, net, client, listing, each, p)} ::
      pages(p) == ConsumedPage(host, net, client, listing, each, p)
  }

  /**
   * One turn of the loop, read against the walk: the page's outcome is the walk's
   * page `page`, the walk goes on after a page with records and ends at one without.
   */
  method WalkTurn(host: Host, net: Network, client: Client, listing: Listing, each: Consumer,
                  ghost pages: PageSource, ghost maxPages: nat, params: seq<Entry>, page: int)
    returns (next: seq<Entry>, req: HttpRequest, items: Result<seq<Value>, Failure>)
    requires Serves(host, net, client, listing, each, pages)
    requires Walk(pages, 1, maxPages).Some?
    requires page >= 1 && params == PageParams(listing, page - 1)
    requires forall p :: 1 <= p < page ==> Continues(pages, p)
    ensures next == PageParams(listing, page)
    ensures req == PageRequest(client, listing, page)
    ensures items == pages(page)
    ensures page <= Walk(pages, 1, maxPages).value.pages
    ensures items.Ok? && items.value != [] ==> page < Walk(pages, 1, maxPages).value.pages
    ensures items.Err? ==> Walk(pages, 1, maxPages).value == Walked(Err(items.error), page)
    ensures items == Ok([]) ==> Walk(pages, 1, maxPages).value == Walked(Ok(Collected(pages, 1, page - 1)), page)
  {
    next, req, items := Turn(host, net, client, listing, each, params, page);
    WalkEndsAt(pages, 1, maxPages, page);
  }

  /**
   * _paginated_request: requests pages 1, 2, 3, ... writing params['page'] each
   * time, unwraps each page under `key` when one is given, and stops at the first
   * falsy page. Each record is yielded to the caller, whose handling `each` runs
   * before the next page is requested, so an exception there ends the listing.
   * Returns what the caller kept, in order, and the requests sent; the provider
   * must end the listing within `maxPages` pages.
   */
  method PaginatedRequest(host: Host, net: Network, client: Client, listing: Listing, each: Consumer,
                          ghost pages: PageSource, ghost maxPages: nat)
    returns (results: Result<seq<Value>, Failure>, sent: seq<HttpRequest>)
    requires Serves(host, net, client, listing, each, pages)
    requires Walk(pages, 1, maxPages).Some?
    ensures results == Walk(pages, 1, maxPages).value.result
    ensures |sent| == Walk(pages, 1, maxPages).value.pages
    ensures forall j :: 0 <= j < |sent| ==> sent[j] == PageRequest(client, listing, j + 1)
  {
    ghost var whole := Walk(pages, 1, maxPages).value;
    WalkEndsAt(pages, 1, maxPages, 1);
    var page := 1;
    var params := listing.params;
    var collected: seq<Value> := [];
    sent := [];
    while true
      invariant 1 <= page <= whole.pages
      invariant params == PageParams(listing, page - 1)
      invariant sent == PageRequests(client, listing, page - 1)
      invariant forall p :: 1 <= p < page ==> Continues(pages, p)
      invariant collected == Collected(pages, 1, page - 1)
      decreases whole.pages - page
    {
      var req;
      var items;
      params, req, items := WalkTurn(host, net, client, listing, each, pages, maxPages, params, page);
      sent := sent + [req];
      if items.Err? || items.value == [] {
        PageRequestsAt(client, listing, page);
        results := if items.Err? then Err(items.error) else Ok(collected);
        return;
      }
      CollectedSnoc(pages, 1, page - 1);
      collected := collected + items.value;
      page := page + 1;
    }
  }
}
