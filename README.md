# Chargify-to-Chargebee export, modelled in Dafny

This project models the data pipeline of a small service. The service pulls
subscriptions and invoices from Chargify and customers from Stripe. It joins
them and produces six tables for a Chargebee import:

- the customers table;
- the subscriptions table;
- the invoices table;
- three "raw" dumps of the fetched records, each flattened to one level of keys.

Two source files are modelled:

- `chargify.py`, the Chargify client:
  - building request URLs;
  - classifying a response into a value or an `APIError` (`_request`);
  - walking a page-numbered listing (`_paginated_request`);
  - the argument guard of `get_customer`.
- `server.py`, the export itself:
  - `export_data`: the Stripe cursor loop and the three row builders, including
    the plan index, the in-place coupon padding and the invoice skip rules;
  - the raw exports;
  - `flatten_dict`;
  - `format_date`.

Files, one module each:

| file | module | what it holds |
|---|---|---|
| `results.dfy` | `Results` | `Option` and `Result` (the error path of every operation) |
| `pyvalue.dfy` | `PyValue` | Python values (`Value`, insertion-ordered dicts), exceptions (`Failure`), truthiness, subscripting, `float()`, `str()`, and the foreign libraries as a `Host` record of functions |
| `chargify.dfy` | `Chargify` | URL, response classification, `get_customer`, the paginated walk |
| `stripe.dfy` | `Stripe` | the `Customer.list` cursor loop |
| `dates.dfy` | `Dates` | `dateparse` and `format_date` |
| `flatten.dfy` | `Flatten` | `flatten_dict`, imperative over a shared accumulator |
| `customers.dfy` | `CustomerRows` | one customers row and its properties |
| `subscriptions.dfy` | `SubscriptionRows` | the plan and status tables, coupons, date gating, one subscriptions row |
| `invoices.dfy` | `InvoiceRows` | the invoice skip and abort rules, amounts, tax and discount columns, one invoices row |
| `export.dfy` | `Export` | the fetches and indices, the three table loops, the raw exports, `export_data` |

How it is modelled:

- Python exceptions are `Err` values of `Result`. A `KeyError` that the source
  catches becomes either the all-None placeholder card (a missing
  `credit_card`, `server.py:256-269`) or a skip, `Option.None` (the plan
  lookup, `server.py:575-578`); any other error aborts the export.
  The closed lookup tables (product handle to plan, state to status) are finite
  `map`s, so a handle or state outside them is an `Err(KeyError(..))`.
- The network is an oracle:
  - Chargify is a function from request to response or transport error;
  - Stripe is a function from list request to response object.
  A walk that never ends cannot be run, so each loop takes a ghost page bound.
  It requires the provider to end the listing within that bound.
- The loops of `export_data` are methods. Each is proved against a
  front-to-back accumulator fold. The folds' properties are lemmas: one row
  per record, the row widths, which ids enter the plan index, and the shape of
  a raw export.
- `_paginated_request` is an async generator. Each page's records go to the
  caller's comprehension before the next page is requested. The model passes
  that per-record step (`Consumer`) into the walk. So when
  `record['subscription']` fails on a page, no later page is requested.
- The Stripe loop reads its cursor as `customers[-1]['id']`. A page whose
  `data` is truthy always has customers, so that read never meets an empty
  list. The listing function still spells out the `IndexError` branch.
- `flatten_dict` is a recursive method over an `Accumulator` object, which
  stands for the `output` dict. A nested call writes into the caller's
  accumulator only when that accumulator is non-empty, as
  `if not output: output = dict()` does.

Where the code and the system's design description differ, the model follows
the code:

- The customers header has 36 columns, not 35. The empty literal at
  `server.py:236` is joined to the next string.
- A non-2xx response whose JSON body is a dict without `errors` raises
  `KeyError`, not an `APIError` carrying the whole body.
- A listing page without its unwrap key raises `KeyError`. It does not end
  the listing.
- Float and date parse failures are the `ValueError` that Python raises
  (dateutil's parser error is a subclass of it), carrying the rejected text.

## Model

| member | source | states |
|---|---|---|
| `Chargify.Url` | chargify.py:31 | the URL is "https://", then the domain, then ".chargify.com/", then the endpoint, at fixed offsets |
| `Chargify.UrlRoundTrip` | chargify.py:31 | for a domain without a dot, the domain and the endpoint can both be read back from the URL |
| `Chargify.Classify` | chargify.py:41-47 | success exactly for 200 <= status < 300, returning the decoded body unchanged; otherwise `APIError(body['errors'])` for a dict with `errors`, `KeyError('errors')` for a dict without it, and `APIError(str(body))` for any non-dict body; the error's message is `str` of its data |
| `Chargify.NonJsonErrorBody` | chargify.py:34-47 | a non-2xx body that failed JSON decoding raises `APIError` of its text; one that was not served as JSON raises `APIError("None")` |
| `Chargify.GetCustomer` | chargify.py:65-73 | a falsy id raises `ValueError` before any request; otherwise it is exactly one GET of `customers/{id}.json` |
| `Chargify.PageRequestParams` | chargify.py:50-55 | the request for page n has `page` = n and every other fixed parameter (such as `per_page`) unchanged |
| `Chargify.PageParamsStep` | chargify.py:55 | writing `params['page']` = n over the parameters left by the previous turn gives the fixed parameters with `page` = n, whatever page was written before |
| `Chargify.NextPageRequest` | chargify.py:52-55 | writing `params['page']` in place over the previous page's parameters gives the fixed parameters with `page` = n, and the request sent is the one for page n |
| `Chargify.Turn` | chargify.py:55-58 | one turn of the loop leaves the parameters for page n, sends the request for page n and reads exactly that page's outcome |
| `Chargify.EmptyOnlyWhenFalsy` | chargify.py:56-60 | a page ends the listing only if its request succeeded and its result, unwrapped under the key when one is given, was falsy |
| `Chargify.MissingKeyIsError` | chargify.py:57-58 | a decoded page without the unwrap key is a `KeyError`, not the end of the listing |
| `Chargify.RequestErrorEndsPage` | chargify.py:56 | an error raised by `_request` is the page's outcome |
| `Chargify.FetchTurn` | chargify.py:55-62 | one turn of the loop yields exactly the page's records, `[]` for a falsy result, or the error |
| `Chargify.WalkIsConcatenation` | chargify.py:49-63 | a finished walk of n pages from `start`: every page but the last yielded records; if the last one failed, its error is the result; otherwise it was empty and the result is the records of the earlier pages, concatenated in page order |
| `Chargify.WalkEndsAt` | chargify.py:54-63 | while every earlier page yielded records the walk has not ended, and the first page without records is the last one requested |
| `Chargify.CollectedSnoc` | chargify.py:61-63 | the records collected after one more page are the earlier ones followed by that page's records |
| `Chargify.WalkTurn` | chargify.py:54-62 | one turn's outcome is the walk's page: after a page with records the walk goes on; a failed or empty page is its last, with that error or the records collected before it |
| `Chargify.ConsumeAll` | chargify.py:61-62 | the caller's handling of the yielded records runs in order: one result per record, or the exception of a record it fails on |
| `Chargify.ConsumeAsIs` | chargify.py:61-62 | a caller that keeps each record as it is gets the page's records unchanged |
| `Chargify.PaginatedRequest` | chargify.py:49-63 | the loop returns the walk's result over the pages as the caller consumes them, and sends exactly the requests for pages 1, 2, …, one per page the walk requested, so a page whose records the caller fails on is the last one requested |
| `Stripe.FetchPage` | server.py:205-210 | a page's records are non-empty exactly when its `data` is truthy |
| `Stripe.CallList` | server.py:205-210 | one call asks for 100 customers after the given cursor and yields exactly that page's `data` and customers, or the error |
| `Stripe.ListFromStepTo` | server.py:208-210 | while `data` is truthy, the listing goes on with the page after the last collected customer's id, its customers appended |
| `Stripe.ListFromKeepsSeen` | server.py:204-210 | customers already collected stay at the front of the final list, in order |
| `Stripe.EmptyFirstPage` | server.py:205-208 | a first page with falsy `data` ends the listing with no customers and no further call |
| `Stripe.ListCustomers` | server.py:204-210 | the loop returns the listing's result and sends exactly the listing's calls: one without a cursor, then, after each page with truthy `data`, one whose cursor is the id of the last customer collected so far; every call asks for 100, and every later cursor is the id of a collected customer |
| `Stripe.CallsShape` | server.py:208-210 | every call after the first asks for 100 customers after a cursor |
| `Stripe.CallsCollected` | server.py:208-210 | in a listing that succeeds, every cursor sent is the id of a customer in the final list |
| `Stripe.ListingCallsCursors` | server.py:204-210 | the listing's calls start with one without a cursor, all ask for 100, and the later ones carry cursors that are ids of collected customers when the listing succeeds |
| `Dates.ParseDate` | server.py:580 | parsing succeeds exactly for a string the host parser accepts, otherwise it raises |
| `Dates.FormatDate` | server.py:716-726 | falsy input gives None; a datetime is returned unchanged; anything else is parsed and printed, and a parse failure raises |
| `Dates.FormatDateIdempotent` | server.py:716-726 | with a host whose printed dates parse back, formatting an already formatted date changes nothing |
| `Flatten.Accumulator.Store` | server.py:740 | `output[fullkey] = value` replaces an existing key in place or appends a new one |
| `Flatten.FlattenDict` | server.py:729-741 | the method computes the flattening fold; it returns the caller's accumulator when that was non-empty, and otherwise a fresh one, leaving the caller's empty accumulator empty |
| `Flatten.FlattenFields` | server.py:735-740 | the loop runs every entry of the dict through the output, in order: the output becomes the flattening fold from its old entries |
| `Flatten.FlattenEntry` | server.py:735-740 | one entry changes the output exactly as the flattening fold of that entry does: a value is stored under its composed key, a dict goes through the nested call with its key as prefix |
| `Flatten.FlattenStep` | server.py:735-740 | flattening from entry i is flattening entry i and then the entries after it |
| `Flatten.FlattenRecord` | server.py:729-741 | top-level `flatten_dict(record)` is the flattening of the record from an empty accumulator; a non-dict raises |
| `Flatten.FlattenIsFlat` | server.py:736-740 | no dict value is ever stored |
| `Flatten.FlattenKeysDistinct` | server.py:739-740 | every composed key appears once in the output |
| `Flatten.FlattenSplit` | server.py:735-740 | the loop runs left to right: flattening xs + ys is flattening ys after xs |
| `Flatten.FlattenNeverShrinks` | server.py:735-740 | the output never shrinks: it has at least as many entries as before the loop |
| `Flatten.FlattenKeepsKeys` | server.py:735-740 | a key once stored is never removed |
| `Flatten.LastWriteWins` | server.py:739-740 | a later entry with the same composed key overwrites the earlier value |
| `Flatten.NestedLostWhileEmpty` | server.py:733-737 | a nested dict met while nothing has been stored is lost entirely |
| `Flatten.NestedStoredUnderParent` | server.py:736-740 | once something is stored, the key "parent[key]" of a non-dict value one level down is present in the output |
| `Flatten.InnerStoresKey` | server.py:736-740 | a dict flattened into a non-empty output leaves the composed key of each of its non-dict values present, "parent[key]" for a non-empty parent |
| `Flatten.FlattenLeavesOthers` | server.py:735-740 | a key that no entry, at any depth, composes to keeps the value it had |
| `Flatten.InnerStoresValue` | server.py:736-740 | a non-dict value of a dict ends up under its composed key, unchanged, unless a later entry of that dict writes the same key |
| `Flatten.NestedValueUnderParent` | server.py:733-740 | once something is stored, a non-dict value one level down is the value under "parent[key]", unless a later entry writes that key |
| `Flatten.LaterNestedWriteWins` | server.py:736-740 | in {"p": {"k": 1, "p": {"k": 2}}} the deeper value overwrites: "p[k]" holds 2 |
| `Flatten.PrefixIsImmediateParent` | server.py:737-739 | two levels down the key is "b[c]", not "a[b][c]": only the immediate parent prefixes |
| `CustomerRows.CreditCardOf` | server.py:256-269 | a missing `credit_card` is replaced by the placeholder; a present one is used as is |
| `CustomerRows.PlaceholderReads` | server.py:259-269 | every field the row reads from the placeholder card is None |
| `CustomerRows.CardToken` | server.py:271-277 | a falsy vault token gives None; a truthy one gives "{token}/{default_source}" of the Stripe customer it names; an unknown token raises `KeyError` |
| `CustomerRows.VatNumber` | server.py:279-293 | the VAT number is read only for GB billing and is None otherwise |
| `CustomerRows.JoinedToken` | server.py:271-277 | the row's card token is "{vault_token}/{default_source}" of a known Stripe customer when the token is truthy, and None otherwise |
| `CustomerRows.AssembledPayment` | server.py:288-291 | the payment-method and auto-collection columns are the payment fields of the card token |
| `CustomerRows.AssembledTax` | server.py:292-293 | taxability is "taxable" exactly for billing country "GB", else "exempt"; the VAT column holds the VAT number read |
| `CustomerRows.AssembledBilling` | server.py:301-313 | the billing columns hold the card's names, street, city, state, zip and country, and the customer's email |
| `CustomerRows.CustomerRow` | server.py:281-318 | a built row has exactly as many cells as the customers header |
| `CustomerRows.CustomerRowPayment` | server.py:288-291 | with a card token: "card", "stripe", the token, auto collection "on"; without one: None, None, None, "off" |
| `CustomerRows.CustomerRowTax` | server.py:279-293 | taxability is "taxable" exactly for billing country "GB", else "exempt"; the VAT number is emitted only when taxable |
| `CustomerRows.UnknownTokenAborts` | server.py:272-273 | a truthy vault token missing from the Stripe lookup aborts the export with `KeyError` instead of skipping the row |
| `CustomerRows.MissingCardRow` | server.py:256-318 | without a credit card the row has no payment method, auto collection "off", exempt taxability and None in every card column |
| `CustomerRows.CustomerColumnCount` | server.py:214-251 | the header has 36 columns, and "billing_address[company]" follows "billing_address[email]" |
| `SubscriptionRows.CouponIds` | server.py:401-406 | no codes give [None, None]; a single code is padded with None and the padded list is written back; two or more are kept as they are |
| `SubscriptionRows.CouponSlotsOfList` | server.py:401-442 | the coupon columns are (None, None), (code, None) or the first two codes |
| `SubscriptionRows.GatedDate` | server.py:420-436 | a closed gate gives None, whatever the record holds |
| `SubscriptionRows.StartDates` | server.py:420-426 | trial start and end are gated on state "trialing", started_at on status active or cancelled |
| `SubscriptionRows.TermDates` | server.py:427-436 | the current term is gated on status active or paused; cancelled_at reads trial_ended_at for state "trial_ended" and canceled_at otherwise |
| `SubscriptionRows.AssembleSubscriptionRow` | server.py:408-466 | the row has the header's width and carries the id, plan, status, dates and coupon slots in their columns |
| `SubscriptionRows.SubscriptionRowParts` | server.py:408-466 | a built row is the assembled row of the customer reference, the plan head, the status, the gated dates and the coupon slots |
| `SubscriptionRows.SubscriptionRowIds` | server.py:408-442 | a built row carries the id, plan, status and coupon slots |
| `SubscriptionRows.SubscriptionRowDates` | server.py:420-436 | each date column of a built row is gated as the source gates it |
| `SubscriptionRows.PlanHeadFacts` | server.py:378-389 | a planned subscription has a handle in the plan table, a hashable id, and the plan its handle maps to |
| `SubscriptionRows.StandingFacts` | server.py:391-399 | the status is the one the state maps to |
| `SubscriptionRows.EmittedFrom` | server.py:375-467 | an emitted subscription went through every stage; its row and its plan-index entry come from them, and its record is the one with the coupons padded |
| `SubscriptionRows.SubscriptionStep` | server.py:375-467 | an emitted row has exactly the header's width |
| `SubscriptionRows.FalsyHandleSkipped` | server.py:378-380 | a falsy product handle produces no row and no plan-index entry |
| `SubscriptionRows.UnknownHandleAborts` | server.py:382-387 | a truthy handle outside {unlimited, pro-plus, pro, basic} aborts with `KeyError` |
| `SubscriptionRows.UnknownStateAborts` | server.py:391-399 | a state outside the seven listed aborts with `KeyError` |
| `SubscriptionRows.SkippedIffFalsyHandle` | server.py:378-380 | a subscription is skipped exactly when its handle is falsy |
| `SubscriptionRows.EmittedPlanAndStatus` | server.py:382-417 | an emitted row and its plan-index entry carry the subscription id, the plan its handle maps to and the status its state maps to |
| `SubscriptionRows.EmittedDates` | server.py:420-436 | each date column of an emitted row is gated as the source gates it |
| `SubscriptionRows.EmittedCoupons` | server.py:441-442 | the coupon columns are slots 0 and 1 of the coupon ids |
| `SubscriptionRows.WrittenChangesOnlyCoupons` | server.py:401-404 | the in-place padding changes only `coupon_codes` and keeps every other field and the key order |
| `SubscriptionRows.TrialingProScenario` | server.py:382-432 | a trialing "pro" subscription is exported with plan "scale-gbp", status "trial", trial dates, and no started_at or current term |
| `SubscriptionRows.OnHoldScenario` | server.py:391-432 | an on_hold subscription is "paused" with its current term end and without trial dates or started_at |
| `SubscriptionRows.SubscriptionColumnCount` | server.py:324-369 | the header has 45 columns, with the coupon slots at 20 and 21 |
| `InvoiceRows.InvoiceContext` | server.py:573-578 | the customer, the subscription found by `subscription_id`, and its plan; only a `KeyError` of the plan lookup becomes a skip |
| `InvoiceRows.ReadPreamble` | server.py:579-583 | the billing address, the parsed issue date plus one month, and float(tax_amount) |
| `InvoiceRows.SkipChecks` | server.py:585-588 | "canceled" is skipped; otherwise the invoice is skipped exactly when float(subtotal) is zero |
| `InvoiceRows.ReadSums` | server.py:590-591 | float(credit_amount) and float(discount_amount), with the raw discount kept |
| `InvoiceRows.AssembleInvoiceRow` | server.py:599-697 | the row has the header's width and carries subscription id, status, total, plan line item, period and amounts in their columns |
| `InvoiceRows.AssembledTaxes` | server.py:657-677 | line tax 1 and the taxes block hold "VAT", "20" and the tax amount exactly when taxed, None otherwise |
| `InvoiceRows.AssembledDiscount` | server.py:671-674 | the discount columns are filled only when discounted, and the entity type only when the coupon code is truthy as well |
| `InvoiceRows.RowCells` | server.py:599-697 | total = (subtotal − credit) − discount + tax, amount = subtotal − credit, taxed iff tax ≠ 0, discounted iff discount ≠ 0 |
| `InvoiceRows.InvoiceStep` | server.py:572-698 | an emitted row has exactly the header's width |
| `InvoiceRows.EmittedInvoice` | server.py:572-698 | an emitted row went through every stage and is the row laid out from them |
| `InvoiceRows.RowAmount` | server.py:590-652 | a built row's unit amount and amount are subtotal − credit, with quantity 1 |
| `InvoiceRows.RowTotal` | server.py:590-610 | a built row's total is (subtotal − credit) − discount + tax |
| `InvoiceRows.KeptFacts` | server.py:585-588 | a kept invoice is not canceled and carries its non-zero subtotal |
| `InvoiceRows.EmittedSubtotalNonZero` | server.py:585-588 | no emitted invoice is canceled or has a zero subtotal |
| `InvoiceRows.InvoiceAmount` | server.py:590-652 | the line item's unit amount and amount are both subtotal − credit, with quantity 1 |
| `InvoiceRows.InvoiceTotal` | server.py:590-610 | the invoice total is (subtotal − credit) − discount + tax |
| `InvoiceRows.InvoiceTaxColumns` | server.py:583-677 | the VAT name, rate "20" and the raw tax amount appear exactly when float(tax_amount) ≠ 0, and are None otherwise |
| `InvoiceRows.InvoiceDiscountColumns` | server.py:591-674 | the coupon and raw discount appear exactly when float(discount_amount) ≠ 0; the entity type needs a truthy coupon code too |
| `InvoiceRows.InvoicePlanAndPeriod` | server.py:576-647 | the line item is the subscription's plan, dated from the parsed issue date to one month later |
| `InvoiceRows.InvoiceSkippedIff` | server.py:572-588 | an invoice is skipped exactly when its subscription has no plan, or it is canceled, or its subtotal is zero |
| `InvoiceRows.PlanlessSubscriptionSkipped` | server.py:575-578 | a subscription with no plan makes its invoice skipped, not an error |
| `InvoiceRows.UnknownSubscriptionAborts` | server.py:574 | an invoice whose subscription_id is not in the lookup aborts with `KeyError` |
| `InvoiceRows.CanceledSkipped` | server.py:585-586 | a canceled invoice with a plan is skipped once its preamble has been read |
| `InvoiceRows.PreambleBeforeSkips` | server.py:579-588 | a failure reading the billing address, the issue date or the tax amount aborts, even for an invoice the skip checks would drop |
| `InvoiceRows.UnparseableIssueDateAborts` | server.py:579-586 | a canceled invoice with an unparseable issue date aborts rather than being skipped |
| `InvoiceRows.InvoiceColumnCount` | server.py:472-568 | the header has 95 columns, with the tax name and rate where the row puts them |
| `Export.Header` | server.py:252 | the header row has one string cell per column name |
| `Export.Project` | server.py:198 | unwrapping `record['subscription']` succeeds exactly when every record has it, and keeps one value per record, in order |
| `Export.ConsumeUnwrap` | server.py:198 | unwrapping the records of a page one by one as they are yielded gives the page's projection, or its first `KeyError` |
| `Export.UnwrapFailureEndsListing` | server.py:198 | a page with a record that lacks `subscription` ends the subscriptions listing with that `KeyError`, and no later page is requested |
| `Export.InvoicePagesAsFetched` | server.py:199 | the invoices comprehension keeps each page's records as fetched |
| `Export.IndexFromSucceeds` | server.py:201-212 | the id index succeeds exactly when every record has an id and that id is hashable |
| `Export.IndexFromHasKeys` | server.py:201-212 | a built index holds every record's id, and no key it started from is lost |
| `Export.IndexFromFinds` | server.py:201-212 | in a built index, each record's id maps to that record when no later record has the same id: the last one wins |
| `Export.IndexFromKeeps` | server.py:201-212 | an entry that no later record's id overwrites keeps its value |
| `Export.AppendRowsOnePerRecord` | server.py:254-319 | the loop succeeds exactly when every record's row does, and appends those rows, one per record, in order |
| `Export.KeepRowsShape` | server.py:572-698 | the loop appends at most one row per record, only rows some step produced, and none when every step skips |
| `Export.PlanRowsRecords` | server.py:375-467 | the loop succeeds only if every subscription's step does; every record keeps its place after the earlier ones, padded when emitted |
| `Export.PlanRowsRows` | server.py:375-467 | the loop appends exactly the rows of the emitted subscriptions, in order, after the rows already there |
| `Export.EmittedRowsWidth` | server.py:408-467 | every emitted subscription row has the subscriptions header's width |
| `Export.PlanRowsIndex` | server.py:375-389 | an id is in the plan index exactly when a subscription with that id was emitted |
| `Export.NotEmittedNotPlanned` | server.py:378-389 | an id that no emitted subscription carries is not in the plan index |
| `Export.InvoiceOfUnplannedSubscriptionDropped` | server.py:575-578 | an invoice of a subscription that was not emitted (a falsy handle) produces no row |
| `Export.CustomersTable` | server.py:252-321 | the customers table is the header and then one row of the header's width per subscription |
| `Export.SubscriptionsTable` | server.py:371-469 | the subscriptions table is the header followed by the rows of the emitted subscriptions, in order: at most one per subscription, each of the header's width; every subscription record keeps its place, padded when emitted |
| `Export.InvoicesTable` | server.py:570-700 | the invoices table is the header and then at most one row of the header's width per invoice |
| `Export.AppendEach` | server.py:254-319 | a loop that appends each record's row computes the append fold, stopping at the first exception |
| `Export.KeepEach` | server.py:572-698 | a loop that appends the rows its step keeps computes the keep fold, stopping at the first exception |
| `Export.PlanEach` | server.py:375-467 | the subscriptions loop over an array computes the plan fold: its rows and plan index, with the array left holding the padded records; on an exception, that error |
| `Export.PlanSubscriptions` | server.py:371-469 | the subscriptions loop over the subscription list gives the plan fold's rows, plan index and padded records |
| `Export.BuildCustomerRows` | server.py:252-321 | the loop computes the customers fold |
| `Export.BuildSubscriptionRows` | server.py:371-469 | the loop computes the subscriptions fold, and pads single coupon codes in place in the records array |
| `Export.BuildInvoiceRows` | server.py:570-700 | the loop computes the invoices fold over the plan index |
| `Export.RawRowsSucceeds` | server.py:703-710 | the loop succeeds exactly when every record is a dict |
| `Export.RawRowsShape` | server.py:703-710 | a finished loop appends one row of flattened values per record, in order, after the rows already there |
| `Export.RawExportShape` | server.py:702-710 | a raw export is the first record's flattened keys and then each record's flattened values; an empty collection raises `IndexError` |
| `Export.RawHeaderFitsFirstRow` | server.py:702-704 | the header has the first row's width |
| `Export.RawRowsMayBeMisaligned` | server.py:702-704 | a later record with other keys gives a row of another width than the header |
| `Export.BuildRawExport` | server.py:702-710 | the loop computes the raw export |
| `Export.FetchSources` | server.py:196-212 | the fetch half returns the two Chargify listings, the subscriptions unwrapped record by record as their pages arrive, the Stripe listing and the two id lookups, or the first error met, stopping the subscriptions listing at the page where unwrapping fails |
| `Export.BuildTables` | server.py:252-713 | the build half returns the three tables and the three raw exports, or the first error met in that order |
| `Export.ExportData` | server.py:191-713 | the method returns what `Export` defines: the fetched sources (the subscriptions unwrapped as their pages arrive) run through the customers, subscriptions and invoices loops and the three raw exports, or the first error met in that order |

## Left out

- The aiohttp web surface (route handlers, CSV rendering, "not loaded yet" checks), `create_app`, `start_logger`, `main` and environment configuration: I/O and plumbing.
- `data_task` and the background-task hooks: a periodic loop with cancellation, which is concurrency; so the cache swap is not modelled.
- The aiohttp session, `BasicAuth` and the Stripe SDK calls: the network is an oracle. Each request records the user and the placeholder password "x".
- `dateutil` parsing, `strftime`, `relativedelta(months=1)`, `float()` of a string and `str()` of floats, containers and datetimes: foreign library calls, taken as uninterpreted functions of a `Host`.
- Float arithmetic: amounts are exact reals, so only the algebraic relations are claimed, not IEEE rounding.
- The endpoint wrappers `get_customer_by_reference`, `get_customer_subscriptions`, `create_customer`, `delete_customer`, `get_subscription`, `get_subscription_events` and `get_product`: each is a pass-through to `_request` or `_paginated_request` with a fixed path. The export uses two Chargify listings, `get_subscriptions` and `get_invoices`; both are modelled, and so is `get_customers` (`Chargify.CustomersListing`), which the export does not call.
- Chargify.PaginatedRequest: requires the listing to end within a ghost page bound; a provider that never returns an empty page is not modelled.
- Stripe.ListCustomers: requires the listing to end within a ghost call bound, for the same reason. The ghost page source it is proved against must be the pages the API serves.
- Export.ExportData: same bounds, passed on to the three listings: `pages` bounds the subscriptions and the invoices listings, `fuel` bounds the Stripe customers listing.
- Python object identity is not modelled. The subscriptions lookup shares its dicts with the subscriptions list. So the in-place coupon padding also changes the lookup's copy. No later reader uses `coupon_codes` from the lookup, so this changes no table. The model carries the padded records only to the raw subscriptions export.
- Dict keys are compared as model values. Python's `1 == 1.0 == True` key collisions are not modelled.
