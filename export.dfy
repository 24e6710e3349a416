/**
 * export_data (server.py): fetch the Chargify subscriptions and invoices and the
 * Stripe customers, index them, build the customers, subscriptions and invoices
 * tables, and dump each fetched collection flattened ("raw exports").
 *
 * The per-collection loops are methods proved against accumulator folds; the
 * folds' properties (one row per record, widths, what the plan index holds,
 * the shape of a raw export) are lemmas.
 */
module Export {
  import opened Results
  import opened PyValue
  import Flatten
  import Chargify
  import Stripe
  import CustomerRows
  import SubscriptionRows
  import InvoiceRows

  type Row = seq<Value>

  /** A header row: the column names as strings. */
  function Header(columns: seq<string>): (row: Row)
    ensures |row| == |columns|
    ensures forall j :: 0 <= j < |columns| ==> row[j] == Str(columns[j])
  {
    seq(|columns|, j requires 0 <= j < |columns| => Str(columns[j]))
  }

  // ---------------------------------------------------------------------
  // Comprehensions over fetched records
  // ---------------------------------------------------------------------

  /** [record[key] for record in records]: the first record without the key aborts. */
  function Project(records: seq<Value>, key: string): (r: Result<seq<Value>, Failure>)
    ensures r.Ok? <==> forall j :: 0 <= j < |records| ==> Get(records[j], key).Ok?
    ensures r.Ok? ==> |r.value| == |records|
    ensures r.Ok? ==> forall j :: 0 <= j < |records| ==> Get(records[j], key) == Ok(r.value[j])
  {
    if records == [] then Ok([])
    else
      var x :- Get(records[0], key);
      var rest :- Project(records[1..], key);
      assert forall j :: 1 <= j < |records| ==> records[j] == records[1..][j - 1];
      Ok([x] + rest)
  }

  /** The dict comprehension {r[key]: r for r in records}, continued from `acc`. */
  function IndexFrom(records: seq<Value>, key: string, acc: map<Value, Value>): Result<map<Value, Value>, Failure>
    decreases |records|
  {
    if records == [] then Ok(acc)
    else
      var k :- Get(records[0], key);
      if !Hashable(k) then Err(TypeError)
      else IndexFrom(records[1..], key, acc[k := records[0]])
  }

  /** {r[key]: r for r in records} */
  function IndexBy(records: seq<Value>, key: string): Result<map<Value, Value>, Failure> {
    IndexFrom(records, key, map[])
  }

  /** No record after position j has the same key as record j. */
  predicate LastWithKey(records: seq<Value>, key: string, j: int)
    requires 0 <= j < |records|
  {
    forall l :: j < l < |records| ==> Get(records[l], key) != Get(records[j], key)
  }

  /** The index succeeds exactly when every record has a hashable key. */
  lemma {:induction false} IndexFromSucceeds(records: seq<Value>, key: string, acc: map<Value, Value>)
    ensures IndexFrom(records, key, acc).Ok? <==>
      forall j :: 0 <= j < |records| ==> Get(records[j], key).Ok? && Hashable(Get(records[j], key).value)
    decreases |records|
  {
    if records != [] {
      var k := Get(records[0], key);
      if k.Ok? && Hashable(k.value) {
        var tail := records[1..];
        IndexFromSucceeds(tail, key, acc[k.value := records[0]]);
        assert forall j :: 1 <= j < |records| ==> records[j] == tail[j - 1];
      }
    }
  }

  /** A successful index holds every record's key and every key it started from. */
  lemma {:induction false} IndexFromHasKeys(records: seq<Value>, key: string, acc: map<Value, Value>)
    requires IndexFrom(records, key, acc).Ok?
    ensures forall j :: 0 <= j < |records| ==> Get(records[j], key).Ok? && Get(records[j], key).value in IndexFrom(records, key, acc).value
    ensures forall k :: k in acc ==> k in IndexFrom(records, key, acc).value
    decreases |records|
  {
    if records != [] {
      var k := Get(records[0], key).value;
      var tail := records[1..];
      IndexFromHasKeys(tail, key, acc[k := records[0]]);
      assert forall j :: 1 <= j < |records| ==> records[j] == tail[j - 1];
    }
  }

  /** In a successful index, a record's key maps to it when no later record has the same key (the later one wins). */
  lemma {:induction false} IndexFromFinds(records: seq<Value>, key: string, acc: map<Value, Value>)
    requires IndexFrom(records, key, acc).Ok?
    ensures forall j :: 0 <= j < |records| && LastWithKey(records, key, j) ==>
      Get(records[j], key).Ok? && Get(records[j], key).value in IndexFrom(records, key, acc).value
      && IndexFrom(records, key, acc).value[Get(records[j], key).value] == records[j]
    decreases |records|
  {
    if records != [] {
      var k := Get(records[0], key).value;
      var tail := records[1..];
      var acc' := acc[k := records[0]];
      IndexFromFinds(tail, key, acc');
      var r := IndexFrom(records, key, acc);
      forall j | 0 <= j < |records| && LastWithKey(records, key, j)
        ensures Get(records[j], key).Ok? && Get(records[j], key).value in r.value && r.value[Get(records[j], key).value] == records[j]
      {
        if j > 0 {
          assert tail[j - 1] == records[j];
          assert LastWithKey(tail, key, j - 1) by {
            forall l | j - 1 < l < |tail| ensures Get(tail[l], key) != Get(tail[j - 1], key) {
              assert tail[l] == records[l + 1];
            }
          }
        } else {
          forall l | 0 <= l < |tail| ensures Get(tail[l], key) != Ok(k) {
            assert tail[l] == records[l + 1];
          }
          IndexFromKeeps(tail, key, acc', k);
        }
      }
    }
  }

  /** An entry of the accumulator survives when no later record has its key. */
  lemma {:induction false} IndexFromKeeps(records: seq<Value>, key: string, acc: map<Value, Value>, k: Value)
    requires k in acc
    requires forall l :: 0 <= l < |records| ==> Get(records[l], key) != Ok(k)
    requires IndexFrom(records, key, acc).Ok?
    ensures k in IndexFrom(records, key, acc).value && IndexFrom(records, key, acc).value[k] == acc[k]
    decreases |records|
  {
    if records != [] {
      var k0 := Get(records[0], key).value;
      IndexFromKeeps(records[1..], key, acc[k0 := records[0]], k);
    }
  }

  // ---------------------------------------------------------------------
  // Fetching and indexing
  // ---------------------------------------------------------------------

  /** What export_data has fetched and indexed before it builds any row. */
  datatype Sources = Sources(
    subscriptions: seq<Value>, invoices: seq<Value>, subscriptionsById: map<Value, Value>,
    customers: seq<Value>, customersById: map<Value, Value>)

  /** The body of `[record[key] async for record in ...]`, run on each record as it is yielded. */
  function Unwrap(key: string): Chargify.Consumer {
    record => Get(record, key)
  }

  /** Consuming a page record by record with `record[key]` is the comprehension over that page. */
  lemma {:induction false} ConsumeUnwrap(records: seq<Value>, key: string)
    ensures Chargify.ConsumeAll(Unwrap(key), records) == Project(records, key)
  {
    if records != [] {
      ConsumeUnwrap(records[1..], key);
    }
  }

  /** get_subscriptions(per_page=100), each record unwrapped as the comprehension receives it. */
  function SubscriptionPages(host: Host, net: Chargify.Network, client: Chargify.Client): Chargify.PageSource {
    Chargify.ListingPages(host, net, client, Chargify.SubscriptionsListing(100), Unwrap("subscription"))
  }

  function SubscriptionsWalk(host: Host, net: Chargify.Network, client: Chargify.Client, pages: nat): Option<Chargify.Walked> {
    Chargify.Walk(SubscriptionPages(host, net, client), 1, pages)
  }

  /** get_invoices(), each record kept as it is. */
  function InvoicePages(host: Host, net: Chargify.Network, client: Chargify.Client): Chargify.PageSource {
    Chargify.ListingPages(host, net, client, Chargify.InvoicesListing(), Chargify.AsIs())
  }

  function InvoicesWalk(host: Host, net: Chargify.Network, client: Chargify.Client, pages: nat): Option<Chargify.Walked> {
    Chargify.Walk(InvoicePages(host, net, client), 1, pages)
  }

  /**
   * The subscriptions comprehension unwraps each page before the next one is
   * requested: a page holding a record without 'subscription' ends the listing
   * with that page's error, whatever the later pages would have answered.
   */
  lemma UnwrapFailureEndsListing(host: Host, net: Chargify.Network, client: Chargify.Client, page: int, fuel: nat)
    requires fuel >= 1
    requires Chargify.PageItems(host, net, client, Chargify.SubscriptionsListing(100), page).Ok?
    requires Project(Chargify.PageItems(host, net, client, Chargify.SubscriptionsListing(100), page).value, "subscription").Err?
    ensures Chargify.Walk(SubscriptionPages(host, net, client), page, fuel)
         == Some(Chargify.Walked(Err(Project(Chargify.PageItems(host, net, client, Chargify.SubscriptionsListing(100), page).value,
                                             "subscription").error), 1))
  {
    ConsumeUnwrap(Chargify.PageItems(host, net, client, Chargify.SubscriptionsListing(100), page).value, "subscription");
  }

  /** Each invoices page yields its records unchanged. */
  lemma InvoicePagesAsFetched(host: Host, net: Chargify.Network, client: Chargify.Client, page: int)
    ensures InvoicePages(host, net, client)(page) == Chargify.PageItems(host, net, client, Chargify.InvoicesListing(), page)
  {
    var raw := Chargify.PageItems(host, net, client, Chargify.InvoicesListing(), page);
    if raw.Ok? {
      Chargify.ConsumeAsIs(raw.value);
    }
  }

  /**
   * The fetches and lookups, in the order export_data runs them: the
   * subscriptions (each record unwrapped from "subscription"), the invoices, the
   * subscriptions lookup, the Stripe customers and their lookup. None when a
   * listing reached does not end within the bounds `pages` and `fuel`.
   */
  function Gather(host: Host, net: Chargify.Network, client: Chargify.Client, api: Stripe.StripeApi,
                  pages: nat, fuel: nat): Option<Result<Sources, Failure>>
  {
    var subscriptionsWalk := SubscriptionsWalk(host, net, client, pages);
    if subscriptionsWalk.None? then None
    else if subscriptionsWalk.value.result.Err? then Some(Err(subscriptionsWalk.value.result.error))
    else
      var subscriptions := subscriptionsWalk.value.result.value;
      var invoicesWalk := InvoicesWalk(host, net, client, pages);
      if invoicesWalk.None? then None
      else if invoicesWalk.value.result.Err? then Some(Err(invoicesWalk.value.result.error))
      else
        var subscriptionsById := IndexBy(subscriptions, "id");
        if subscriptionsById.Err? then Some(Err(subscriptionsById.error))
        else
          var customers := Stripe.Listing(Stripe.ApiPages(api), fuel);
          if customers.None? then None
          else if customers.value.Err? then Some(Err(customers.value.error))
          else
            var customersById := IndexBy(customers.value.value, "id");
            if customersById.Err? then Some(Err(customersById.error))
            else Some(Ok(Sources(subscriptions, invoicesWalk.value.result.value, subscriptionsById.value,
                                 customers.value.value, customersById.value)))
  }

  // ---------------------------------------------------------------------
  // The loops, over any per-record step
  // ---------------------------------------------------------------------

  /** `for x in xs: rows.append(step(x))`, continued from `acc`; the first failure aborts. */
  function AppendRows(step: Value -> Result<Row, Failure>, xs: seq<Value>, acc: seq<Row>): Result<seq<Row>, Failure>
    decreases |xs|
  {
    if xs == [] then Ok(acc)
    else
      var row :- step(xs[0]);
      AppendRows(step, xs[1..], acc + [row])
  }

  /**
   * The loop succeeds exactly when every step does, and then adds exactly the
   * steps' rows, one per record, in order.
   */
  lemma {:induction false} AppendRowsOnePerRecord(step: Value -> Result<Row, Failure>, xs: seq<Value>, acc: seq<Row>)
    ensures AppendRows(step, xs, acc).Ok? <==> forall j :: 0 <= j < |xs| ==> step(xs[j]).Ok?
    ensures var r := AppendRows(step, xs, acc);
      r.Ok? ==>
        && |r.value| == |acc| + |xs|
        && r.value[..|acc|] == acc
        && forall j :: 0 <= j < |xs| ==> Ok(r.value[|acc| + j]) == step(xs[j])
    decreases |xs|
  {
    if xs != [] {
      var tail := xs[1..];
      assert forall j :: 1 <= j < |xs| ==> xs[j] == tail[j - 1];
      if step(xs[0]).Ok? {
        var acc' := acc + [step(xs[0]).value];
        AppendRowsOnePerRecord(step, tail, acc');
        var r := AppendRows(step, xs, acc);
        if r.Ok? {
          assert r.value[..|acc|] == acc'[..|acc|];
        }
      }
    }
  }

  /** `for x in xs: ...; if kept: rows.append(row)`, continued from `acc`. */
  function KeepRows(step: Value -> Result<Option<Row>, Failure>, xs: seq<Value>, acc: seq<Row>): Result<seq<Row>, Failure>
    decreases |xs|
  {
    if xs == [] then Ok(acc)
    else
      var out :- step(xs[0]);
      KeepRows(step, xs[1..], if out.Some? then acc + [out.value] else acc)
  }

  /**
   * The loop adds at most one row per record, only rows some step produced, and
   * none at all when every step skips.
   */
  lemma {:induction false} KeepRowsShape(step: Value -> Result<Option<Row>, Failure>, xs: seq<Value>, acc: seq<Row>)
    requires KeepRows(step, xs, acc).Ok?
    ensures forall j :: 0 <= j < |xs| ==> step(xs[j]).Ok?
    ensures var r := KeepRows(step, xs, acc).value;
      && |acc| <= |r| <= |acc| + |xs|
      && r[..|acc|] == acc
      && (forall k :: |acc| <= k < |r| ==> exists j :: 0 <= j < |xs| && step(xs[j]) == Ok(Some(r[k])))
      && ((forall j :: 0 <= j < |xs| ==> step(xs[j]) == Ok(None)) ==> r == acc)
    decreases |xs|
  {
    if xs != [] {
      var out := step(xs[0]).value;
      var acc' := if out.Some? then acc + [out.value] else acc;
      var tail := xs[1..];
      KeepRowsShape(step, tail, acc');
      assert forall j :: 1 <= j < |xs| ==> xs[j] == tail[j - 1];
      var r := KeepRows(step, xs, acc).value;
      assert r[..|acc|] == acc'[..|acc|];
      forall k | |acc| <= k < |r| ensures exists j :: 0 <= j < |xs| && step(xs[j]) == Ok(Some(r[k])) {
        if k < |acc'| {
          assert r[k] == acc'[k] == out.value;
          assert step(xs[0]) == Ok(Some(r[k]));
        } else {
          var j :| 0 <= j < |tail| && step(tail[j]) == Ok(Some(r[k]));
          assert step(xs[j + 1]) == Ok(Some(r[k]));
        }
      }
    }
  }

  /** The subscriptions loop's state: rows so far, the plan index, and the records as the loop left them. */
  datatype SubscriptionsState = SubscriptionsState(rows: seq<Row>, plans: map<Value, string>, records: seq<Value>)

  /** What one subscription's outcome does to the loop's state. */
  function Absorb(st: SubscriptionsState, subscription: Value, out: SubscriptionRows.Outcome): SubscriptionsState {
    match out
    case Skipped => st.(records := st.records + [subscription])
    case Emitted(row, id, plan, record) =>
      SubscriptionsState(st.rows + [row], st.plans[id := plan], st.records + [record])
  }

  /** The subscriptions loop continued from `st`. */
  function PlanRows(step: Value -> Result<SubscriptionRows.Outcome, Failure>, xs: seq<Value>, st: SubscriptionsState)
    : Result<SubscriptionsState, Failure>
    decreases |xs|
  {
    if xs == [] then Ok(st)
    else
      var out :- step(xs[0]);
      PlanRows(step, xs[1..], Absorb(st, xs[0], out))
  }

  /** A record after its turn of the loop: the padded record when emitted, else unchanged. */
  function Processed(out: SubscriptionRows.Outcome, x: Value): Value {
    if out.Emitted? then out.record else x
  }

  /** Record j was emitted with the given id. */
  predicate EmittedWithId(step: Value -> Result<SubscriptionRows.Outcome, Failure>, xs: seq<Value>, j: int, id: Value)
    requires 0 <= j < |xs|
  {
    step(xs[j]).Ok? && step(xs[j]).value.Emitted? && step(xs[j]).value.id == id
  }

  /** No record of xs was emitted with the given id. */
  predicate NeverEmitted(step: Value -> Result<SubscriptionRows.Outcome, Failure>, xs: seq<Value>, id: Value) {
    forall j :: 0 <= j < |xs| ==> !EmittedWithId(step, xs, j, id)
  }

  /** The rows of the records of xs that were emitted, in order. */
  function EmittedRows(step: Value -> Result<SubscriptionRows.Outcome, Failure>, xs: seq<Value>): (rows: seq<Row>)
    ensures |rows| <= |xs|
    decreases |xs|
  {
    if xs == [] then []
    else
      (if step(xs[0]).Ok? && step(xs[0]).value.Emitted? then [step(xs[0]).value.row] else [])
      + EmittedRows(step, xs[1..])
  }

  /** The loop keeps every record in its place, padded when emitted, after the records already there. */
  lemma {:induction false} PlanRowsRecords(step: Value -> Result<SubscriptionRows.Outcome, Failure>, xs: seq<Value>, st: SubscriptionsState)
    requires PlanRows(step, xs, st).Ok?
    ensures forall j :: 0 <= j < |xs| ==> step(xs[j]).Ok?
    ensures var r := PlanRows(step, xs, st).value;
      && |r.records| == |st.records| + |xs|
      && r.records[..|st.records|] == st.records
      && (forall j :: 0 <= j < |xs| ==> r.records[|st.records| + j] == Processed(step(xs[j]).value, xs[j]))
    decreases |xs|
  {
    if xs != [] {
      var st' := Absorb(st, xs[0], step(xs[0]).value);
      var tail := xs[1..];
      PlanRowsRecords(step, tail, st');
      assert forall j :: 1 <= j < |xs| ==> xs[j] == tail[j - 1];
      var r := PlanRows(step, xs, st).value;
      assert r.records[..|st.records|] == st'.records[..|st.records|];
    }
  }

  /** The loop appends exactly the rows of the emitted records, in order, after the rows already there. */
  lemma {:induction false} PlanRowsRows(step: Value -> Result<SubscriptionRows.Outcome, Failure>, xs: seq<Value>, st: SubscriptionsState)
    requires PlanRows(step, xs, st).Ok?
    ensures PlanRows(step, xs, st).value.rows == st.rows + EmittedRows(step, xs)
    decreases |xs|
  {
    if xs != [] {
      var out := step(xs[0]).value;
      var st' := Absorb(st, xs[0], out);
      PlanRowsRows(step, xs[1..], st');
      var head := if out.Emitted? then [out.row] else [];
      assert st'.rows == st.rows + head;
      assert (st.rows + head) + EmittedRows(step, xs[1..]) == st.rows + (head + EmittedRows(step, xs[1..]));
    }
  }

  /** An id is in the plan index exactly when it was there already or a record with that id was emitted. */
  lemma {:induction false} PlanRowsIndex(step: Value -> Result<SubscriptionRows.Outcome, Failure>, xs: seq<Value>, st: SubscriptionsState, id: Value)
    requires PlanRows(step, xs, st).Ok?
    ensures id in PlanRows(step, xs, st).value.plans <==>
      id in st.plans || exists j :: 0 <= j < |xs| && EmittedWithId(step, xs, j, id)
    decreases |xs|
  {
    if xs != [] {
      var out := step(xs[0]).value;
      var tail := xs[1..];
      var st' := Absorb(st, xs[0], out);
      PlanRowsIndex(step, tail, st', id);
      assert id in st'.plans <==> id in st.plans || EmittedWithId(step, xs, 0, id);
      var inTail := exists j :: 0 <= j < |tail| && EmittedWithId(step, tail, j, id);
      var inXs := exists j :: 0 <= j < |xs| && EmittedWithId(step, xs, j, id);
      if inTail {
        var j :| 0 <= j < |tail| && EmittedWithId(step, tail, j, id);
        assert tail[j] == xs[j + 1];
        assert EmittedWithId(step, xs, j + 1, id);
      }
      if inXs {
        var j :| 0 <= j < |xs| && EmittedWithId(step, xs, j, id);
        if j > 0 {
          assert tail[j - 1] == xs[j];
          assert EmittedWithId(step, tail, j - 1, id);
        }
      }
      assert inXs <==> EmittedWithId(step, xs, 0, id) || inTail;
    }
  }

  // ---------------------------------------------------------------------
  // The three tables
  // ---------------------------------------------------------------------

  function CustomerStep(host: Host, customersById: map<Value, Value>): Value -> Result<Row, Failure> {
    subscription => CustomerRows.CustomerRow(host, subscription, customersById)
  }

  function SubscriptionStep(host: Host): Value -> Result<SubscriptionRows.Outcome, Failure> {
    subscription => SubscriptionRows.SubscriptionStep(host, subscription)
  }

  function InvoiceStep(host: Host, subscriptionsById: map<Value, Value>, plans: map<Value, string>): Value -> Result<Option<Row>, Failure> {
    invoice => InvoiceRows.InvoiceStep(host, invoice, subscriptionsById, plans)
  }

  /** The customers table: the header, then one row per subscription. */
  lemma CustomersTable(host: Host, subscriptions: seq<Value>, customersById: map<Value, Value>)
    requires AppendRows(CustomerStep(host, customersById), subscriptions, [Header(CustomerRows.CustomerColumns)]).Ok?
    ensures var t := AppendRows(CustomerStep(host, customersById), subscriptions, [Header(CustomerRows.CustomerColumns)]).value;
      && |t| == |subscriptions| + 1
      && t[0] == Header(CustomerRows.CustomerColumns)
      && forall j :: 0 <= j < |subscriptions| ==>
           Ok(t[j + 1]) == CustomerRows.CustomerRow(host, subscriptions[j], customersById)
           && |t[j + 1]| == |CustomerRows.CustomerColumns|
  {
    var header := [Header(CustomerRows.CustomerColumns)];
    var step := CustomerStep(host, customersById);
    AppendRowsOnePerRecord(step, subscriptions, header);
    var t := AppendRows(step, subscriptions, header).value;
    assert t[0] == t[..1][0];
    forall j | 0 <= j < |subscriptions|
      ensures Ok(t[j + 1]) == CustomerRows.CustomerRow(host, subscriptions[j], customersById)
      ensures |t[j + 1]| == |CustomerRows.CustomerColumns|
    {
      assert Ok(t[|header| + j]) == step(subscriptions[j]);
    }
  }

  /**
   * The subscriptions table: the header, then rows of its width; each
   * subscription keeps its place, padded when emitted; the plan index holds
   * exactly the ids of emitted subscriptions.
   */
  lemma SubscriptionsTable(host: Host, subscriptions: seq<Value>)
    requires PlanRows(SubscriptionStep(host), subscriptions, SubscriptionsStart()).Ok?
    ensures var r := PlanRows(SubscriptionStep(host), subscriptions, SubscriptionsStart()).value;
      && r.rows == [Header(SubscriptionRows.SubscriptionColumns)] + EmittedRows(SubscriptionStep(host), subscriptions)
      && |r.rows| <= |subscriptions| + 1
      && (forall k :: 1 <= k < |r.rows| ==> |r.rows[k]| == |SubscriptionRows.SubscriptionColumns|)
      && |r.records| == |subscriptions|
      && (forall j :: 0 <= j < |subscriptions| ==>
            SubscriptionRows.SubscriptionStep(host, subscriptions[j]).Ok?
            && r.records[j] == Processed(SubscriptionRows.SubscriptionStep(host, subscriptions[j]).value, subscriptions[j]))
  {
    var st := SubscriptionsStart();
    PlanRowsRecords(SubscriptionStep(host), subscriptions, st);
    PlanRowsRows(SubscriptionStep(host), subscriptions, st);
    var r := PlanRows(SubscriptionStep(host), subscriptions, st).value;
    EmittedRowsWidth(host, subscriptions);
    HeaderThenWidth(Header(SubscriptionRows.SubscriptionColumns), EmittedRows(SubscriptionStep(host), subscriptions),
                    |SubscriptionRows.SubscriptionColumns|);
  }

  /** Rows of one width stay of that width below a header. */
  lemma HeaderThenWidth(header: Row, rows: seq<Row>, width: nat)
    requires forall k :: 0 <= k < |rows| ==> |rows[k]| == width
    ensures forall k :: 1 <= k < |[header] + rows| ==> |([header] + rows)[k]| == width
  {
    forall k | 1 <= k < |[header] + rows| ensures |([header] + rows)[k]| == width {
      assert ([header] + rows)[k] == rows[k - 1];
    }
  }

  /** Every emitted subscription row has the table's width. */
  lemma {:induction false} EmittedRowsWidth(host: Host, xs: seq<Value>)
    ensures forall k :: 0 <= k < |EmittedRows(SubscriptionStep(host), xs)| ==>
      |EmittedRows(SubscriptionStep(host), xs)[k]| == |SubscriptionRows.SubscriptionColumns|
    decreases |xs|
  {
    if xs != [] {
      EmittedRowsWidth(host, xs[1..]);
    }
  }

  /** The invoices table: the header, then at most one row per invoice, each of its width. */
  lemma InvoicesTable(host: Host, invoices: seq<Value>, subscriptionsById: map<Value, Value>, plans: map<Value, string>)
    requires KeepRows(InvoiceStep(host, subscriptionsById, plans), invoices, [Header(InvoiceRows.InvoiceColumns)]).Ok?
    ensures var t := KeepRows(InvoiceStep(host, subscriptionsById, plans), invoices, [Header(InvoiceRows.InvoiceColumns)]).value;
      && 1 <= |t| <= |invoices| + 1
      && t[0] == Header(InvoiceRows.InvoiceColumns)
      && forall k :: 1 <= k < |t| ==> |t[k]| == |InvoiceRows.InvoiceColumns|
  {
    var header := [Header(InvoiceRows.InvoiceColumns)];
    KeepRowsShape(InvoiceStep(host, subscriptionsById, plans), invoices, header);
    var t := KeepRows(InvoiceStep(host, subscriptionsById, plans), invoices, header).value;
    assert t[0] == t[..1][0];
    forall k | 1 <= k < |t| ensures |t[k]| == |InvoiceRows.InvoiceColumns| {
      var j :| 0 <= j < |invoices| && InvoiceStep(host, subscriptionsById, plans)(invoices[j]) == Ok(Some(t[k]));
    }
  }

  /** The initial state of the subscriptions loop: the header and an empty plan index. */
  function SubscriptionsStart(): SubscriptionsState {
    SubscriptionsState([Header(SubscriptionRows.SubscriptionColumns)], map[], [])
  }

  /**
   * An invoice whose subscription was not emitted (a falsy product handle, say)
   * contributes no row, provided no other emitted subscription has the same id.
   */
  lemma InvoiceOfUnplannedSubscriptionDropped(host: Host, step: Value -> Result<SubscriptionRows.Outcome, Failure>,
                                              subscriptions: seq<Value>, invoice: Value,
                                              subscriptionsById: map<Value, Value>, id: Value)
    requires PlanRows(step, subscriptions, SubscriptionsStart()).Ok?
    requires Get(invoice, "customer").Ok? && Get(invoice, "subscription_id").Ok?
    requires LookupKey(subscriptionsById, Get(invoice, "subscription_id").value).Ok?
    requires Get(subscriptionsById[Get(invoice, "subscription_id").value], "id") == Ok(id) && Hashable(id)
    requires NeverEmitted(step, subscriptions, id)
    ensures InvoiceRows.InvoiceStep(host, invoice, subscriptionsById, PlanRows(step, subscriptions, SubscriptionsStart()).value.plans)
         == Ok(None)
  {
    var plans := PlanRows(step, subscriptions, SubscriptionsStart()).value.plans;
    assert id !in plans by {
      var _ := NotEmittedNotPlanned(step, subscriptions, id);
    }
    InvoiceRows.PlanlessSubscriptionSkipped(host, invoice, subscriptionsById, plans);
  }

  /** An id that no emitted subscription carries is not in the plan index the loop builds. */
  lemma NotEmittedNotPlanned(step: Value -> Result<SubscriptionRows.Outcome, Failure>, xs: seq<Value>, id: Value)
    returns (plans: map<Value, string>)
    requires PlanRows(step, xs, SubscriptionsStart()).Ok?
    requires NeverEmitted(step, xs, id)
    ensures plans == PlanRows(step, xs, SubscriptionsStart()).value.plans && id !in plans
  {
    PlanRowsIndex(step, xs, SubscriptionsStart(), id);
    plans := PlanRows(step, xs, SubscriptionsStart()).value.plans;
  }

  /** for x in xs: rows.append(step(x)), stopping at the first exception. */
  method AppendEach(step: Value -> Result<Row, Failure>, xs: seq<Value>, header: seq<Row>)
    returns (r: Result<seq<Row>, Failure>)
    ensures r == AppendRows(step, xs, header)
  {
    var rows := header;
    var i := 0;
    while i < |xs|
      invariant 0 <= i <= |xs|
      invariant AppendRows(step, xs, header) == AppendRows(step, xs[i..], rows)
    {
      assert xs[i..][1..] == xs[i + 1..];
      var row := step(xs[i]);
      if row.Err? {
        return Err(row.error);
      }
      rows := rows + [row.value];
      i := i + 1;
    }
    r := Ok(rows);
  }

  /** for subscription in subscriptions: rows.append(row) */
  method BuildCustomerRows(host: Host, subscriptions: seq<Value>, customersById: map<Value, Value>)
    returns (r: Result<seq<Row>, Failure>)
    ensures r == AppendRows(CustomerStep(host, customersById), subscriptions, [Header(CustomerRows.CustomerColumns)])
  {
    r := AppendEach(CustomerStep(host, customersById), subscriptions, [Header(CustomerRows.CustomerColumns)]);
  }

  /**
   * for x in records: ... rows.append(row), padding each emitted record in
   * place and recording its plan; stops at the first exception.
   */
  method PlanEach(step: Value -> Result<SubscriptionRows.Outcome, Failure>, records: array<Value>)
    returns (r: Result<(seq<Row>, map<Value, string>), Failure>)
    modifies records
    ensures var spec := PlanRows(step, old(records[..]), SubscriptionsStart());
      && (spec.Ok? ==> r == Ok((spec.value.rows, spec.value.plans)) && records[..] == spec.value.records)
      && (spec.Err? ==> r == Err(spec.error))
  {
    ghost var all := records[..];
    var rows := [Header(SubscriptionRows.SubscriptionColumns)];
    var plans := map[];
    var i := 0;
    while i < records.Length
      invariant 0 <= i <= records.Length
      invariant records[i..] == all[i..]
      invariant PlanRows(step, all, SubscriptionsStart())
             == PlanRows(step, all[i..], SubscriptionsState(rows, plans, records[..i]))
    {
      assert all[i..][1..] == all[i + 1..];
      var out := step(records[i]);
      if out.Err? {
        return Err(out.error);
      }
      ghost var before := records[..i];
      if out.value.Emitted? {
        rows := rows + [out.value.row];
        plans := plans[out.value.id := out.value.plan];
        records[i] := out.value.record;
      }
      assert records[..i + 1] == before + [records[i]];
      i := i + 1;
    }
    assert records[..] == records[..i];
    r := Ok((rows, plans));
  }

  /** for subscription in subscriptions: ... rows.append(row), with the records padded in place. */
  method BuildSubscriptionRows(host: Host, records: array<Value>)
    returns (r: Result<(seq<Row>, map<Value, string>), Failure>)
    modifies records
    ensures var spec := PlanRows(SubscriptionStep(host), old(records[..]), SubscriptionsStart());
      && (spec.Ok? ==> r == Ok((spec.value.rows, spec.value.plans)) && records[..] == spec.value.records)
      && (spec.Err? ==> r == Err(spec.error))
  {
    r := PlanEach(SubscriptionStep(host), records);
  }

  /** for x in xs: a row per record the step keeps, stopping at the first exception. */
  method KeepEach(step: Value -> Result<Option<Row>, Failure>, xs: seq<Value>, header: seq<Row>)
    returns (r: Result<seq<Row>, Failure>)
    ensures r == KeepRows(step, xs, header)
  {
    var rows := header;
    var i := 0;
    while i < |xs|
      invariant 0 <= i <= |xs|
      invariant KeepRows(step, xs, header) == KeepRows(step, xs[i..], rows)
    {
      assert xs[i..][1..] == xs[i + 1..];
      var out := step(xs[i]);
      if out.Err? {
        return Err(out.error);
      }
      if out.value.Some? {
        rows := rows + [out.value.value];
      }
      i := i + 1;
    }
    r := Ok(rows);
  }

  /** for invoice in invoices: ... rows.append(row) */
  method BuildInvoiceRows(host: Host, invoices: seq<Value>, subscriptionsById: map<Value, Value>, plans: map<Value, string>)
    returns (r: Result<seq<Row>, Failure>)
    ensures r == KeepRows(InvoiceStep(host, subscriptionsById, plans), invoices, [Header(InvoiceRows.InvoiceColumns)])
  {
    r := KeepEach(InvoiceStep(host, subscriptionsById, plans), invoices, [Header(InvoiceRows.InvoiceColumns)]);
  }

  // ---------------------------------------------------------------------
  // Raw exports
  // ---------------------------------------------------------------------

  /** The loop appending flatten_dict(row).values() for each record, continued from `acc`. */
  function RawRowsFrom(records: seq<Value>, acc: seq<Row>): Result<seq<Row>, Failure>
    decreases |records|
  {
    if records == [] then Ok(acc)
    else
      var flat :- Flatten.Flattened(records[0]);
      RawRowsFrom(records[1..], acc + [Values(flat)])
  }

  /** [flatten_dict(records[0]).keys()] followed by flatten_dict(r).values() for every record. */
  function RawExport(records: seq<Value>): Result<seq<Row>, Failure> {
    if records == [] then Err(IndexError)
    else
      var first :- Flatten.Flattened(records[0]);
      RawRowsFrom(records, [Header(Keys(first))])
  }

  /** The loop succeeds exactly when every record is a dict. */
  lemma {:induction false} RawRowsSucceeds(records: seq<Value>, acc: seq<Row>)
    ensures RawRowsFrom(records, acc).Ok? <==> forall j :: 0 <= j < |records| ==> records[j].Dict?
    decreases |records|
  {
    if records != [] && records[0].Dict? {
      var tail := records[1..];
      RawRowsSucceeds(tail, acc + [Values(Flatten.Flattened(records[0]).value)]);
      assert forall j :: 1 <= j < |records| ==> records[j] == tail[j - 1];
    }
  }

  /** The loop appends one row of flattened values per record, in order, after the rows already there. */
  lemma {:induction false} RawRowsShape(records: seq<Value>, acc: seq<Row>)
    requires RawRowsFrom(records, acc).Ok?
    ensures var r := RawRowsFrom(records, acc).value;
      && |r| == |acc| + |records|
      && r[..|acc|] == acc
      && forall j :: 0 <= j < |records| ==> records[j].Dict? && r[|acc| + j] == Values(Flatten.Flattened(records[j]).value)
    decreases |records|
  {
    if records != [] {
      var tail := records[1..];
      var acc' := acc + [Values(Flatten.Flattened(records[0]).value)];
      RawRowsShape(tail, acc');
      assert forall j :: 1 <= j < |records| ==> records[j] == tail[j - 1];
      var r := RawRowsFrom(records, acc).value;
      assert r[..|acc'|] == acc';
      assert r[..|acc|] == acc'[..|acc|];
    }
  }

  /**
   * A raw export is the first record's flattened keys, then one row of flattened
   * values per record; an empty collection raises IndexError and a record that
   * is not a dict aborts.
   */
  lemma RawExportShape(records: seq<Value>)
    ensures records == [] ==> RawExport(records) == Err(IndexError)
    ensures records != [] ==> (RawExport(records).Ok? <==> forall j :: 0 <= j < |records| ==> records[j].Dict?)
    ensures var r := RawExport(records);
      r.Ok? ==>
        && |r.value| == |records| + 1
        && r.value[0] == Header(Keys(Flatten.Flattened(records[0]).value))
        && forall j :: 0 <= j < |records| ==> r.value[j + 1] == Values(Flatten.Flattened(records[j]).value)
  {
    if records != [] && records[0].Dict? {
      var first := Flatten.Flattened(records[0]).value;
      RawRowsSucceeds(records, [Header(Keys(first))]);
      if RawExport(records).Ok? {
        RawRowsShape(records, [Header(Keys(first))]);
      }
    }
  }

  /** The header has the first row's width... */
  lemma RawHeaderFitsFirstRow(records: seq<Value>)
    requires RawExport(records).Ok?
    ensures |RawExport(records).value| >= 2
    ensures |RawExport(records).value[0]| == |RawExport(records).value[1]|
  {
    RawExportShape(records);
  }

  /** ...but not necessarily any later row's: records with other keys give rows of other widths. */
  lemma RawRowsMayBeMisaligned()
    ensures var records := [Dict([Entry("id", Int(1))]), Dict([Entry("id", Int(2)), Entry("state", Str("active"))])];
      && RawExport(records).Ok?
      && |RawExport(records).value[0]| == 1
      && |RawExport(records).value[2]| == 2
  {
    var records := [Dict([Entry("id", Int(1))]), Dict([Entry("id", Int(2)), Entry("state", Str("active"))])];
    assert Flatten.Flattened(records[0]) == Ok([Entry("id", Int(1))]);
    var second := [Entry("id", Int(2)), Entry("state", Str("active"))];
    assert Flatten.FlattenInto(second[1..], "", [Entry("id", Int(2))]) == [Entry("id", Int(2)), Entry("state", Str("active"))];
    assert Flatten.FlattenInto(second, "", []) == Flatten.FlattenInto(second[1..], "", [Entry("id", Int(2))]);
    RawExportShape(records);
  }

  /** The raw export loop, one flatten_dict call per record. */
  method BuildRawExport(records: seq<Value>) returns (r: Result<seq<Row>, Failure>)
    ensures r == RawExport(records)
  {
    if records == [] {
      return Err(IndexError);
    }
    var first := Flatten.FlattenRecord(records[0]);
    if first.Err? {
      return Err(first.error);
    }
    var rows := [Header(Keys(first.value))];
    var i := 0;
    while i < |records|
      invariant 0 <= i <= |records|
      invariant RawExport(records) == RawRowsFrom(records[i..], rows)
    {
      assert records[i..][1..] == records[i + 1..];
      var flat := Flatten.FlattenRecord(records[i]);
      if flat.Err? {
        return Err(flat.error);
      }
      rows := rows + [Values(flat.value)];
      i := i + 1;
    }
    r := Ok(rows);
  }

  // ---------------------------------------------------------------------
  // The whole export
  // ---------------------------------------------------------------------

  /** The six tables export_data returns. */
  datatype Tables = Tables(
    customers: seq<Row>, subscriptions: seq<Row>, invoices: seq<Row>,
    rawSubscriptions: seq<Row>, rawInvoices: seq<Row>, rawCustomers: seq<Row>)

  /** Everything after the fetches: the three tables, then the three raw exports. */
  function Build(host: Host, src: Sources): Result<Tables, Failure> {
    var customers :- AppendRows(CustomerStep(host, src.customersById), src.subscriptions, [Header(CustomerRows.CustomerColumns)]);
    var st :- PlanRows(SubscriptionStep(host), src.subscriptions,
                SubscriptionsStart());
    var invoices :- KeepRows(InvoiceStep(host, src.subscriptionsById, st.plans), src.invoices, [Header(InvoiceRows.InvoiceColumns)]);
    var rawSubscriptions :- RawExport(st.records);
    var rawInvoices :- RawExport(src.invoices);
    var rawCustomers :- RawExport(src.customers);
    Ok(Tables(customers, st.rows, invoices, rawSubscriptions, rawInvoices, rawCustomers))
  }

  /** export_data(): None when a listing it reaches does not end within the bounds. */
  function Export(host: Host, net: Chargify.Network, client: Chargify.Client, api: Stripe.StripeApi,
                  pages: nat, fuel: nat): Option<Result<Tables, Failure>>
  {
    match Gather(host, net, client, api, pages, fuel)
    case None => None
    case Some(Err(e)) => Some(Err(e))
    case Some(Ok(src)) => Some(Build(host, src))
  }

  /**
   * The first half of export_data(): the paginated Chargify listings, the
   * Stripe listing loop and the two lookups, in the source's order.
   */
  method FetchSources(host: Host, net: Chargify.Network, client: Chargify.Client, api: Stripe.StripeApi,
                      ghost pages: nat, ghost fuel: nat) returns (g: Result<Sources, Failure>)
    requires Gather(host, net, client, api, pages, fuel).Some?
    ensures g == Gather(host, net, client, api, pages, fuel).value
  {
    var subscriptions, _ := Chargify.PaginatedRequest(host, net, client, Chargify.SubscriptionsListing(100),
      Unwrap("subscription"), SubscriptionPages(host, net, client), pages);
    if subscriptions.Err? {
      return Err(subscriptions.error);
    }
    var invoices, _ := Chargify.PaginatedRequest(host, net, client, Chargify.InvoicesListing(),
      Chargify.AsIs(), InvoicePages(host, net, client), pages);
    if invoices.Err? {
      return Err(invoices.error);
    }
    var subscriptionsById := IndexBy(subscriptions.value, "id");
    if subscriptionsById.Err? {
      return Err(subscriptionsById.error);
    }
    var customers, _ := Stripe.ListCustomers(api, Stripe.ApiPages(api), fuel);
    if customers.Err? {
      return Err(customers.error);
    }
    var customersById := IndexBy(customers.value, "id");
    if customersById.Err? {
      return Err(customersById.error);
    }
    g := Ok(Sources(subscriptions.value, invoices.value, subscriptionsById.value, customers.value, customersById.value));
  }

  /**
   * The subscriptions loop over the subscription records, held in an array
   * that the loop pads in place: the rows, the plan index and the padded
   * records, as the raw export later reads them.
   */
  method PlanSubscriptions(host: Host, subscriptions: seq<Value>) returns (r: Result<SubscriptionsState, Failure>)
    ensures r == PlanRows(SubscriptionStep(host), subscriptions, SubscriptionsStart())
  {
    var records := new Value[|subscriptions|](i requires 0 <= i < |subscriptions| => subscriptions[i]);
    assert records[..] == subscriptions;
    var out := BuildSubscriptionRows(host, records);
    if out.Err? {
      return Err(out.error);
    }
    r := Ok(SubscriptionsState(out.value.0, out.value.1, records[..]));
  }

  /**
   * The second half of export_data(): the three table-building loops, then
   * the three raw exports, the subscriptions one over the padded records.
   */
  method BuildTables(host: Host, src: Sources) returns (r: Result<Tables, Failure>)
    ensures r == Build(host, src)
  {
    var customerRows := BuildCustomerRows(host, src.subscriptions, src.customersById);
    if customerRows.Err? {
      return Err(customerRows.error);
    }
    var subscriptionRows := PlanSubscriptions(host, src.subscriptions);
    if subscriptionRows.Err? {
      return Err(subscriptionRows.error);
    }
    var invoiceRows := BuildInvoiceRows(host, src.invoices, src.subscriptionsById, subscriptionRows.value.plans);
    if invoiceRows.Err? {
      return Err(invoiceRows.error);
    }
    var rawSubscriptions := BuildRawExport(subscriptionRows.value.records);
    if rawSubscriptions.Err? {
      return Err(rawSubscriptions.error);
    }
    var rawInvoices := BuildRawExport(src.invoices);
    if rawInvoices.Err? {
      return Err(rawInvoices.error);
    }
    var rawCustomers := BuildRawExport(src.customers);
    if rawCustomers.Err? {
      return Err(rawCustomers.error);
    }
    r := Ok(Tables(customerRows.value, subscriptionRows.value.rows, invoiceRows.value,
                   rawSubscriptions.value, rawInvoices.value, rawCustomers.value));
  }

  /** export_data() itself: fetch, then build. */
  method ExportData(host: Host, net: Chargify.Network, client: Chargify.Client, api: Stripe.StripeApi,
                    ghost pages: nat, ghost fuel: nat) returns (r: Result<Tables, Failure>)
    requires Export(host, net, client, api, pages, fuel).Some?
    ensures r == Export(host, net, client, api, pages, fuel).value
  {
    var src := FetchSources(host, net, client, api, pages, fuel);
    if src.Err? {
      return Err(src.error);
    }
    r := BuildTables(host, src.value);
  }
}
