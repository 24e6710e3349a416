/**
 * The subscriptions table of the export: one row per subscription whose
 * product has a handle, with the plan and the status taken from two closed
 * tables, the coupon slots, and the dates each status makes meaningful.
 */
module SubscriptionRows {
  import opened Results
  import opened PyValue
  import opened Dates

  type Row = seq<Value>

  const SubscriptionColumns: seq<string> := [
    "customer[id]", "subscription[id]", "subscription[plan_id]", "subscription[plan_quantity]",
    "subscription[plan_unit_price]", "currency", "subscription[setup_fee]", "subscription[status]",
    "subscription[start_date]", "subscription[trial_start]", "subscription[trial_end]",
    "subscription[started_at]", "subscription[current_term_start]", "subscription[current_term_end]",
    "subscription[cancelled_at]", "subscription[pause_date]", "subscription[resume_date]",
    "billing_cycles", "subscription[auto_collection]", "subscription[po_number]",
    "coupon_ids[0]", "coupon_ids[1]", "subscription[payment_source_id]",
    "subscription[invoice_notes]", "subscription[meta_data]",
    "shipping_address[first_name]", "shipping_address[last_name]", "shipping_address[email]",
    "shipping_address[company]", "shipping_address[phone]", "shipping_address[line1]",
    "shipping_address[line2]", "shipping_address[line3]", "shipping_address[city]",
    "shipping_address[state_code]", "shipping_address[state]", "shipping_address[zip]",
    "shipping_address[country]", "shipping_address[validation_status]",
    "addons[id][0]", "addons[quantity][0]", "addons[unit_price][0]",
    "addons[id][1]", "addons[quantity][1]", "addons[unit_price][1]"]

  /** Product handle to plan id; any other handle is a KeyError. */
  const PlanIds: map<Value, string> := map[
    Str("unlimited") := "unlimited-gbp",
    Str("pro-plus") := "professional-gbp",
    Str("pro") := "scale-gbp",
    Str("basic") := "starter-gbp"]

  /** Subscription state to status; any other state is a KeyError. */
  const Statuses: map<Value, string> := map[
    Str("active") := "active",
    Str("canceled") := "cancelled",
    Str("expired") := "cancelled",
    Str("trial_ended") := "cancelled",
    Str("trialing") := "trial",
    Str("past_due") := "active",
    Str("on_hold") := "paused"]

  // ---------------------------------------------------------------------
  // Coupons
  // ---------------------------------------------------------------------

  /**
   * coupon_ids, and the list written back into the subscription when a single
   * code was padded in place with None.
   */
  datatype Coupons = Coupons(ids: Value, written: Option<Value>)

  function CouponIds(codes: Value): (r: Result<Coupons, Failure>)
    ensures !Truthy(codes) ==> r == Ok(Coupons(List([Null, Null]), None))
    ensures codes.List? && |codes.items| == 1 ==>
      r == Ok(Coupons(List(codes.items + [Null]), Some(List(codes.items + [Null]))))
    ensures codes.List? && |codes.items| >= 2 ==> r == Ok(Coupons(codes, None))
    ensures r.Ok? && r.value.written.Some? ==> r.value.written.value == r.value.ids
  {
    if Truthy(codes) then
      var n :- Len(codes);
      if n == 1 then
        var padded :- Append(codes, Null);
        Ok(Coupons(padded, Some(padded)))
      else Ok(Coupons(codes, None))
    else Ok(Coupons(List([Null, Null]), None))
  }

  /** coupon_ids[0] and coupon_ids[1]. */
  function CouponSlots(ids: Value): Result<(Value, Value), Failure> {
    var first :- Index(ids, 0);
    var second :- Index(ids, 1);
    Ok((first, second))
  }

  /**
   * No codes give (None, None), one code gives (code, None), and two or more
   * give the first two.
   */
  lemma CouponSlotsOfList(codes: seq<Value>)
    ensures CouponIds(List(codes)).Ok?
    ensures CouponSlots(CouponIds(List(codes)).value.ids)
         == Ok(if |codes| == 0 then (Null, Null)
               else if |codes| == 1 then (codes[0], Null)
               else (codes[0], codes[1]))
  {
    if |codes| == 1 {
      assert (codes + [Null])[1] == Null;
    }
  }

  // ---------------------------------------------------------------------
  // The reads before the row
  // ---------------------------------------------------------------------

  /** What a subscription with a product handle is exported under. */
  datatype Head = Head(customer: Value, id: Value, plan: string)

  /**
   * subscription['customer'], the product handle, the plan lookup and the
   * subscription id (which must be hashable, being a dict key); None when the
   * handle is falsy.
   */
  function PlanHead(subscription: Value): (r: Result<Option<Head>, Failure>)
  {
    var customer :- Get(subscription, "customer");
    var product :- Get(subscription, "product");
    var handle :- Get(product, "handle");
    if !Truthy(handle) then Ok(None)
    else
      var plan :- LookupKey(PlanIds, handle);
      var id :- Get(subscription, "id");
      if !Hashable(id) then Err(TypeError) else Ok(Some(Head(customer, id, plan)))
  }

  /** The state, its status, and the coupon ids. */
  datatype Standing = Standing(state: Value, status: string, coupons: Coupons)

  function StatusAndCoupons(subscription: Value): Result<Standing, Failure> {
    var state :- Get(subscription, "state");
    var status :- LookupKey(Statuses, state);
    var codes :- Get(subscription, "coupon_codes");
    var coupons :- CouponIds(codes);
    Ok(Standing(state, status, coupons))
  }

  // ---------------------------------------------------------------------
  // Dates
  // ---------------------------------------------------------------------

  /** format_date(subscription[key] if open else None). */
  function GatedDate(host: Host, subscription: Value, key: string, open: bool): (r: Result<Value, Failure>)
    ensures !open ==> r == Ok(Null)
  {
    if open then
      var v :- Get(subscription, key);
      FormatDate(host, v)
    else FormatDate(host, Null)
  }

  /** The key cancelled_at is read from. */
  function CancelledKey(state: Value): string {
    if state == Str("trial_ended") then "trial_ended_at" else "canceled_at"
  }

  /** trial_start, trial_end and started_at. */
  function StartDates(host: Host, subscription: Value, s: Standing): (r: Result<seq<Value>, Failure>)
    ensures r.Ok? ==> |r.value| == 3
    ensures r.Ok? ==> GatedDate(host, subscription, "trial_started_at", s.state == Str("trialing")) == Ok(r.value[0])
    ensures r.Ok? ==> GatedDate(host, subscription, "trial_ended_at", s.state == Str("trialing")) == Ok(r.value[1])
    ensures r.Ok? ==> GatedDate(host, subscription, "created_at", s.status in {"active", "cancelled"}) == Ok(r.value[2])
  {
    var trialStart :- GatedDate(host, subscription, "trial_started_at", s.state == Str("trialing"));
    var trialEnd :- GatedDate(host, subscription, "trial_ended_at", s.state == Str("trialing"));
    var startedAt :- GatedDate(host, subscription, "created_at", s.status in {"active", "cancelled"});
    Ok([trialStart, trialEnd, startedAt])
  }

  /** current_term_start, current_term_end, cancelled_at and pause_date. */
  function TermDates(host: Host, subscription: Value, s: Standing): (r: Result<seq<Value>, Failure>)
    ensures r.Ok? ==> |r.value| == 4
    ensures r.Ok? ==> GatedDate(host, subscription, "current_period_started_at", s.status in {"active", "paused"}) == Ok(r.value[0])
    ensures r.Ok? ==> GatedDate(host, subscription, "current_period_ends_at", s.status in {"active", "paused"}) == Ok(r.value[1])
    ensures r.Ok? ==> GatedDate(host, subscription, CancelledKey(s.state), true) == Ok(r.value[2])
    ensures r.Ok? ==> GatedDate(host, subscription, "on_hold_at", true) == Ok(r.value[3])
  {
    var termStart :- GatedDate(host, subscription, "current_period_started_at", s.status in {"active", "paused"});
    var termEnd :- GatedDate(host, subscription, "current_period_ends_at", s.status in {"active", "paused"});
    var cancelledAt :- GatedDate(host, subscription, CancelledKey(s.state), true);
    var pauseDate :- GatedDate(host, subscription, "on_hold_at", true);
    Ok([termStart, termEnd, cancelledAt, pauseDate])
  }

  // ---------------------------------------------------------------------
  // The row
  // ---------------------------------------------------------------------

  /** The value in column j of a row; the columns not listed are None. */
  function SubscriptionCell(j: int, reference: Value, h: Head, status: string, starts: seq<Value>,
                            terms: seq<Value>, coupons: (Value, Value)): Value
    requires |starts| == 3 && |terms| == 4
  {
    if j == 0 then reference
    else if j == 1 then h.id
    else if j == 2 then Str(h.plan)
    else if j == 3 then Int(1)
    else if j == 5 then Str("GBP")
    else if j == 6 then Int(0)
    else if j == 7 then Str(status)
    else if 9 <= j < 12 then starts[j - 9]
    else if 12 <= j < 16 then terms[j - 12]
    else if j == 18 then Str("on")
    else if j == 20 then coupons.0
    else if j == 21 then coupons.1
    else Null
  }

  /** The row laid out in header order. */
  function AssembleSubscriptionRow(reference: Value, h: Head, status: string, starts: seq<Value>,
                                   terms: seq<Value>, coupons: (Value, Value)): (row: Row)
    requires |starts| == 3 && |terms| == 4
    ensures |row| == |SubscriptionColumns|
    ensures row[1] == h.id && row[2] == Str(h.plan) && row[7] == Str(status)
    ensures row[9] == starts[0] && row[10] == starts[1] && row[11] == starts[2]
    ensures row[12] == terms[0] && row[13] == terms[1] && row[14] == terms[2] && row[15] == terms[3]
    ensures row[20] == coupons.0 && row[21] == coupons.1
  {
    seq(45, j requires 0 <= j < 45 => SubscriptionCell(j, reference, h, status, starts, terms, coupons))
  }

  /** What one subscription contributes. */
  datatype Outcome =
    | Skipped
      /** the row, the plan-index entry, and the record as it is after the in-place coupon padding */
    | Emitted(row: Row, id: Value, plan: string, record: Value)

  /** The subscription as the loop leaves it: a single coupon code padded in place. */
  function Written(subscription: Value, c: Coupons): Value {
    if subscription.Dict? && c.written.Some? then Dict(Put(subscription.fields, "coupon_codes", c.written.value))
    else subscription
  }

  function SubscriptionRow(host: Host, subscription: Value, h: Head, s: Standing): (r: Result<Row, Failure>)
    ensures r.Ok? ==> |r.value| == |SubscriptionColumns|
  {
    var reference :- Get(h.customer, "reference");
    var starts :- StartDates(host, subscription, s);
    var terms :- TermDates(host, subscription, s);
    var coupons :- CouponSlots(s.coupons.ids);
    Ok(AssembleSubscriptionRow(reference, h, s.status, starts, terms, coupons))
  }

  /** The parts an emitted row is assembled from. */
  lemma SubscriptionRowParts(host: Host, subscription: Value, h: Head, s: Standing)
    requires SubscriptionRow(host, subscription, h, s).Ok?
    ensures Get(h.customer, "reference").Ok?
    ensures StartDates(host, subscription, s).Ok? && TermDates(host, subscription, s).Ok?
    ensures CouponSlots(s.coupons.ids).Ok?
    ensures SubscriptionRow(host, subscription, h, s).value
         == AssembleSubscriptionRow(Get(h.customer, "reference").value, h, s.status,
              StartDates(host, subscription, s).value, TermDates(host, subscription, s).value,
              CouponSlots(s.coupons.ids).value)
  {
  }

  /** The identifying and status columns of a built row. */
  lemma SubscriptionRowIds(host: Host, subscription: Value, h: Head, s: Standing)
    requires SubscriptionRow(host, subscription, h, s).Ok?
    ensures var row := SubscriptionRow(host, subscription, h, s).value;
      && row[1] == h.id && row[2] == Str(h.plan) && row[7] == Str(s.status)
      && CouponSlots(s.coupons.ids) == Ok((row[20], row[21]))
  {
    SubscriptionRowParts(host, subscription, h, s);
  }

  /** The date columns of a built row. */
  lemma SubscriptionRowDates(host: Host, subscription: Value, h: Head, s: Standing)
    requires SubscriptionRow(host, subscription, h, s).Ok?
    ensures var row := SubscriptionRow(host, subscription, h, s).value;
      && Ok(row[9]) == GatedDate(host, subscription, "trial_started_at", s.state == Str("trialing"))
      && Ok(row[10]) == GatedDate(host, subscription, "trial_ended_at", s.state == Str("trialing"))
      && Ok(row[11]) == GatedDate(host, subscription, "created_at", s.status in {"active", "cancelled"})
      && Ok(row[12]) == GatedDate(host, subscription, "current_period_started_at", s.status in {"active", "paused"})
      && Ok(row[13]) == GatedDate(host, subscription, "current_period_ends_at", s.status in {"active", "paused"})
      && Ok(row[14]) == GatedDate(host, subscription, CancelledKey(s.state), true)
      && Ok(row[15]) == GatedDate(host, subscription, "on_hold_at", true)
  {
    SubscriptionRowParts(host, subscription, h, s);
  }

  /** What the plan stage read, when it found a handle. */
  lemma PlanHeadFacts(subscription: Value)
    requires PlanHead(subscription).Ok? && PlanHead(subscription).value.Some?
    ensures Handle(subscription).Ok? && Handle(subscription).value in PlanIds
    ensures Get(subscription, "id").Ok? && Hashable(Get(subscription, "id").value)
    ensures PlanHead(subscription).value.value.plan == PlanIds[Handle(subscription).value]
    ensures PlanHead(subscription).value.value.id == Get(subscription, "id").value
  {
  }

  /** What the status stage read. */
  lemma StandingFacts(subscription: Value)
    requires StatusAndCoupons(subscription).Ok?
    ensures Get(subscription, "state").Ok? && Get(subscription, "state").value in Statuses
    ensures StatusAndCoupons(subscription).value.state == Get(subscription, "state").value
    ensures StatusAndCoupons(subscription).value.status == Statuses[Get(subscription, "state").value]
  {
  }

  /** The product handle of a subscription. */
  function Handle(subscription: Value): Result<Value, Failure> {
    var product :- Get(subscription, "product");
    Get(product, "handle")
  }

  /** One turn of the subscriptions loop. */
  function SubscriptionStep(host: Host, subscription: Value): (r: Result<Outcome, Failure>)
    ensures r.Ok? && r.value.Emitted? ==> |r.value.row| == |SubscriptionColumns|
  {
    var head :- PlanHead(subscription);
    if head.None? then Ok(Skipped)
    else
      var s :- StatusAndCoupons(subscription);
      var row :- SubscriptionRow(host, subscription, head.value, s);
      Ok(Emitted(row, head.value.id, head.value.plan, Written(subscription, s.coupons)))
  }

  // ---------------------------------------------------------------------
  // Properties
  // ---------------------------------------------------------------------

  /** A falsy product handle produces no row and no plan-index entry. */
  lemma FalsyHandleSkipped(host: Host, subscription: Value)
    requires Get(subscription, "customer").Ok? && Handle(subscription).Ok?
    requires !Truthy(Handle(subscription).value)
    ensures SubscriptionStep(host, subscription) == Ok(Skipped)
  {
  }

  /** A handle outside the plan table aborts the export. */
  lemma UnknownHandleAborts(host: Host, subscription: Value)
    requires Get(subscription, "customer").Ok? && Handle(subscription).Ok?
    requires Truthy(Handle(subscription).value) && Hashable(Handle(subscription).value)
    requires Handle(subscription).value !in PlanIds
    ensures SubscriptionStep(host, subscription) == Err(KeyError(Handle(subscription).value))
  {
  }

  /** A state outside the status table aborts the export. */
  lemma UnknownStateAborts(host: Host, subscription: Value)
    requires PlanHead(subscription).Ok? && PlanHead(subscription).value.Some?
    requires Get(subscription, "state").Ok?
    requires Hashable(Get(subscription, "state").value) && Get(subscription, "state").value !in Statuses
    ensures SubscriptionStep(host, subscription) == Err(KeyError(Get(subscription, "state").value))
  {
  }

  /** An emitted subscription went through both tables and the row built from them. */
  lemma EmittedFrom(host: Host, subscription: Value)
    requires SubscriptionStep(host, subscription).Ok? && SubscriptionStep(host, subscription).value.Emitted?
    ensures PlanHead(subscription).Ok? && PlanHead(subscription).value.Some?
    ensures StatusAndCoupons(subscription).Ok?
    ensures var h := PlanHead(subscription).value.value;
      var s := StatusAndCoupons(subscription).value;
      var out := SubscriptionStep(host, subscription).value;
      && out.id == h.id && out.plan == h.plan
      && SubscriptionRow(host, subscription, h, s) == Ok(out.row)
      && out.record == Written(subscription, s.coupons)
  {
  }

  /**
   * An emitted row carries the subscription id, the plan its handle maps to and
   * the status its state maps to; the plan index gets the same id and plan.
   */
  lemma EmittedPlanAndStatus(host: Host, subscription: Value)
    requires SubscriptionStep(host, subscription).Ok? && SubscriptionStep(host, subscription).value.Emitted?
    ensures Handle(subscription).Ok? && Handle(subscription).value in PlanIds
    ensures Get(subscription, "id").Ok? && Get(subscription, "state").Ok?
    ensures Get(subscription, "state").value in Statuses
    ensures var out := SubscriptionStep(host, subscription).value;
      && out.id == Get(subscription, "id").value && Hashable(out.id)
      && out.plan == PlanIds[Handle(subscription).value]
      && out.row[1] == out.id
      && out.row[2] == Str(out.plan)
      && out.row[7] == Str(Statuses[Get(subscription, "state").value])
  {
    EmittedFrom(host, subscription);
    PlanHeadFacts(subscription);
    StandingFacts(subscription);
    SubscriptionRowIds(host, subscription, PlanHead(subscription).value.value, StatusAndCoupons(subscription).value);
  }

  /**
   * Date gating: trial dates only while trialing, started_at only for active or
   * cancelled, the current term only for active or paused; cancelled_at reads
   * trial_ended_at for an ended trial and canceled_at otherwise.
   */
  lemma EmittedDates(host: Host, subscription: Value)
    requires SubscriptionStep(host, subscription).Ok? && SubscriptionStep(host, subscription).value.Emitted?
    ensures StatusAndCoupons(subscription).Ok?
    ensures var s := StatusAndCoupons(subscription).value;
      var row := SubscriptionStep(host, subscription).value.row;
      && Ok(row[9]) == GatedDate(host, subscription, "trial_started_at", s.state == Str("trialing"))
      && Ok(row[10]) == GatedDate(host, subscription, "trial_ended_at", s.state == Str("trialing"))
      && Ok(row[11]) == GatedDate(host, subscription, "created_at", s.status in {"active", "cancelled"})
      && Ok(row[12]) == GatedDate(host, subscription, "current_period_started_at", s.status in {"active", "paused"})
      && Ok(row[13]) == GatedDate(host, subscription, "current_period_ends_at", s.status in {"active", "paused"})
      && Ok(row[14]) == GatedDate(host, subscription, CancelledKey(s.state), true)
      && Ok(row[15]) == GatedDate(host, subscription, "on_hold_at", true)
  {
    EmittedFrom(host, subscription);
    SubscriptionRowDates(host, subscription, PlanHead(subscription).value.value, StatusAndCoupons(subscription).value);
  }

  /** The coupon columns hold coupon_ids[0] and coupon_ids[1]. */
  lemma EmittedCoupons(host: Host, subscription: Value)
    requires SubscriptionStep(host, subscription).Ok? && SubscriptionStep(host, subscription).value.Emitted?
    ensures StatusAndCoupons(subscription).Ok?
    ensures var row := SubscriptionStep(host, subscription).value.row;
      CouponSlots(StatusAndCoupons(subscription).value.coupons.ids) == Ok((row[20], row[21]))
  {
    EmittedFrom(host, subscription);
    SubscriptionRowIds(host, subscription, PlanHead(subscription).value.value, StatusAndCoupons(subscription).value);
  }

  /**
   * The loop changes the subscription only by padding a single coupon code with
   * None in place; every other field, and the key order, stay as they were.
   */
  lemma WrittenChangesOnlyCoupons(subscription: Value, c: Coupons, k: string)
    requires subscription.Dict? && "coupon_codes" in Keys(subscription.fields)
    ensures Written(subscription, c).Dict?
    ensures Keys(Written(subscription, c).fields) == Keys(subscription.fields)
    ensures k != "coupon_codes" ==> Lookup(Written(subscription, c).fields, k) == Lookup(subscription.fields, k)
    ensures c.written.Some? ==> Lookup(Written(subscription, c).fields, "coupon_codes") == c.written
  {
    if c.written.Some? {
      PutKeys(subscription.fields, "coupon_codes", c.written.value);
      PutLookup(subscription.fields, "coupon_codes", c.written.value, k);
      PutLookup(subscription.fields, "coupon_codes", c.written.value, "coupon_codes");
    }
  }

  /** A subscription is skipped exactly when its product handle is falsy. */
  lemma SkippedIffFalsyHandle(host: Host, subscription: Value)
    requires SubscriptionStep(host, subscription).Ok?
    ensures Handle(subscription).Ok?
    ensures SubscriptionStep(host, subscription).value.Skipped? <==> !Truthy(Handle(subscription).value)
  {
  }

  /** A trialing "pro" subscription is exported as a "scale-gbp" trial with no current term. */
  lemma TrialingProScenario(host: Host, subscription: Value)
    requires SubscriptionStep(host, subscription).Ok?
    requires Handle(subscription) == Ok(Str("pro")) && Get(subscription, "state") == Ok(Str("trialing"))
    ensures SubscriptionStep(host, subscription).value.Emitted?
    ensures var out := SubscriptionStep(host, subscription).value;
      && out.plan == "scale-gbp" && out.row[2] == Str("scale-gbp") && out.row[7] == Str("trial")
      && Ok(out.row[9]) == GatedDate(host, subscription, "trial_started_at", true)
      && Ok(out.row[10]) == GatedDate(host, subscription, "trial_ended_at", true)
      && out.row[11] == Null && out.row[12] == Null && out.row[13] == Null
  {
    SkippedIffFalsyHandle(host, subscription);
    assert Truthy(Str("pro"));
    EmittedPlanAndStatus(host, subscription);
    EmittedDates(host, subscription);
    StandingFacts(subscription);
  }

  /** An on_hold subscription is exported as paused, with its current term. */
  lemma OnHoldScenario(host: Host, subscription: Value)
    requires SubscriptionStep(host, subscription).Ok? && SubscriptionStep(host, subscription).value.Emitted?
    requires Get(subscription, "state") == Ok(Str("on_hold"))
    ensures var row := SubscriptionStep(host, subscription).value.row;
      && row[7] == Str("paused")
      && Ok(row[13]) == GatedDate(host, subscription, "current_period_ends_at", true)
      && row[9] == Null && row[10] == Null && row[11] == Null
  {
    EmittedPlanAndStatus(host, subscription);
    EmittedDates(host, subscription);
    StandingFacts(subscription);
  }

  /** The header has 45 columns. */
  lemma SubscriptionColumnCount()
    ensures |SubscriptionColumns| == 45
    ensures SubscriptionColumns[20] == "coupon_ids[0]" && SubscriptionColumns[21] == "coupon_ids[1]"
  {
  }
}
