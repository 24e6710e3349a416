/**
 * The invoices table of the export: one row per invoice whose subscription got
 * a plan, that is not canceled and whose subtotal is not zero.
 */
module InvoiceRows {
  import opened Results
  import opened PyValue
  import opened Dates

  type Row = seq<Value>

  const InvoiceColumns: seq<string> := [
    "invoice[id]", "invoice[currency_code]", "invoice[customer_id]", "invoice[subscription_id]",
    "invoice[status]", "invoice[date]", "invoice[po_number]", "invoice[price_type]",
    "tax_override_reason", "invoice[vat_number]", "invoice[total]", "round_off",
    "invoice[due_date]", "invoice[net_term_days]", "use_for_proration",
    "billing_address[first_name]", "billing_address[last_name]", "billing_address[email]",
    "billing_address[company]", "billing_address[phone]", "billing_address[line1]",
    "billing_address[line2]", "billing_address[line3]", "billing_address[city]",
    "billing_address[state_code]", "billing_address[state]", "billing_address[zip]",
    "billing_address[country]", "billing_address[validation_status]",
    "shipping_address[first_name]", "shipping_address[last_name]", "shipping_address[email]",
    "shipping_address[company]", "shipping_address[phone]", "shipping_address[line1]",
    "shipping_address[line2]", "shipping_address[line3]", "shipping_address[city]",
    "shipping_address[state_code]", "shipping_address[state]", "shipping_address[zip]",
    "shipping_address[country]", "shipping_address[validation_status]",
    "line_items[id][0]", "line_items[entity_type][0]", "line_items[entity_id][0]",
    "line_items[date_from][0]", "line_items[date_to][0]", "line_items[description][0]",
    "line_items[unit_amount][0]", "line_items[quantity][0]", "line_items[amount][0]",
    "line_items[item_level_discount1_entity_id][0]", "line_items[item_level_discount1_amount][0]",
    "line_items[item_level_discount2_entity_id][0]", "line_items[item_level_discount2_amount][0]",
    "line_items[tax1_name][0]", "line_items[tax1_amount][0]", "line_items[tax2_name][0]",
    "line_items[tax2_amount][0]", "line_items[tax3_name][0]", "line_items[tax3_amount][0]",
    "line_items[tax4_name][0]", "line_items[tax4_amount][0]",
    "line_item_tiers[line_item_id][0]", "line_item_tiers[starting_unit][0]",
    "line_item_tiers[ending_unit][0]", "line_item_tiers[quantity_used][0]",
    "line_item_tiers[unit_amount][0]",
    "discounts[entity_type][0]", "discounts[entity_id][0]", "discounts[description][0]",
    "discounts[amount][0]",
    "taxes[name][0]", "taxes[rate][0]", "taxes[amount][0]", "taxes[description][0]",
    "taxes[juris_type][0]", "taxes[juris_name][0]", "taxes[juris_code][0]",
    "payments[amount][0]", "payments[payment_method][0]", "payments[date][0]",
    "payments[reference_number][0]",
    "notes[entity_type][0]", "notes[entity_id][0]", "notes[note][0]",
    "line_items[date_from][1]", "line_items[date_to][1]", "line_items[description][1]",
    "line_items[unit_amount][1]", "line_items[quantity][1]", "line_items[amount][1]",
    "line_items[entity_type][1]", "line_items[entity_id][1]"]

  // ---------------------------------------------------------------------
  // The stages of one turn of the invoices loop
  // ---------------------------------------------------------------------

  /** subscriptions_to_plans[subscription['id']]. */
  function PlanOf(subscription: Value, plans: map<Value, string>): Result<string, Failure> {
    var id :- Get(subscription, "id");
    LookupKey(plans, id)
  }

  /** The invoice's customer, its subscription and that subscription's plan. */
  datatype Context = Context(customer: Value, subscriptionId: Value, subscription: Value, plan: string)

  /**
   * The subscription lookup (a miss aborts) and the plan lookup, whose KeyError
   * alone is caught and skips the invoice (None).
   */
  function InvoiceContext(invoice: Value, subscriptionsById: map<Value, Value>, plans: map<Value, string>): (r: Result<Option<Context>, Failure>)
    ensures r.Ok? && r.value.Some? ==>
      && Get(invoice, "customer") == Ok(r.value.value.customer)
      && Get(invoice, "subscription_id") == Ok(r.value.value.subscriptionId)
      && LookupKey(subscriptionsById, r.value.value.subscriptionId) == Ok(r.value.value.subscription)
      && PlanOf(r.value.value.subscription, plans) == Ok(r.value.value.plan)
  {
    var customer :- Get(invoice, "customer");
    var subscriptionId :- Get(invoice, "subscription_id");
    var subscription :- LookupKey(subscriptionsById, subscriptionId);
    match PlanOf(subscription, plans)
    case Ok(plan) => Ok(Some(Context(customer, subscriptionId, subscription, plan)))
    case Err(e) => if e.KeyError? then Ok(None) else Err(e)
  }

  /** What is read before the skip checks: the billing address, the period and the tax. */
  datatype Preamble = Preamble(billing: Value, issueDate: Value, periodFrom: Timestamp, periodTo: Timestamp,
                               taxAmount: Value, tax: real)

  /** billing_address, dateparse(issue_date) plus one month, and float(tax_amount). */
  function ReadPreamble(host: Host, invoice: Value): (r: Result<Preamble, Failure>)
    ensures r.Ok? ==>
      && Get(invoice, "issue_date") == Ok(r.value.issueDate)
      && ParseDate(host, r.value.issueDate) == Ok(r.value.periodFrom)
      && r.value.periodTo == host.addMonth(r.value.periodFrom)
      && Get(invoice, "tax_amount") == Ok(r.value.taxAmount)
      && ToFloat(host, r.value.taxAmount) == Ok(r.value.tax)
  {
    var billing :- Get(invoice, "billing_address");
    var issueDate :- Get(invoice, "issue_date");
    var periodFrom :- ParseDate(host, issueDate);
    var taxAmount :- Get(invoice, "tax_amount");
    var tax :- ToFloat(host, taxAmount);
    Ok(Preamble(billing, issueDate, periodFrom, host.addMonth(periodFrom), taxAmount, tax))
  }

  /** The status and the subtotal of an invoice that passed both skip checks. */
  datatype Kept = Kept(status: Value, subtotal: real)

  /** The skip checks: a canceled status, then a zero subtotal (None). */
  function SkipChecks(host: Host, invoice: Value): (r: Result<Option<Kept>, Failure>)
    ensures r.Ok? ==> Get(invoice, "status").Ok?
    ensures r.Ok? && Get(invoice, "status").value == Str("canceled") ==> r.value.None?
    ensures r.Ok? && Get(invoice, "status").value != Str("canceled") ==>
      && Get(invoice, "subtotal_amount").Ok?
      && ToFloat(host, Get(invoice, "subtotal_amount").value).Ok?
      && (r.value.None? <==> ToFloat(host, Get(invoice, "subtotal_amount").value).value == 0.0)
    ensures r.Ok? && r.value.Some? ==>
      r.value.value == Kept(Get(invoice, "status").value, ToFloat(host, Get(invoice, "subtotal_amount").value).value)
  {
    var status :- Get(invoice, "status");
    if status == Str("canceled") then Ok(None)
    else
      var subtotalAmount :- Get(invoice, "subtotal_amount");
      var subtotal :- ToFloat(host, subtotalAmount);
      if subtotal == 0.0 then Ok(None) else Ok(Some(Kept(status, subtotal)))
  }

  /** The amounts of a kept invoice. */
  datatype Sums = Sums(credit: real, discountAmount: Value, discount: real)

  /** float(credit_amount) and float(discount_amount). */
  function ReadSums(host: Host, invoice: Value): (r: Result<Sums, Failure>)
    ensures r.Ok? ==>
      && Get(invoice, "credit_amount").Ok? && ToFloat(host, Get(invoice, "credit_amount").value) == Ok(r.value.credit)
      && Get(invoice, "discount_amount") == Ok(r.value.discountAmount)
      && ToFloat(host, r.value.discountAmount) == Ok(r.value.discount)
  {
    var creditAmount :- Get(invoice, "credit_amount");
    var credit :- ToFloat(host, creditAmount);
    var discountAmount :- Get(invoice, "discount_amount");
    var discount :- ToFloat(host, discountAmount);
    Ok(Sums(credit, discountAmount, discount))
  }

  // ---------------------------------------------------------------------
  // The row's own reads
  // ---------------------------------------------------------------------

  /** invoice['uid'], format_date(invoice['issue_date']) and invoice['sequence_number']. */
  function Heading(host: Host, invoice: Value, issueDate: Value): (r: Result<seq<Value>, Failure>)
    ensures r.Ok? ==> |r.value| == 3
  {
    var uid :- Get(invoice, "uid");
    var date :- FormatDate(host, issueDate);
    var sequenceNumber :- Get(invoice, "sequence_number");
    Ok([uid, date, sequenceNumber])
  }

  /** The customer's first_name, last_name, email and organization. */
  function Contact(customer: Value): (r: Result<seq<Value>, Failure>)
    ensures r.Ok? ==> |r.value| == 4
  {
    var firstName :- Get(customer, "first_name");
    var lastName :- Get(customer, "last_name");
    var email :- Get(customer, "email");
    var company :- Get(customer, "organization");
    Ok([firstName, lastName, email, company])
  }

  /** The billing address's street, line2, city, state, zip and country. */
  function Address(billing: Value): (r: Result<seq<Value>, Failure>)
    ensures r.Ok? ==> |r.value| == 6
  {
    var street :- Get(billing, "street");
    var line2 :- Get(billing, "line2");
    var city :- Get(billing, "city");
    var state :- Get(billing, "state");
    var zip :- Get(billing, "zip");
    var country :- Get(billing, "country");
    Ok([street, line2, city, state, zip, country])
  }

  /** "{product_family_name} - {product_name}". */
  function Description(host: Host, invoice: Value): Result<Value, Failure> {
    var family :- Get(invoice, "product_family_name");
    var name :- Get(invoice, "product_name");
    Ok(Str(PyStr(host, family) + " - " + PyStr(host, name)))
  }

  /** invoice['paid_amount'] and format_date(invoice['paid_date']). */
  function Payment(host: Host, invoice: Value): (r: Result<(Value, Value), Failure>)
  {
    var paid :- Get(invoice, "paid_amount");
    var paidDate :- Get(invoice, "paid_date");
    var date :- FormatDate(host, paidDate);
    Ok((paid, date))
  }

  /** Everything a row is laid out from. */
  datatype Cells = Cells(
    heading: seq<Value>, subscriptionId: Value, status: Value, total: real,
    contact: seq<Value>, address: seq<Value>, plan: string, periodFrom: Timestamp, periodTo: Timestamp,
    description: Value, amount: real, taxed: bool, taxAmount: Value,
    coupon: Value, discounted: bool, discountAmount: Value, payment: (Value, Value))

  predicate WellShaped(c: Cells) {
    |c.heading| == 3 && |c.contact| == 4 && |c.address| == 6
  }

  /** The value in column j; the columns not listed are None. */
  function InvoiceCell(j: int, c: Cells): Value
    requires WellShaped(c)
  {
    if j == 0 then c.heading[0]
    else if j == 1 then Str("GBP")
    else if j == 3 then c.subscriptionId
    else if j == 4 then c.status
    else if j == 5 then c.heading[1]
    else if j == 6 then c.heading[2]
    else if j == 7 then Str("tax_inclusive")
    else if j == 10 then Float(c.total)
    else if j == 14 then Str("TRUE")
    else if 15 <= j < 19 then c.contact[j - 15]
    else if j == 20 then c.address[0]
    else if j == 21 then c.address[1]
    else if j == 23 then c.address[2]
    else if 25 <= j < 28 then c.address[j - 22]
    else if j == 44 then Str("plan")
    else if j == 45 then Str(c.plan)
    else if j == 46 then DateTime(c.periodFrom)
    else if j == 47 then DateTime(c.periodTo)
    else if j == 48 then c.description
    else if j == 49 || j == 51 then Float(c.amount)
    else if j == 50 then Int(1)
    else if j == 56 || j == 73 then (if c.taxed then Str("VAT") else Null)
    else if j == 57 || j == 75 then (if c.taxed then c.taxAmount else Null)
    else if j == 74 then (if c.taxed then Str("20") else Null)
    else if j == 69 then (if Truthy(c.coupon) && c.discounted then Str("document_level_coupon") else Null)
    else if j == 70 then (if c.discounted then c.coupon else Null)
    else if j == 72 then (if c.discounted then c.discountAmount else Null)
    else if j == 80 then c.payment.0
    else if j == 81 then Str("other")
    else if j == 82 then c.payment.1
    else Null
  }

  /** The row laid out in header order. */
  function AssembleInvoiceRow(c: Cells): (row: Row)
    requires WellShaped(c)
    ensures |row| == |InvoiceColumns|
    ensures row[3] == c.subscriptionId && row[4] == c.status && row[10] == Float(c.total)
    ensures row[44] == Str("plan") && row[45] == Str(c.plan)
    ensures row[46] == DateTime(c.periodFrom) && row[47] == DateTime(c.periodTo)
    ensures row[49] == Float(c.amount) && row[50] == Int(1) && row[51] == Float(c.amount)
    ensures row[80] == c.payment.0
  {
    seq(95, j requires 0 <= j < 95 => InvoiceCell(j, c))
  }

  /** The tax columns of both tax blocks are filled exactly when the invoice is taxed. */
  lemma AssembledTaxes(c: Cells)
    requires WellShaped(c)
    ensures var row := AssembleInvoiceRow(c);
      && row[56] == row[73] == (if c.taxed then Str("VAT") else Null)
      && row[57] == row[75] == (if c.taxed then c.taxAmount else Null)
      && row[74] == (if c.taxed then Str("20") else Null)
  {
    var row := AssembleInvoiceRow(c);
    assert row[56] == InvoiceCell(56, c) && row[73] == InvoiceCell(73, c);
    assert row[57] == InvoiceCell(57, c) && row[75] == InvoiceCell(75, c);
    assert row[74] == InvoiceCell(74, c);
  }

  /** The discount columns are filled exactly when there is a discount. */
  lemma AssembledDiscount(c: Cells)
    requires WellShaped(c)
    ensures var row := AssembleInvoiceRow(c);
      && row[69] == (if Truthy(c.coupon) && c.discounted then Str("document_level_coupon") else Null)
      && row[70] == (if c.discounted then c.coupon else Null)
      && row[72] == (if c.discounted then c.discountAmount else Null)
  {
    var row := AssembleInvoiceRow(c);
    assert row[69] == InvoiceCell(69, c) && row[70] == InvoiceCell(70, c) && row[72] == InvoiceCell(72, c);
  }

  /** amount = float(subtotal_amount) - float(credit_amount). */
  function NetAmount(subtotal: real, credit: real): real {
    subtotal - credit
  }

  /** total = amount - discount_amount + float(tax_amount), in that order. */
  function GrossTotal(amount: real, discount: real, tax: real): real {
    amount - discount + tax
  }

  /** The row's own reads, in column order, and the values computed from the stages. */
  function RowCells(host: Host, invoice: Value, ctx: Context, p: Preamble, k: Kept, s: Sums): (r: Result<Cells, Failure>)
    ensures r.Ok? ==> WellShaped(r.value)
    ensures r.Ok? ==>
      && r.value.subscriptionId == ctx.subscriptionId && r.value.status == k.status
      && r.value.total == GrossTotal(NetAmount(k.subtotal, s.credit), s.discount, p.tax)
      && r.value.plan == ctx.plan && r.value.periodFrom == p.periodFrom && r.value.periodTo == p.periodTo
      && r.value.amount == NetAmount(k.subtotal, s.credit)
      && r.value.taxed == (p.tax != 0.0) && r.value.taxAmount == p.taxAmount
      && Get(ctx.subscription, "coupon_code") == Ok(r.value.coupon)
      && r.value.discounted == (s.discount != 0.0) && r.value.discountAmount == s.discountAmount
  {
    var heading :- Heading(host, invoice, p.issueDate);
    var contact :- Contact(ctx.customer);
    var address :- Address(p.billing);
    var description :- Description(host, invoice);
    var coupon :- Get(ctx.subscription, "coupon_code");
    var payment :- Payment(host, invoice);
    Ok(Cells(
      heading, ctx.subscriptionId, k.status, GrossTotal(NetAmount(k.subtotal, s.credit), s.discount, p.tax),
      contact, address, ctx.plan, p.periodFrom, p.periodTo,
      description, NetAmount(k.subtotal, s.credit), p.tax != 0.0, p.taxAmount,
      coupon, s.discount != 0.0, s.discountAmount, payment))
  }

  /** The row of a kept invoice. */
  function InvoiceRow(host: Host, invoice: Value, ctx: Context, p: Preamble, k: Kept, s: Sums): (r: Result<Row, Failure>)
    ensures r.Ok? ==> |r.value| == |InvoiceColumns|
  {
    var c :- RowCells(host, invoice, ctx, p, k, s);
    Ok(AssembleInvoiceRow(c))
  }

  /** One turn of the invoices loop: a row, a skip (None), or the error that aborts the export. */
  function InvoiceStep(host: Host, invoice: Value, subscriptionsById: map<Value, Value>, plans: map<Value, string>): (r: Result<Option<Row>, Failure>)
    ensures r.Ok? && r.value.Some? ==> |r.value.value| == |InvoiceColumns|
  {
    var ctx :- InvoiceContext(invoice, subscriptionsById, plans);
    if ctx.None? then Ok(None)
    else
      var p :- ReadPreamble(host, invoice);
      var kept :- SkipChecks(host, invoice);
      if kept.None? then Ok(None)
      else
        var s :- ReadSums(host, invoice);
        var row :- InvoiceRow(host, invoice, ctx.value, p, kept.value, s);
        Ok(Some(row))
  }

  // ---------------------------------------------------------------------
  // What a kept invoice's row holds
  // ---------------------------------------------------------------------

  /** The stages an emitted row went through. */
  lemma EmittedInvoice(host: Host, invoice: Value, subscriptionsById: map<Value, Value>, plans: map<Value, string>)
    requires InvoiceStep(host, invoice, subscriptionsById, plans).Ok?
    requires InvoiceStep(host, invoice, subscriptionsById, plans).value.Some?
    ensures InvoiceContext(invoice, subscriptionsById, plans).Ok? && InvoiceContext(invoice, subscriptionsById, plans).value.Some?
    ensures ReadPreamble(host, invoice).Ok? && ReadSums(host, invoice).Ok?
    ensures SkipChecks(host, invoice).Ok? && SkipChecks(host, invoice).value.Some?
    ensures InvoiceRow(host, invoice, InvoiceContext(invoice, subscriptionsById, plans).value.value,
              ReadPreamble(host, invoice).value, SkipChecks(host, invoice).value.value, ReadSums(host, invoice).value)
         == Ok(InvoiceStep(host, invoice, subscriptionsById, plans).value.value)
    ensures var c := RowCells(host, invoice, InvoiceContext(invoice, subscriptionsById, plans).value.value,
              ReadPreamble(host, invoice).value, SkipChecks(host, invoice).value.value, ReadSums(host, invoice).value);
      c.Ok? && InvoiceStep(host, invoice, subscriptionsById, plans).value.value == AssembleInvoiceRow(c.value)
  {
  }

  /** The line item's amount columns of a row, in terms of the stage values. */
  lemma RowAmount(host: Host, invoice: Value, ctx: Context, p: Preamble, k: Kept, s: Sums)
    requires InvoiceRow(host, invoice, ctx, p, k, s).Ok?
    ensures var row := InvoiceRow(host, invoice, ctx, p, k, s).value;
      row[49] == Float(NetAmount(k.subtotal, s.credit)) && row[50] == Int(1) && row[51] == Float(NetAmount(k.subtotal, s.credit))
  {
  }

  /** The invoice total of a row, in terms of the stage values. */
  lemma RowTotal(host: Host, invoice: Value, ctx: Context, p: Preamble, k: Kept, s: Sums)
    requires InvoiceRow(host, invoice, ctx, p, k, s).Ok?
    ensures InvoiceRow(host, invoice, ctx, p, k, s).value[10] == Float(GrossTotal(NetAmount(k.subtotal, s.credit), s.discount, p.tax))
  {
  }

  /** A kept invoice is not canceled and has a non-zero subtotal, which the stage carries. */
  lemma KeptFacts(host: Host, invoice: Value)
    requires SkipChecks(host, invoice).Ok? && SkipChecks(host, invoice).value.Some?
    ensures Get(invoice, "status").Ok? && Get(invoice, "status").value != Str("canceled")
    ensures Get(invoice, "subtotal_amount").Ok? && ToFloat(host, Get(invoice, "subtotal_amount").value).Ok?
    ensures SkipChecks(host, invoice).value.value.subtotal == ToFloat(host, Get(invoice, "subtotal_amount").value).value
  {
  }

  /** An emitted invoice has a non-zero subtotal. */
  lemma EmittedSubtotalNonZero(host: Host, invoice: Value, subscriptionsById: map<Value, Value>, plans: map<Value, string>)
    requires InvoiceStep(host, invoice, subscriptionsById, plans).Ok?
    requires InvoiceStep(host, invoice, subscriptionsById, plans).value.Some?
    ensures Get(invoice, "status").Ok? && Get(invoice, "status").value != Str("canceled")
    ensures Get(invoice, "subtotal_amount").Ok? && ToFloat(host, Get(invoice, "subtotal_amount").value).Ok?
    ensures ToFloat(host, Get(invoice, "subtotal_amount").value).value != 0.0
  {
    EmittedInvoice(host, invoice, subscriptionsById, plans);
  }

  /**
   * The line item of an emitted row: unit amount and amount are the subtotal
   * minus the credit, and the quantity is 1.
   */
  lemma InvoiceAmount(host: Host, invoice: Value, subscriptionsById: map<Value, Value>, plans: map<Value, string>)
    requires InvoiceStep(host, invoice, subscriptionsById, plans).Ok?
    requires InvoiceStep(host, invoice, subscriptionsById, plans).value.Some?
    ensures Get(invoice, "subtotal_amount").Ok? && ToFloat(host, Get(invoice, "subtotal_amount").value).Ok?
    ensures Get(invoice, "credit_amount").Ok? && ToFloat(host, Get(invoice, "credit_amount").value).Ok?
    ensures var row := InvoiceStep(host, invoice, subscriptionsById, plans).value.value;
      var amount := NetAmount(ToFloat(host, Get(invoice, "subtotal_amount").value).value, ToFloat(host, Get(invoice, "credit_amount").value).value);
      row[49] == Float(amount) && row[50] == Int(1) && row[51] == Float(amount)
  {
    EmittedInvoice(host, invoice, subscriptionsById, plans);
    var ctx := InvoiceContext(invoice, subscriptionsById, plans).value.value;
    var p := ReadPreamble(host, invoice).value;
    var k := SkipChecks(host, invoice).value.value;
    var s := ReadSums(host, invoice).value;
    RowAmount(host, invoice, ctx, p, k, s);
    KeptFacts(host, invoice);
    var row := InvoiceStep(host, invoice, subscriptionsById, plans).value.value;
    assert row == InvoiceRow(host, invoice, ctx, p, k, s).value;
    assert s.credit == ToFloat(host, Get(invoice, "credit_amount").value).value;
    assert row[49] == Float(NetAmount(k.subtotal, s.credit)) && row[51] == Float(NetAmount(k.subtotal, s.credit));
  }

  /** The invoice total of an emitted row: subtotal - credit - discount + tax. */
  lemma InvoiceTotal(host: Host, invoice: Value, subscriptionsById: map<Value, Value>, plans: map<Value, string>)
    requires InvoiceStep(host, invoice, subscriptionsById, plans).Ok?
    requires InvoiceStep(host, invoice, subscriptionsById, plans).value.Some?
    ensures Get(invoice, "subtotal_amount").Ok? && ToFloat(host, Get(invoice, "subtotal_amount").value).Ok?
    ensures Get(invoice, "credit_amount").Ok? && ToFloat(host, Get(invoice, "credit_amount").value).Ok?
    ensures Get(invoice, "discount_amount").Ok? && ToFloat(host, Get(invoice, "discount_amount").value).Ok?
    ensures Get(invoice, "tax_amount").Ok? && ToFloat(host, Get(invoice, "tax_amount").value).Ok?
    ensures InvoiceStep(host, invoice, subscriptionsById, plans).value.value[10] == Float(GrossTotal(
      NetAmount(ToFloat(host, Get(invoice, "subtotal_amount").value).value, ToFloat(host, Get(invoice, "credit_amount").value).value),
      ToFloat(host, Get(invoice, "discount_amount").value).value, ToFloat(host, Get(invoice, "tax_amount").value).value))
  {
    EmittedInvoice(host, invoice, subscriptionsById, plans);
    var ctx := InvoiceContext(invoice, subscriptionsById, plans).value.value;
    var p := ReadPreamble(host, invoice).value;
    var k := SkipChecks(host, invoice).value.value;
    var s := ReadSums(host, invoice).value;
    RowTotal(host, invoice, ctx, p, k, s);
    KeptFacts(host, invoice);
    var row := InvoiceStep(host, invoice, subscriptionsById, plans).value.value;
    assert row == InvoiceRow(host, invoice, ctx, p, k, s).value;
    assert s.credit == ToFloat(host, Get(invoice, "credit_amount").value).value;
    assert s.discount == ToFloat(host, Get(invoice, "discount_amount").value).value;
    assert p.tax == ToFloat(host, Get(invoice, "tax_amount").value).value;
    assert row[10] == Float(GrossTotal(NetAmount(k.subtotal, s.credit), s.discount, p.tax));
  }

  /**
   * The tax columns (line item tax 1 and the taxes block) carry "VAT", the 20 %
   * rate and the raw tax amount exactly when float(tax_amount) is not zero.
   */
  lemma InvoiceTaxColumns(host: Host, invoice: Value, subscriptionsById: map<Value, Value>, plans: map<Value, string>)
    requires InvoiceStep(host, invoice, subscriptionsById, plans).Ok?
    requires InvoiceStep(host, invoice, subscriptionsById, plans).value.Some?
    ensures Get(invoice, "tax_amount").Ok? && ToFloat(host, Get(invoice, "tax_amount").value).Ok?
    ensures var row := InvoiceStep(host, invoice, subscriptionsById, plans).value.value;
      var raw := Get(invoice, "tax_amount").value;
      var taxed := ToFloat(host, raw).value != 0.0;
      && row[56] == row[73] == (if taxed then Str("VAT") else Null)
      && row[57] == row[75] == (if taxed then raw else Null)
      && row[74] == (if taxed then Str("20") else Null)
  {
    EmittedInvoice(host, invoice, subscriptionsById, plans);
    var ctx := InvoiceContext(invoice, subscriptionsById, plans).value.value;
    var p := ReadPreamble(host, invoice).value;
    var k := SkipChecks(host, invoice).value.value;
    var s := ReadSums(host, invoice).value;
    AssembledTaxes(RowCells(host, invoice, ctx, p, k, s).value);
  }

  /**
   * The discount columns: the subscription's coupon_code and the raw discount
   * amount when float(discount_amount) is not zero, and the entity type
   * "document_level_coupon" when in addition the coupon code is truthy.
   */
  lemma InvoiceDiscountColumns(host: Host, invoice: Value, subscriptionsById: map<Value, Value>, plans: map<Value, string>)
    requires InvoiceStep(host, invoice, subscriptionsById, plans).Ok?
    requires InvoiceStep(host, invoice, subscriptionsById, plans).value.Some?
    ensures Get(invoice, "subscription_id").Ok? && Hashable(Get(invoice, "subscription_id").value)
    ensures Get(invoice, "subscription_id").value in subscriptionsById
    ensures Get(subscriptionsById[Get(invoice, "subscription_id").value], "coupon_code").Ok?
    ensures Get(invoice, "discount_amount").Ok? && ToFloat(host, Get(invoice, "discount_amount").value).Ok?
    ensures var row := InvoiceStep(host, invoice, subscriptionsById, plans).value.value;
      var coupon := Get(subscriptionsById[Get(invoice, "subscription_id").value], "coupon_code").value;
      var raw := Get(invoice, "discount_amount").value;
      var discounted := ToFloat(host, raw).value != 0.0;
      && row[69] == (if Truthy(coupon) && discounted then Str("document_level_coupon") else Null)
      && row[70] == (if discounted then coupon else Null)
      && row[72] == (if discounted then raw else Null)
  {
    EmittedInvoice(host, invoice, subscriptionsById, plans);
    var ctx := InvoiceContext(invoice, subscriptionsById, plans).value.value;
    var p := ReadPreamble(host, invoice).value;
    var k := SkipChecks(host, invoice).value.value;
    var s := ReadSums(host, invoice).value;
    AssembledDiscount(RowCells(host, invoice, ctx, p, k, s).value);
  }

  /**
   * The line item is the subscription's plan, dated from the parsed issue date
   * to one month later, and the row names the invoice's subscription and status.
   */
  lemma InvoicePlanAndPeriod(host: Host, invoice: Value, subscriptionsById: map<Value, Value>, plans: map<Value, string>)
    requires InvoiceStep(host, invoice, subscriptionsById, plans).Ok?
    requires InvoiceStep(host, invoice, subscriptionsById, plans).value.Some?
    ensures Get(invoice, "subscription_id").Ok? && Hashable(Get(invoice, "subscription_id").value)
    ensures Get(invoice, "subscription_id").value in subscriptionsById
    ensures PlanOf(subscriptionsById[Get(invoice, "subscription_id").value], plans).Ok?
    ensures Get(invoice, "status").Ok? && Get(invoice, "status").value != Str("canceled")
    ensures Get(invoice, "issue_date").Ok? && ParseDate(host, Get(invoice, "issue_date").value).Ok?
    ensures var row := InvoiceStep(host, invoice, subscriptionsById, plans).value.value;
      var id := Get(invoice, "subscription_id").value;
      var from := ParseDate(host, Get(invoice, "issue_date").value).value;
      && row[3] == id && row[4] == Get(invoice, "status").value
      && row[44] == Str("plan") && row[45] == Str(PlanOf(subscriptionsById[id], plans).value)
      && row[46] == DateTime(from) && row[47] == DateTime(host.addMonth(from))
  {
    EmittedInvoice(host, invoice, subscriptionsById, plans);
  }

  // ---------------------------------------------------------------------
  // Skips and aborts
  // ---------------------------------------------------------------------

  /**
   * An invoice is skipped exactly when its subscription has no plan, its status
   * is "canceled" or its subtotal is zero.
   */
  lemma InvoiceSkippedIff(host: Host, invoice: Value, subscriptionsById: map<Value, Value>, plans: map<Value, string>)
    requires InvoiceStep(host, invoice, subscriptionsById, plans).Ok?
    ensures InvoiceContext(invoice, subscriptionsById, plans).Ok?
    ensures InvoiceContext(invoice, subscriptionsById, plans).value.Some? ==> SkipChecks(host, invoice).Ok?
    ensures InvoiceStep(host, invoice, subscriptionsById, plans).value.None? <==>
      || InvoiceContext(invoice, subscriptionsById, plans).value.None?
      || SkipChecks(host, invoice).value.None?
  {
    var cx := InvoiceContext(invoice, subscriptionsById, plans);
    if cx.Ok? && cx.value.Some? {
      assert ReadPreamble(host, invoice).Ok?;
      var kept := SkipChecks(host, invoice);
      assert kept.Ok?;
      if kept.value.Some? {
        assert ReadSums(host, invoice).Ok?;
      }
    }
  }

  /** A subscription whose id has no plan makes its invoices skipped, not an error. */
  lemma PlanlessSubscriptionSkipped(host: Host, invoice: Value, subscriptionsById: map<Value, Value>, plans: map<Value, string>)
    requires Get(invoice, "customer").Ok? && Get(invoice, "subscription_id").Ok?
    requires LookupKey(subscriptionsById, Get(invoice, "subscription_id").value).Ok?
    requires var subscription := subscriptionsById[Get(invoice, "subscription_id").value];
      Get(subscription, "id").Ok? && Hashable(Get(subscription, "id").value) && Get(subscription, "id").value !in plans
    ensures InvoiceStep(host, invoice, subscriptionsById, plans) == Ok(None)
  {
  }

  /** An invoice whose subscription is not in the listing aborts the export with a KeyError. */
  lemma UnknownSubscriptionAborts(host: Host, invoice: Value, subscriptionsById: map<Value, Value>, plans: map<Value, string>)
    requires Get(invoice, "customer").Ok? && Get(invoice, "subscription_id").Ok?
    requires Hashable(Get(invoice, "subscription_id").value) && Get(invoice, "subscription_id").value !in subscriptionsById
    ensures InvoiceStep(host, invoice, subscriptionsById, plans) == Err(KeyError(Get(invoice, "subscription_id").value))
  {
  }

  /** A canceled invoice with a plan is skipped once its issue date and tax have been read. */
  lemma CanceledSkipped(host: Host, invoice: Value, subscriptionsById: map<Value, Value>, plans: map<Value, string>)
    requires InvoiceContext(invoice, subscriptionsById, plans).Ok? && InvoiceContext(invoice, subscriptionsById, plans).value.Some?
    requires ReadPreamble(host, invoice).Ok?
    requires Get(invoice, "status") == Ok(Str("canceled"))
    ensures InvoiceStep(host, invoice, subscriptionsById, plans) == Ok(None)
  {
  }

  /**
   * The billing address, the issue date and the tax amount are read before the
   * skip checks: a failure there aborts the export even for a canceled invoice
   * or one with a zero subtotal.
   */
  lemma PreambleBeforeSkips(host: Host, invoice: Value, subscriptionsById: map<Value, Value>, plans: map<Value, string>)
    requires InvoiceContext(invoice, subscriptionsById, plans).Ok? && InvoiceContext(invoice, subscriptionsById, plans).value.Some?
    requires ReadPreamble(host, invoice).Err?
    ensures InvoiceStep(host, invoice, subscriptionsById, plans) == Err(ReadPreamble(host, invoice).error)
  {
  }

  /** For instance, an issue date the parser rejects aborts a canceled invoice. */
  lemma UnparseableIssueDateAborts(host: Host, invoice: Value, subscriptionsById: map<Value, Value>, plans: map<Value, string>)
    requires InvoiceContext(invoice, subscriptionsById, plans).Ok? && InvoiceContext(invoice, subscriptionsById, plans).value.Some?
    requires Get(invoice, "billing_address").Ok? && Get(invoice, "issue_date") == Ok(Str("soon"))
    requires host.parseDate("soon").None?
    requires Get(invoice, "status") == Ok(Str("canceled"))
    ensures InvoiceStep(host, invoice, subscriptionsById, plans) == Err(ValueError("soon"))
  {
    PreambleBeforeSkips(host, invoice, subscriptionsById, plans);
  }

  /** The header has 95 columns. */
  lemma InvoiceColumnCount()
    ensures |InvoiceColumns| == 95
    ensures InvoiceColumns[56] == "line_items[tax1_name][0]" && InvoiceColumns[74] == "taxes[rate][0]"
  {
  }
}
