/**
 * The customers table of the export: one row per Chargify subscription, joined
 * to the Stripe customer its card's vault token names.
 */
module CustomerRows {
  import opened Results
  import opened PyValue

  type Row = seq<Value>

  /** The header (the empty literal after billing_address[email] joins the next one). */
  const CustomerColumns: seq<string> := [
    "customer[id]", "customer[first_name]", "customer[last_name]", "customer[phone]",
    "customer[company]", "customer[email]", "payment_method[type]",
    "payment_method[gateway_account_id]", "payment_method[reference_id]",
    "customer[auto_collection]", "customer[taxability]", "customer[vat_number]",
    "customer[preferred_currency_code]", "customer[net_term_days]",
    "customer[allow_direct_debit]", "customer[locale]", "customer[meta_data]",
    "customer[consolidated_invoicing]", "customer[invoice_notes]",
    "billing_address[first_name]", "billing_address[last_name]", "billing_address[email]",
    "" + "billing_address[company]", "billing_address[phone]", "billing_address[line1]",
    "billing_address[line2]", "billing_address[line3]", "billing_address[city]",
    "billing_address[state_code]", "billing_address[state]", "billing_address[zip]",
    "billing_address[country]", "billing_address[validation_status]",
    "customer[registered_for_gst]", "customer[entity_code]", "customer[exempt_number]"]

  /** The card used when a subscription has no credit_card: every field None. */
  function PlaceholderCard(): (c: Value)
    ensures c.Dict? && |c.fields| == 9
    ensures forall j :: 0 <= j < |c.fields| ==> c.fields[j].value == Null
  {
    Dict([Entry("first_name", Null), Entry("last_name", Null), Entry("billing_address", Null),
          Entry("billing_address_2", Null), Entry("billing_city", Null), Entry("billing_state", Null),
          Entry("billing_zip", Null), Entry("billing_country", Null), Entry("vault_token", Null)])
  }

  /** Any key of a dict whose values are all None reads as None. */
  lemma {:induction false} AllNoneLookup(fields: seq<Entry>, i: int, k: string)
    requires forall j :: 0 <= j < |fields| ==> fields[j].value == Null
    requires 0 <= i < |fields| && fields[i].key == k
    ensures Lookup(fields, k) == Some(Null)
    decreases i
  {
    if fields[0].key != k {
      AllNoneLookup(fields[1..], i - 1, k);
    }
  }

  /** The placeholder's entry i reads as None. */
  lemma PlaceholderGet(i: int, k: string)
    requires 0 <= i < |PlaceholderCard().fields| && PlaceholderCard().fields[i].key == k
    ensures Get(PlaceholderCard(), k) == Ok(Null)
  {
    AllNoneLookup(PlaceholderCard().fields, i, k);
  }

  /** Every field the row reads from the placeholder is None. */
  lemma PlaceholderReads()
    ensures Get(PlaceholderCard(), "vault_token") == Ok(Null)
    ensures Get(PlaceholderCard(), "billing_country") == Ok(Null)
    ensures CardFields(PlaceholderCard()) == Ok([Null, Null, Null, Null, Null, Null, Null])
  {
    PlaceholderGet(8, "vault_token");
    PlaceholderGet(7, "billing_country");
    PlaceholderGet(0, "first_name");
    PlaceholderGet(1, "last_name");
    PlaceholderGet(2, "billing_address");
    PlaceholderGet(3, "billing_address_2");
    PlaceholderGet(4, "billing_city");
    PlaceholderGet(5, "billing_state");
    PlaceholderGet(6, "billing_zip");
  }

  /** subscription['credit_card'], with only a KeyError replaced by the placeholder. */
  function CreditCardOf(subscription: Value): (r: Result<Value, Failure>)
    ensures subscription.Dict? ==> r.Ok?
    ensures r.Ok? && Get(subscription, "credit_card").Ok? ==> r.value == Get(subscription, "credit_card").value
    ensures r.Ok? && Get(subscription, "credit_card").Err? ==> r.value == PlaceholderCard()
  {
    match Get(subscription, "credit_card")
    case Ok(card) => Ok(card)
    case Err(e) => if e.KeyError? then Ok(PlaceholderCard()) else Err(e)
  }

  /** The card's vault_token: the Stripe customer id, or a falsy value. */
  function VaultToken(subscription: Value): Result<Value, Failure> {
    var card :- CreditCardOf(subscription);
    Get(card, "vault_token")
  }

  /** The card's billing_country. */
  function BillingCountry(subscription: Value): Result<Value, Failure> {
    var card :- CreditCardOf(subscription);
    Get(card, "billing_country")
  }

  /**
   * card_token: "{vault_token}/{default_source}" when the vault token is truthy,
   * None otherwise. A truthy token must name a customer of the Stripe lookup.
   */
  function CardToken(host: Host, card: Value, customersById: map<Value, Value>): (r: Result<Value, Failure>)
    ensures r.Ok? ==> Get(card, "vault_token").Ok?
    ensures r.Ok? && !Truthy(Get(card, "vault_token").value) ==> r.value == Null
    ensures r.Ok? && Truthy(Get(card, "vault_token").value) ==>
      var id := Get(card, "vault_token").value;
      && LookupKey(customersById, id).Ok?
      && Get(customersById[id], "default_source").Ok?
      && r.value == Str(PyStr(host, id) + "/" + PyStr(host, Get(customersById[id], "default_source").value))
    ensures Get(card, "vault_token").Ok? && Truthy(Get(card, "vault_token").value) ==>
      var id := Get(card, "vault_token").value;
      Hashable(id) && id !in customersById ==> r == Err(KeyError(id))
  {
    var id :- Get(card, "vault_token");
    if !Truthy(id) then Ok(Null)
    else
      var customer :- LookupKey(customersById, id);
      var source :- Get(customer, "default_source");
      Ok(Str(PyStr(host, id) + "/" + PyStr(host, source)))
  }

  /** customer['reference'], ['first_name'], ['last_name'], ['phone'], ['organization'], ['email']. */
  function ContactFields(customer: Value): (r: Result<seq<Value>, Failure>)
    ensures r.Ok? ==> |r.value| == 6 && Get(customer, "email") == Ok(r.value[5])
  {
    var reference :- Get(customer, "reference");
    var firstName :- Get(customer, "first_name");
    var lastName :- Get(customer, "last_name");
    var phone :- Get(customer, "phone");
    var company :- Get(customer, "organization");
    var email :- Get(customer, "email");
    Ok([reference, firstName, lastName, phone, company, email])
  }

  /** The card's name and address fields, in the order the row reads them. */
  function CardFields(card: Value): (r: Result<seq<Value>, Failure>)
    ensures r.Ok? ==> |r.value| == 7
  {
    var firstName :- Get(card, "first_name");
    var lastName :- Get(card, "last_name");
    var line1 :- Get(card, "billing_address");
    var line2 :- Get(card, "billing_address_2");
    var city :- Get(card, "billing_city");
    var state :- Get(card, "billing_state");
    var zip :- Get(card, "billing_zip");
    Ok([firstName, lastName, line1, line2, city, state, zip])
  }

  /** The row laid out in header order from the values already read. */
  function AssembleCustomerRow(contact: seq<Value>, cardToken: Value, country: Value, vat: Value,
                               currency: Value, card: seq<Value>, verified: Value): (row: Row)
    requires |contact| == 6 && |card| == 7
    ensures |row| == |CustomerColumns|
  {
    var paid := Truthy(cardToken);
    [contact[0], contact[1], contact[2], contact[3], contact[4], contact[5],
     if paid then Str("card") else Null, if paid then Str("stripe") else Null,
     cardToken, Str(if paid then "on" else "off"),
     Str(if country == Str("GB") then "taxable" else "exempt"), vat, currency,
     Null, Null, Null, Null, Null, Null,
     card[0], card[1], contact[5], Null, Null, card[2], card[3], Null, card[4], Null,
     card[5], card[6], country, Str(if Truthy(verified) then "yes" else "no"),
     Null, Null, Null]
  }

  /** Columns 6-9: payment method type, gateway, reference and auto collection. */
  lemma AssembledPayment(contact: seq<Value>, cardToken: Value, country: Value, vat: Value,
                         currency: Value, card: seq<Value>, verified: Value)
    requires |contact| == 6 && |card| == 7
    ensures var row := AssembleCustomerRow(contact, cardToken, country, vat, currency, card, verified);
      && row[8] == cardToken
      && if Truthy(cardToken) then row[6] == Str("card") && row[7] == Str("stripe") && row[9] == Str("on")
         else row[6] == Null && row[7] == Null && row[9] == Str("off")
  {
  }

  /** Columns 10-11: taxability and VAT number. */
  lemma AssembledTax(contact: seq<Value>, cardToken: Value, country: Value, vat: Value,
                     currency: Value, card: seq<Value>, verified: Value)
    requires |contact| == 6 && |card| == 7
    ensures var row := AssembleCustomerRow(contact, cardToken, country, vat, currency, card, verified);
      && row[10] == Str(if country == Str("GB") then "taxable" else "exempt")
      && row[11] == vat
  {
  }

  /** The billing-address columns come from the card, or are None. */
  lemma AssembledBilling(contact: seq<Value>, cardToken: Value, country: Value, vat: Value,
                         currency: Value, card: seq<Value>, verified: Value)
    requires |contact| == 6 && |card| == 7
    ensures var row := AssembleCustomerRow(contact, cardToken, country, vat, currency, card, verified);
      && row[19] == card[0] && row[20] == card[1] && row[21] == contact[5]
      && row[24] == card[2] && row[25] == card[3] && row[27] == card[4]
      && row[29] == card[5] && row[30] == card[6] && row[31] == country
  {
  }

  /** What the row is built around: the customer, the card, the card token and the billing country. */
  datatype Joined = Joined(customer: Value, card: Value, cardToken: Value, country: Value)

  /** The reads that precede the row: the customer, the card, the Stripe join and the taxability input. */
  function Join(host: Host, subscription: Value, customersById: map<Value, Value>): (r: Result<Joined, Failure>)
    ensures r.Ok? ==> Get(subscription, "customer") == Ok(r.value.customer)
    ensures r.Ok? ==> CreditCardOf(subscription) == Ok(r.value.card)
    ensures r.Ok? ==> CardToken(host, r.value.card, customersById) == Ok(r.value.cardToken)
    ensures r.Ok? ==> Get(r.value.card, "billing_country") == Ok(r.value.country)
  {
    var customer :- Get(subscription, "customer");
    var card :- CreditCardOf(subscription);
    var cardToken :- CardToken(host, card, customersById);
    var country :- Get(card, "billing_country");
    Ok(Joined(customer, card, cardToken, country))
  }

  /** customer['vat_number'] if taxable else None. */
  function VatNumber(customer: Value, country: Value): (r: Result<Value, Failure>)
    ensures country == Str("GB") ==> r == Get(customer, "vat_number")
    ensures country != Str("GB") ==> r == Ok(Null)
  {
    if country == Str("GB") then Get(customer, "vat_number") else Ok(Null)
  }

  /** One customers row; every failure aborts the export. */
  function CustomerRow(host: Host, subscription: Value, customersById: map<Value, Value>): (r: Result<Row, Failure>)
    ensures r.Ok? ==> |r.value| == |CustomerColumns|
  {
    var j :- Join(host, subscription, customersById);
    var contact :- ContactFields(j.customer);
    var vat :- VatNumber(j.customer, j.country);
    var currency :- Get(subscription, "currency");
    var cardFields :- CardFields(j.card);
    var verified :- Get(j.customer, "verified");
    Ok(AssembleCustomerRow(contact, j.cardToken, j.country, vat, currency, cardFields, verified))
  }

  /**
   * The card token is "{vault_token}/{default_source}" when the vault token is
   * truthy, and None otherwise.
   */
  lemma JoinedToken(host: Host, subscription: Value, customersById: map<Value, Value>)
    requires Join(host, subscription, customersById).Ok?
    ensures VaultToken(subscription).Ok?
    ensures var token := VaultToken(subscription).value;
      var cardToken := Join(host, subscription, customersById).value.cardToken;
      if Truthy(token) then
        && token in customersById
        && Get(customersById[token], "default_source").Ok?
        && cardToken == Str(PyStr(host, token) + "/" + PyStr(host, Get(customersById[token], "default_source").value))
      else cardToken == Null
  {
    var j := Join(host, subscription, customersById).value;
    assert VaultToken(subscription) == Get(j.card, "vault_token");
  }

  /**
   * Payment fields: with a card token (see JoinedToken) they are card / stripe /
   * the token / on; without one, None / None / None / off.
   */
  lemma CustomerRowPayment(host: Host, subscription: Value, customersById: map<Value, Value>)
    requires CustomerRow(host, subscription, customersById).Ok?
    ensures Join(host, subscription, customersById).Ok?
    ensures var row := CustomerRow(host, subscription, customersById).value;
      var cardToken := Join(host, subscription, customersById).value.cardToken;
      && row[8] == cardToken
      && if Truthy(cardToken) then row[6] == Str("card") && row[7] == Str("stripe") && row[9] == Str("on")
         else row[6] == Null && row[7] == Null && row[9] == Str("off")
  {
    var j := Join(host, subscription, customersById).value;
    AssembledPayment(ContactFields(j.customer).value, j.cardToken, j.country,
                           VatNumber(j.customer, j.country).value, Get(subscription, "currency").value,
                           CardFields(j.card).value, Get(j.customer, "verified").value);
  }

  /** Taxability is "taxable" exactly for GB billing, and only then is vat_number emitted. */
  lemma CustomerRowTax(host: Host, subscription: Value, customersById: map<Value, Value>)
    requires CustomerRow(host, subscription, customersById).Ok?
    ensures BillingCountry(subscription).Ok? && Get(subscription, "customer").Ok?
    ensures var row := CustomerRow(host, subscription, customersById).value;
      if BillingCountry(subscription).value == Str("GB") then
        row[10] == Str("taxable") && Get(Get(subscription, "customer").value, "vat_number") == Ok(row[11])
      else
        row[10] == Str("exempt") && row[11] == Null
  {
    var j := Join(host, subscription, customersById).value;
    AssembledTax(ContactFields(j.customer).value, j.cardToken, j.country,
                           VatNumber(j.customer, j.country).value, Get(subscription, "currency").value,
                           CardFields(j.card).value, Get(j.customer, "verified").value);
  }

  /** A truthy vault token that Stripe does not know aborts the export instead of skipping the row. */
  lemma UnknownTokenAborts(host: Host, subscription: Value, customersById: map<Value, Value>)
    requires Get(subscription, "customer").Ok?
    requires VaultToken(subscription).Ok?
    requires Truthy(VaultToken(subscription).value) && Hashable(VaultToken(subscription).value)
    requires VaultToken(subscription).value !in customersById
    ensures CustomerRow(host, subscription, customersById) == Err(KeyError(VaultToken(subscription).value))
  {
  }

  /** A subscription without a credit card gets no payment method and None for every card field. */
  lemma MissingCardRow(host: Host, subscription: Value, customersById: map<Value, Value>)
    requires Get(subscription, "credit_card").Err?
    requires CustomerRow(host, subscription, customersById).Ok?
    ensures var row := CustomerRow(host, subscription, customersById).value;
      && row[6] == Null && row[7] == Null && row[8] == Null && row[9] == Str("off")
      && row[10] == Str("exempt") && row[11] == Null
      && row[19] == Null && row[20] == Null && row[24] == Null && row[25] == Null
      && row[27] == Null && row[29] == Null && row[30] == Null && row[31] == Null
  {
    var j := Join(host, subscription, customersById).value;
    assert j.card == PlaceholderCard();
    PlaceholderReads();
    var cardToken := j.cardToken;
    var cardFields := CardFields(j.card).value;
    var contact := ContactFields(j.customer).value;
    var currency := Get(subscription, "currency").value;
    var verified := Get(j.customer, "verified").value;
    AssembledPayment(contact, cardToken, Null, Null, currency, cardFields, verified);
    AssembledTax(contact, cardToken, Null, Null, currency, cardFields, verified);
    AssembledBilling(contact, cardToken, Null, Null, currency, cardFields, verified);
  }

  /**
   * The header has 36 columns: the empty literal after billing_address[email]
   * is joined to "billing_address[company]", not a column of its own.
   */
  lemma CustomerColumnCount()
    ensures |CustomerColumns| == 36
    ensures CustomerColumns[21] == "billing_address[email]" && CustomerColumns[22] == "billing_address[company]"
  {
  }
}
