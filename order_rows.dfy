/** The parsed Shopify order payload and the two kinds of rows the webhook
    builds from it: one `orders` row and one `order_items` row per line
    item (shopify_webhook.js, lines 55-81). */
module OrderRows {
  import opened Wrappers
  import opened JsText

  /** A property of a parsed JSON object: absent (`undefined`), JSON
      `null`, or present with a value. `??` and `?.` treat the first two
      alike; a row field copied verbatim keeps the difference, since the
      serialised row leaves out an `undefined` field and writes a `null` one. */
  datatype Field<+T> = Missing | Null | Present(value: T)
  {
    /** `this ?? d` */
    function OrElse(d: T): T {
      if Present? then value else d
    }
  }

  /** One `{name, value}` entry of `note_attributes` or of an item's
      `properties`. */
  datatype Attribute = Attribute(name: Field<string>, value: Field<string>)

  datatype Customer = Customer(firstName: Field<string>, lastName: Field<string>)

  datatype Address = Address(name: Field<string>, phone: Field<string>, countryCode: Field<string>)

  datatype LineItem = LineItem(title: Field<string>, quantity: Field<int>,
                               properties: Field<seq<Attribute>>)

  /** The fields of the webhook body that the handler reads. */
  datatype Order = Order(
    id: Field<int>,
    name: Field<string>,
    createdAt: Field<string>,
    customer: Field<Customer>,
    shippingAddress: Field<Address>,
    fulfillmentStatus: Field<string>,
    financialStatus: Field<string>,
    cancelledAt: Field<string>,
    noteAttributes: Field<seq<Attribute>>,
    lineItems: Field<seq<LineItem>>)

  /** The `orders` row. */
  datatype OrderRow = OrderRow(
    orderId: string,
    orderNumber: Field<string>,
    createdAt: Field<string>,
    customer: string,
    shippingName: string,
    shippingPhone: string,
    shippingCountry: string,
    fulfillmentStatus: Field<string>,
    financialStatus: Field<string>,
    cancelledAt: Field<string>)

  /** The `order_items` row. */
  datatype ItemRow = ItemRow(
    orderId: string,
    title: Field<string>,
    simType: string,
    simNumber: string,
    quantity: Field<int>,
    activationPlan: string)

  /** The note attribute that carries the SIM type. */
  const SimTypeLabel: string := "Physical SIM / eSIM"

  /** The item property that carries the activation plan. */
  const ActivationPlanLabel: string := "Activation Plan"

  // ---------------------------------------------------------------------
  // Reading the payload
  // ---------------------------------------------------------------------

  /** `order.id.toString()`; `None` where reading `toString` of an absent or
      `null` id throws a TypeError. */
  function OrderId(o: Order): (r: Option<string>)
    ensures r.Some? <==> o.id.Present?
    ensures r.Some? ==> ParseInt(r.value) == Some(o.id.value)
  {
    match o.id
    case Present(n) => IntRoundTrip(n); Some(IntToString(n))
    case _ => None
  }

  /** `xs || []` for an array-valued property. */
  function Entries<T>(xs: Field<seq<T>>): seq<T> {
    if xs.Present? then xs.value else []
  }

  function LineItems(o: Order): seq<LineItem> {
    Entries(o.lineItems)
  }

  /** Index of the entry `find(n => n.name === key)` returns: the first
      whose name is exactly `key`, or `None` when no entry has it. */
  function FirstNamed(attrs: seq<Attribute>, key: string): (r: Option<nat>)
    ensures r.Some? ==> r.value < |attrs| && attrs[r.value].name == Present(key)
  {
    if attrs == [] then None
    else if attrs[0].name == Present(key) then Some(0)
    else
      match FirstNamed(attrs[1..], key)
      case Some(k) => Some(k + 1)
      case None => None
  }

  /** No entry before the one `FirstNamed` picks carries the name, and
      when it picks none, no entry at all does. */
  lemma {:induction false} FirstNamedIsFirst(attrs: seq<Attribute>, key: string)
    ensures FirstNamed(attrs, key).Some? ==>
              forall k :: 0 <= k < FirstNamed(attrs, key).value ==> attrs[k].name != Present(key)
    ensures FirstNamed(attrs, key).None? ==>
              forall k :: 0 <= k < |attrs| ==> attrs[k].name != Present(key)
  {
    if attrs != [] && attrs[0].name != Present(key) {
      FirstNamedIsFirst(attrs[1..], key);
      assert forall k :: 1 <= k < |attrs| ==> attrs[k] == attrs[1..][k - 1];
    }
  }

  /** `find(n => n.name === key)?.value ?? ""`: "" when no entry carries
      the name, and a non-empty result is the value of an entry that does. */
  function NamedValue(attrs: seq<Attribute>, key: string): (r: string)
    ensures (forall k :: 0 <= k < |attrs| ==> attrs[k].name != Present(key)) ==> r == ""
    ensures r != "" ==> exists k :: 0 <= k < |attrs| && attrs[k].name == Present(key)
                                    && attrs[k].value == Present(r)
  {
    FirstNamedIsFirst(attrs, key);
    match FirstNamed(attrs, key)
    case Some(k) => attrs[k].value.OrElse("")
    case None => ""
  }

  /** `order.customer?.first_name ?? ""` */
  function FirstName(o: Order): string {
    if o.customer.Present? then o.customer.value.firstName.OrElse("") else ""
  }

  /** `order.customer?.last_name ?? ""` */
  function LastName(o: Order): string {
    if o.customer.Present? then o.customer.value.lastName.OrElse("") else ""
  }

  /** The `customer` column: first and last name joined by one space, then
      trimmed. */
  function CustomerName(o: Order): (r: string)
    ensures IsTrimmed(r)
    ensures |r| <= |FirstName(o)| + 1 + |LastName(o)|
  {
    Trim(FirstName(o) + " " + LastName(o))
  }

  /** `order.shipping_address?.name ?? ""` */
  function ShippingName(o: Order): string {
    if o.shippingAddress.Present? then o.shippingAddress.value.name.OrElse("") else ""
  }

  /** `order.shipping_address?.phone ?? ""` */
  function ShippingPhone(o: Order): string {
    if o.shippingAddress.Present? then o.shippingAddress.value.phone.OrElse("") else ""
  }

  /** `order.shipping_address?.country_code ?? ""` */
  function ShippingCountry(o: Order): string {
    if o.shippingAddress.Present? then o.shippingAddress.value.countryCode.OrElse("") else ""
  }

  // ---------------------------------------------------------------------
  // Building the rows
  // ---------------------------------------------------------------------

  /** The `orders` row for order `o` under key `orderId`: the key, name,
      creation time and the three status fields are copied as they are (no
      defaulting), the shipping fields default to "" when the address or the
      field is absent or null, and the customer is the trimmed name. */
  function MakeOrderRow(o: Order, orderId: string): (row: OrderRow)
    ensures row.orderId == orderId
    ensures row.orderNumber == o.name && row.createdAt == o.createdAt
    ensures row.fulfillmentStatus == o.fulfillmentStatus
    ensures row.financialStatus == o.financialStatus
    ensures row.cancelledAt == o.cancelledAt
    ensures row.customer == CustomerName(o) && IsTrimmed(row.customer)
    ensures row.shippingName == (if o.shippingAddress.Present? && o.shippingAddress.value.name.Present?
                                 then o.shippingAddress.value.name.value else "")
    ensures row.shippingPhone == (if o.shippingAddress.Present? && o.shippingAddress.value.phone.Present?
                                  then o.shippingAddress.value.phone.value else "")
    ensures row.shippingCountry == (if o.shippingAddress.Present? && o.shippingAddress.value.countryCode.Present?
                                    then o.shippingAddress.value.countryCode.value else "")
  {
    OrderRow(
      orderId := orderId,
      orderNumber := o.name,
      createdAt := o.createdAt,
      customer := CustomerName(o),
      shippingName := ShippingName(o),
      shippingPhone := ShippingPhone(o),
      shippingCountry := ShippingCountry(o),
      fulfillmentStatus := o.fulfillmentStatus,
      financialStatus := o.financialStatus,
      cancelledAt := o.cancelledAt)
  }

  /** The `order_items` row for one line item of order `o`: the parent's
      key, the item's title and quantity copied as they are, the SIM type
      looked up in the order's note attributes, the activation plan looked
      up in the item's own properties, and an empty SIM number. */
  function MakeItemRow(o: Order, orderId: string, item: LineItem): (row: ItemRow)
    ensures row.orderId == orderId && row.simNumber == ""
    ensures row.title == item.title && row.quantity == item.quantity
    ensures row.simType == NamedValue(Entries(o.noteAttributes), SimTypeLabel)
    ensures row.activationPlan == NamedValue(Entries(item.properties), ActivationPlanLabel)
  {
    ItemRow(
      orderId := orderId,
      title := item.title,
      simType := NamedValue(Entries(o.noteAttributes), SimTypeLabel),
      simNumber := "",
      quantity := item.quantity,
      activationPlan := NamedValue(Entries(item.properties), ActivationPlanLabel))
  }

  /** `(order.line_items || []).map(...)`: one row per line item in item
      order, none when `line_items` is absent or null. Every row carries the
      parent's key, the one order-level SIM type, an empty SIM number, and
      the title, quantity and activation plan of its own item. */
  function MakeItemRows(o: Order, orderId: string): (rows: seq<ItemRow>)
    ensures |rows| == (if o.lineItems.Present? then |o.lineItems.value| else 0)
    ensures forall i :: 0 <= i < |rows| ==>
      rows[i].orderId == orderId
      && rows[i].simType == NamedValue(Entries(o.noteAttributes), SimTypeLabel)
      && rows[i].simNumber == ""
      && rows[i].title == LineItems(o)[i].title
      && rows[i].quantity == LineItems(o)[i].quantity
      && rows[i].activationPlan == NamedValue(Entries(LineItems(o)[i].properties), ActivationPlanLabel)
  {
    seq(|LineItems(o)|, i requires 0 <= i < |LineItems(o)| => MakeItemRow(o, orderId, LineItems(o)[i]))
  }

  // ---------------------------------------------------------------------
  // Properties of the rows
  // ---------------------------------------------------------------------

  /** Looking up a name in `a + b` finds the first entry of `a` with that
      name, and only when `a` has none does it look in `b`. */
  lemma {:induction false} FirstNamedAppend(a: seq<Attribute>, b: seq<Attribute>, key: string)
    ensures FirstNamed(a + b, key) ==
      match FirstNamed(a, key)
      case Some(k) => Some(k)
      case None =>
        match FirstNamed(b, key)
        case Some(k) => Some(|a| + k)
        case None => None
  {
    if a != [] {
      assert (a + b)[1..] == a[1..] + b;
      FirstNamedAppend(a[1..], b, key);
    } else {
      assert a + b == b;
    }
  }

  /** Entries before the first one with the key do not affect the value;
      entries after it are ignored. */
  lemma NamedValueAfterOthers(a: seq<Attribute>, v: Field<string>, b: seq<Attribute>, key: string)
    requires forall k :: 0 <= k < |a| ==> a[k].name != Present(key)
    ensures NamedValue(a + [Attribute(Present(key), v)] + b, key) == v.OrElse("")
  {
    var tail := [Attribute(Present(key), v)] + b;
    assert a + [Attribute(Present(key), v)] + b == a + tail;
    FirstNamedAppend(a, tail, key);
  }

  /** `NamedValue` is exactly "the value of some entry carrying the key,
      with no such entry before it", and "" when there is none. */
  lemma NamedValueFirstMatch(attrs: seq<Attribute>, key: string)
    ensures (forall k :: 0 <= k < |attrs| ==> attrs[k].name != Present(key))
            ==> NamedValue(attrs, key) == ""
    ensures forall i :: (0 <= i < |attrs| && attrs[i].name == Present(key)
                         && (forall k :: 0 <= k < i ==> attrs[k].name != Present(key)))
                        ==> NamedValue(attrs, key) == attrs[i].value.OrElse("")
  {
    FirstNamedIsFirst(attrs, key);
  }

  /** A note attribute `{name: "Physical SIM / eSIM", value: "eSIM"}` ahead
      of any other entry with that name makes every item's `sim_type`
      "eSIM"; without any entry of that name it is "". */
  lemma SimTypeFromNoteAttributes(o: Order, orderId: string, before: seq<Attribute>, after: seq<Attribute>)
    requires forall k :: 0 <= k < |before| ==> before[k].name != Present(SimTypeLabel)
    ensures o.noteAttributes == Present(before + [Attribute(Present(SimTypeLabel), Present("eSIM"))] + after)
            ==> forall i :: 0 <= i < |MakeItemRows(o, orderId)| ==> MakeItemRows(o, orderId)[i].simType == "eSIM"
    ensures (forall k :: 0 <= k < |Entries(o.noteAttributes)| ==>
               Entries(o.noteAttributes)[k].name != Present(SimTypeLabel))
            ==> forall i :: 0 <= i < |MakeItemRows(o, orderId)| ==> MakeItemRows(o, orderId)[i].simType == ""
  {
    if o.noteAttributes == Present(before + [Attribute(Present(SimTypeLabel), Present("eSIM"))] + after) {
      NamedValueAfterOthers(before, Present("eSIM"), after, SimTypeLabel);
    }
  }

  /** `customer` for names that carry no surrounding whitespace: the last
      name alone when the first is missing, the first alone when the last is
      missing, "" when both are, and both joined by one space otherwise. */
  lemma CustomerNameCases(o: Order)
    requires IsTrimmed(FirstName(o)) && IsTrimmed(LastName(o))
    ensures CustomerName(o) ==
      if FirstName(o) == "" then LastName(o)
      else if LastName(o) == "" then FirstName(o)
      else FirstName(o) + " " + LastName(o)
  {
    var f, l := FirstName(o), LastName(o);
    var s := f + " " + l;
    assert IsWhitespace(' ');
    if f == "" {
      assert s[..1] == " " && s[1..] == l && s[|s|..] == [];
      assert s[1..|s|] == l;
      TrimUnique(s, 1, |s|);
    } else if l == "" {
      assert s[..0] == [] && s[|f| + 1..] == [] && s[|f|..] == " ";
      assert s[0..|f|] == f;
      TrimUnique(s, 0, |f|);
    } else {
      assert s[0] == f[0] && s[|s| - 1] == l[|l| - 1];
      TrimOfTrimmed(s);
    }
  }

  /** With `customer.first_name` missing and `last_name` "Lee", the
      customer is "Lee", with no leading space. */
  lemma CustomerLastNameOnly(o: Order)
    requires o.customer.Present? && !o.customer.value.firstName.Present?
    requires o.customer.value.lastName == Present("Lee")
    ensures CustomerName(o) == "Lee"
  {
    assert !IsWhitespace('L') && !IsWhitespace('e');
    CustomerNameCases(o);
  }

  /** No customer, or a customer without either name, gives "". */
  lemma CustomerNameAbsent(o: Order)
    requires !o.customer.Present? || (!o.customer.value.firstName.Present? && !o.customer.value.lastName.Present?)
    ensures CustomerName(o) == ""
  {
  }
}
