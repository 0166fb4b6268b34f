/**
 The order e-mails: the customer's confirmation and the manager's
 notification. An e-mail is modelled by its rows (labels and values), not by
 its HTML markup. The Russian display labels are opaque: each is a `Label`
 constructor, so the model states which label a row carries without
 reproducing the text. The SMTP transport is reduced to whether it is
 configured and whether a particular send goes through.
 */
module Mailer {
  import opened Text
  import Money

  datatype Label =
    | KgLabel
    | PickupLabel | CourierLabel
    | CashLabel | CardLabel | InvoiceLabel | OnlineLabel | SbpLabel
    | FreeLabel

  /** A cell shows either a fixed label or text taken from the order. */
  datatype Shown = Labelled(which: Label) | Verbatim(text: string)

  /** The currency sign written after every amount. */
  const RubleSuffix: string := " ₽"

  /** `(kopecks / 100).toFixed(2).replace(".", ",") + " ₽"` */
  function FormatPrice(kopecks: int): (r: string)
    ensures |r| >= |RubleSuffix| && r[|r| - |RubleSuffix|..] == RubleSuffix
    ensures Money.ParseFixed2(r[..|r| - |RubleSuffix|], ',') == Some(kopecks)
  {
    var amount := Money.Fixed2(kopecks, ',');
    Money.Fixed2RoundTrip(kopecks, ',');
    var r := amount + RubleSuffix;
    assert r[..|r| - |RubleSuffix|] == amount;
    r
  }

  /** For a non-negative amount: roubles, a comma, exactly two kopeck digits, the sign. */
  lemma FormatPriceShape(kopecks: nat)
    ensures FormatPrice(kopecks) == NatToString(kopecks / 100) + "," + Money.TwoDigits(kopecks % 100) + RubleSuffix
  {
  }

  /** Distinct amounts are printed differently. */
  lemma FormatPriceInjective(a: int, b: int)
    ensures FormatPrice(a) == FormatPrice(b) ==> a == b
  {
    if FormatPrice(a) == FormatPrice(b) {
      var r := FormatPrice(a);
      assert r[..|r| - |RubleSuffix|] == FormatPrice(b)[..|FormatPrice(b)| - |RubleSuffix|];
    }
  }

  /** The unit label: kilograms for a missing, empty or `KGM` unit, otherwise the unit itself. */
  function GetUnitText(unit: Option<string>): (r: Shown)
    ensures r == Labelled(KgLabel) <==> !Truthy(unit) || unit.value == "KGM"
    ensures r.Verbatim? ==> Truthy(unit) && r.text == unit.value && unit.value != "KGM"
  {
    if !Truthy(unit) || unit.value == "KGM" then Labelled(KgLabel) else Verbatim(unit.value)
  }

  /** The delivery label: pickup exactly for `pickup`, the courier label for anything else. */
  function GetDeliveryMethodText(name: string): (r: Label)
    ensures r == PickupLabel <==> name == "pickup"
    ensures r == CourierLabel <==> name != "pickup"
  {
    if name == "pickup" then PickupLabel else CourierLabel
  }

  /** The five payment methods the shop names. */
  function PaymentLabel(name: string): Option<Label> {
    if name == "cash" then Some(CashLabel)
    else if name == "card" then Some(CardLabel)
    else if name == "invoice" then Some(InvoiceLabel)
    else if name == "online" then Some(OnlineLabel)
    else if name == "sbp" then Some(SbpLabel)
    else None
  }

  /** `methods[method] || method` */
  function GetPaymentMethodText(name: string): (r: Shown)
    ensures r.Verbatim? <==> name !in {"cash", "card", "invoice", "online", "sbp"}
    ensures r.Verbatim? ==> r.text == name
  {
    match PaymentLabel(name)
    case Some(l) => Labelled(l)
    case None => Verbatim(name)
  }

  /** The five labels are distinct, so two different known methods never read the same. */
  lemma PaymentLabelsDistinct(m1: string, m2: string)
    requires m1 in {"cash", "card", "invoice", "online", "sbp"} && m2 in {"cash", "card", "invoice", "online", "sbp"}
    requires m1 != m2
    ensures GetPaymentMethodText(m1) != GetPaymentMethodText(m2)
  {
  }

  // ---------------------------------------------------------------------------
  // The e-mail content
  // ---------------------------------------------------------------------------

  datatype EmailItem = EmailItem(productTitle: string, quantity: int, unit: Option<string>, price: int, subtotal: int)

  datatype OrderEmailData = OrderEmailData(
    orderNumber: string,
    customerName: string,
    customerEmail: string,
    customerPhone: string,
    deliveryMethod: string,
    deliveryAddress: Option<string>,
    deliveryCity: Option<string>,
    deliveryComment: Option<string>,
    paymentMethod: string,
    items: seq<EmailItem>,
    subtotal: int,
    deliveryFee: int,
    total: int)

  datatype Row =
    | NameRow(name: string)
    | PhoneRow(phone: string)
    | EmailRow(email: string)
    | DeliveryRow(delivery: Label)
    | AddressRow(address: string)
    | CommentRow(comment: string)
    | PaymentRow(payment: Shown)
    | ItemRow(title: string, quantity: int, unit: Shown, price: string, subtotal: string)
    | SubtotalRow(amount: string)
    | FeeRow(fee: Shown)
    | TotalRow(amount: string)

  /** The address cell: the address, then `, city` when a city is given too. */
  function AddressText(address: string, city: Option<string>): string {
    if Truthy(city) then address + ", " + city.value else address
  }

  /** The order-details block both e-mails share; the address and comment rows are optional. */
  function DetailRows(d: OrderEmailData): (rows: seq<Row>)
    ensures |rows| == 2 + (if Truthy(d.deliveryAddress) then 1 else 0) + (if Truthy(d.deliveryComment) then 1 else 0)
    ensures rows[0] == DeliveryRow(GetDeliveryMethodText(d.deliveryMethod))
    ensures rows[|rows| - 1] == PaymentRow(GetPaymentMethodText(d.paymentMethod))
    ensures (exists i :: 0 <= i < |rows| && rows[i].AddressRow?) <==> Truthy(d.deliveryAddress)
    ensures (exists i :: 0 <= i < |rows| && rows[i].CommentRow?) <==> Truthy(d.deliveryComment)
    ensures Truthy(d.deliveryAddress) ==> rows[1] == AddressRow(AddressText(d.deliveryAddress.value, d.deliveryCity))
    ensures Truthy(d.deliveryComment) ==> rows[|rows| - 2] == CommentRow(d.deliveryComment.value)
  {
    var address := if Truthy(d.deliveryAddress) then [AddressRow(AddressText(d.deliveryAddress.value, d.deliveryCity))] else [];
    var comment := if Truthy(d.deliveryComment) then [CommentRow(d.deliveryComment.value)] else [];
    var rows := [DeliveryRow(GetDeliveryMethodText(d.deliveryMethod))] + address + comment
                + [PaymentRow(GetPaymentMethodText(d.paymentMethod))];
    assert Truthy(d.deliveryAddress) ==> rows[1] == AddressRow(AddressText(d.deliveryAddress.value, d.deliveryCity));
    assert Truthy(d.deliveryComment) ==> rows[|rows| - 2] == CommentRow(d.deliveryComment.value);
    rows
  }

  /** The address row carries the city exactly when the city is given. */
  lemma AddressRowCarriesCity(d: OrderEmailData)
    requires Truthy(d.deliveryAddress)
    ensures DetailRows(d)[1] == AddressRow(AddressText(d.deliveryAddress.value, d.deliveryCity))
    ensures Truthy(d.deliveryCity) ==> DetailRows(d)[1].address == d.deliveryAddress.value + ", " + d.deliveryCity.value
    ensures !Truthy(d.deliveryCity) ==> DetailRows(d)[1].address == d.deliveryAddress.value
  {
  }

  function ItemRowFor(item: EmailItem): Row {
    ItemRow(item.productTitle, item.quantity, GetUnitText(item.unit), FormatPrice(item.price), FormatPrice(item.subtotal))
  }

  /** One row per item, in item order. */
  function ItemRows(items: seq<EmailItem>): (rows: seq<Row>)
    ensures |rows| == |items|
    ensures forall i :: 0 <= i < |items| ==> rows[i] == ItemRowFor(items[i])
  {
    seq(|items|, i requires 0 <= i < |items| => ItemRowFor(items[i]))
  }

  /** Each item row's amounts read back as the item's price and line total. */
  lemma ItemRowAmountsReadBack(items: seq<EmailItem>, i: int)
    requires 0 <= i < |items|
    ensures var row := ItemRows(items)[i];
      && row.title == items[i].productTitle
      && row.quantity == items[i].quantity
      && Money.ParseFixed2(row.price[..|row.price| - |RubleSuffix|], ',') == Some(items[i].price)
      && Money.ParseFixed2(row.subtotal[..|row.subtotal| - |RubleSuffix|], ',') == Some(items[i].subtotal)
  {
  }

  /** The delivery cell: the free label for a zero or negative fee, the amount otherwise. */
  function FeeText(fee: int): (r: Shown)
    ensures r == Labelled(FreeLabel) <==> fee <= 0
    ensures r.Verbatim? ==> |r.text| >= |RubleSuffix| && Money.ParseFixed2(r.text[..|r.text| - |RubleSuffix|], ',') == Some(fee)
  {
    if fee > 0 then Verbatim(FormatPrice(fee)) else Labelled(FreeLabel)
  }

  /** A printed price whose number, before the rouble suffix, parses back to `amount`. */
  predicate ReadsBack(text: string, amount: int) {
    |text| >= |RubleSuffix| && Money.ParseFixed2(text[..|text| - |RubleSuffix|], ',') == Some(amount)
  }

  /** The summary block: subtotal, delivery fee and total, each reading back as its amount. */
  function TotalRows(d: OrderEmailData): (rows: seq<Row>)
    ensures |rows| == 3
    ensures rows[0].SubtotalRow? && ReadsBack(rows[0].amount, d.subtotal)
    ensures rows[1] == FeeRow(FeeText(d.deliveryFee))
    ensures rows[2].TotalRow? && ReadsBack(rows[2].amount, d.total)
  {
    [SubtotalRow(FormatPrice(d.subtotal)), FeeRow(FeeText(d.deliveryFee)), TotalRow(FormatPrice(d.total))]
  }

  datatype Recipient = Customer | Manager

  /** An e-mail: who it is for, the order it is about, and its blocks of rows. */
  datatype EmailDoc = EmailDoc(recipient: Recipient, orderNumber: string, customer: seq<Row>,
                               details: seq<Row>, items: seq<Row>, totals: seq<Row>)

  function BuildCustomerEmail(d: OrderEmailData): (doc: EmailDoc)
    ensures doc.recipient == Customer && doc.orderNumber == d.orderNumber
    ensures doc.customer == []
    ensures doc.details == DetailRows(d)
    ensures doc.items == ItemRows(d.items) && |doc.items| == |d.items|
    ensures doc.totals == TotalRows(d)
  {
    EmailDoc(Customer, d.orderNumber, [], DetailRows(d), ItemRows(d.items), TotalRows(d))
  }

  function BuildManagerEmail(d: OrderEmailData): (doc: EmailDoc)
    ensures doc.recipient == Manager && doc.orderNumber == d.orderNumber
    ensures doc.customer == [NameRow(d.customerName), PhoneRow(d.customerPhone), EmailRow(d.customerEmail)]
    ensures doc.details == DetailRows(d)
    ensures doc.items == ItemRows(d.items) && |doc.items| == |d.items|
    ensures doc.totals == TotalRows(d)
  {
    EmailDoc(Manager, d.orderNumber, [NameRow(d.customerName), PhoneRow(d.customerPhone), EmailRow(d.customerEmail)],
             DetailRows(d), ItemRows(d.items), TotalRows(d))
  }

  /**
   The two e-mails agree on everything about the order: the same detail rows,
   the same item rows and the same totals; only the manager's has the
   customer block.
   */
  lemma EmailsAgreeOnOrder(d: OrderEmailData)
    ensures var c := BuildCustomerEmail(d);
      var m := BuildManagerEmail(d);
      c.details == m.details && c.items == m.items && c.totals == m.totals
    ensures BuildCustomerEmail(d).totals[1] == BuildManagerEmail(d).totals[1]
    ensures BuildManagerEmail(d).totals[1] == FeeRow(Labelled(FreeLabel)) <==> d.deliveryFee <= 0
  {
  }

  // ---------------------------------------------------------------------------
  // Sending
  // ---------------------------------------------------------------------------

  /** The environment settings the mailer reads. */
  datatype MailEnv = MailEnv(smtpHost: Option<string>, smtpUser: Option<string>, smtpPass: Option<string>,
                             smtpFrom: string, managerEmail: Option<string>)

  /** A transport exists only when host, user and password are all set. */
  predicate TransportConfigured(env: MailEnv) {
    Truthy(env.smtpHost) && Truthy(env.smtpUser) && Truthy(env.smtpPass)
  }

  datatype Mail = Mail(from: string, to: string, doc: EmailDoc)

  /** What a send did: the mail handed to the transport, if any, and the boolean it returns. */
  datatype SendResult = SendResult(attempted: Option<Mail>, ok: bool)

  /** `delivered` says whether the transport accepts the mail or throws. */
  function SendCustomerOrderEmail(env: MailEnv, d: OrderEmailData, delivered: bool): (r: SendResult)
    ensures r.ok <==> TransportConfigured(env) && delivered
    ensures r.attempted.Some? <==> TransportConfigured(env)
    ensures r.attempted.Some? ==> r.attempted.value.to == d.customerEmail && r.attempted.value.doc == BuildCustomerEmail(d)
  {
    if !TransportConfigured(env) then SendResult(None, false)
    else SendResult(Some(Mail(env.smtpFrom, d.customerEmail, BuildCustomerEmail(d))), delivered)
  }

  function SendManagerOrderEmail(env: MailEnv, d: OrderEmailData, delivered: bool): (r: SendResult)
    ensures r.ok <==> TransportConfigured(env) && Truthy(env.managerEmail) && delivered
    ensures r.attempted.Some? <==> TransportConfigured(env) && Truthy(env.managerEmail)
    ensures r.attempted.Some? ==> r.attempted.value.to == env.managerEmail.value && r.attempted.value.doc == BuildManagerEmail(d)
  {
    if !TransportConfigured(env) then SendResult(None, false)
    else if !Truthy(env.managerEmail) then SendResult(None, false)
    else SendResult(Some(Mail(env.smtpFrom, env.managerEmail.value, BuildManagerEmail(d))), delivered)
  }

  datatype EmailsSent = EmailsSent(customer: bool, manager: bool)

  /** Both sends run; each result is reported on its own. */
  function SendOrderEmails(env: MailEnv, d: OrderEmailData, customerDelivered: bool, managerDelivered: bool): (r: EmailsSent)
    ensures r.customer <==> TransportConfigured(env) && customerDelivered
    ensures r.manager <==> TransportConfigured(env) && Truthy(env.managerEmail) && managerDelivered
  {
    EmailsSent(SendCustomerOrderEmail(env, d, customerDelivered).ok, SendManagerOrderEmail(env, d, managerDelivered).ok)
  }

  /** A failed manager send does not affect the customer's result, and the other way round. */
  lemma SendsAreIndependent(env: MailEnv, d: OrderEmailData, c: bool, m1: bool, m2: bool)
    ensures SendOrderEmails(env, d, c, m1).customer == SendOrderEmails(env, d, c, m2).customer
    ensures SendOrderEmails(env, d, m1, c).manager == SendOrderEmails(env, d, m2, c).manager
  {
  }
}
