/**
 * Checkout submission: the totals shown on the page, the form rules, the
 * stock check, and the fixed chain of remote creations
 * client → address → bill → order → one detail per cart line.
 *
 * The remote services are an oracle `respond`: the call at position `k` of
 * the log of issued calls receives `respond(k)`.
 */
module Checkout {
  import opened Types
  import opened Cart

  // ---------------------------------------------------------------------------
  // Totals
  // ---------------------------------------------------------------------------

  /** The tax rate, 21%, in percent. */
  const TaxRatePercent: int := 21

  /** `n / d` rounded to the nearest integer, a half rounding up. */
  function RoundHalfUp(n: int, d: int): (r: int)
    requires d > 0
    ensures 2 * d * r - d <= 2 * n < 2 * d * r + d
  {
    (2 * n + d) / (2 * d)
  }

  datatype Totals = Totals(subtotal: Cents, taxAmount: Cents, finalTotal: Cents)

  /**
   * The page's subtotal, tax (subtotal × 0.21 rounded to the cent) and final
   * total (subtotal + tax rounded to the cent). In whole cents the second
   * rounding is exact, so the final total is the sum of the other two.
   */
  function TotalsOf(items: seq<CartItem>): (t: Totals)
    ensures t.subtotal == LinesTotal(items)
    ensures 200 * t.taxAmount - 100 <= 2 * TaxRatePercent * t.subtotal < 200 * t.taxAmount + 100
    ensures t.finalTotal == t.subtotal + t.taxAmount
  {
    var subtotal := LinesTotal(items);
    var taxAmount := RoundHalfUp(subtotal * TaxRatePercent, 100);
    Totals(subtotal, taxAmount, RoundHalfUp((subtotal + taxAmount) * 100, 100))
  }

  /** Two lines, 10.00 × 2 and 15.00 × 1, give 35.00 + 7.35 = 42.35. */
  lemma TotalsExample(a: Product, b: Product)
    requires a.price == 1000 && b.price == 1500
    ensures TotalsOf([CartItem(a, 2), CartItem(b, 1)]) == Totals(3500, 735, 4235)
  {
    var items := [CartItem(a, 2), CartItem(b, 1)];
    assert items[..1] == [CartItem(a, 2)];
    assert items[..1][..0] == [];
    assert LinesTotal(items[..1]) == 2000;
    assert LinesTotal(items) == LinesTotal(items[..1]) + 1500;
    assert RoundHalfUp(3500 * TaxRatePercent, 100) == 735;
    assert RoundHalfUp(4235 * 100, 100) == 4235;
  }

  // ---------------------------------------------------------------------------
  // The form
  // ---------------------------------------------------------------------------

  datatype CheckoutForm = CheckoutForm(
    firstName: string, lastName: string, email: string,
    address: string, city: string, zipCode: string,
    paymentMethod: int,
    cardNumber: string, expiryDate: string, cvv: string)

  /** The payment code the form starts with: CREDIT. */
  const DefaultPaymentMethod: int := Credit.Code()

  /**
   * The form starts on a card payment, so the card fields start out
   * required: with them empty, the default form does not validate.
   */
  lemma DefaultRequiresCard(form: CheckoutForm)
    requires form.paymentMethod == DefaultPaymentMethod
    requires form.cardNumber == "" || form.expiryDate == "" || form.cvv == ""
    ensures IsCardPayment(DefaultPaymentMethod) && PaymentTypeOf(DefaultPaymentMethod) == Some(Credit)
    ensures !FormValid(form)
  {
  }

  /** `isCardPayment`: the selected code is one of "2", "3", "4". */
  function IsCardPayment(code: int): (card: bool)
    ensures card <==> PaymentTypeOf(code) in {Some(Card), Some(Debit), Some(Credit)}
  {
    code == 2 || code == 3 || code == 4
  }

  /** The checks the form makes before submitting: required fields, and card fields for card payments. */
  predicate FormValid(form: CheckoutForm)
  {
    && form.firstName != "" && form.lastName != "" && form.email != ""
    && form.address != "" && form.city != "" && form.zipCode != ""
    && (IsCardPayment(form.paymentMethod) ==>
          form.cardNumber != "" && form.expiryDate != "" && form.cvv != "")
  }

  /** With the other fields filled in, empty card fields are accepted exactly when the payment is not by card. */
  lemma CardFieldsRequiredExactlyForCards(form: CheckoutForm)
    requires form.firstName != "" && form.lastName != "" && form.email != ""
    requires form.address != "" && form.city != "" && form.zipCode != ""
    requires form.cardNumber == "" && form.expiryDate == "" && form.cvv == ""
    ensures FormValid(form) <==> form.paymentMethod !in {2, 3, 4}
  {
  }

  /** The form is rendered only for a non-empty cart; an empty one shows a notice instead. */
  predicate RendersForm(items: seq<CartItem>)
  {
    |items| > 0
  }

  // ---------------------------------------------------------------------------
  // Stock check
  // ---------------------------------------------------------------------------

  /** A line asks for more units than the stock recorded in it. */
  predicate IsShort(line: CartItem)
  {
    line.quantity > line.product.stock
  }

  /**
   * The short lines, in cart order: `Filter` with `IsShort`, so
   * `FilterAppend` and `FilterMultiplicity` fix their order and multiplicity.
   */
  function Shortages(items: seq<CartItem>): seq<CartItem>
  {
    Filter(items, IsShort)
  }

  /** A short line is exactly a cart line whose quantity exceeds its stock. */
  lemma ShortagesExact(items: seq<CartItem>)
    ensures forall x :: x in Shortages(items) <==> x in items && x.quantity > x.product.stock
    ensures Shortages(items) == [] <==> forall i :: 0 <= i < |items| ==> items[i].quantity <= items[i].product.stock
  {
    if Shortages(items) != [] {
      assert Shortages(items)[0] in Shortages(items);
    }
  }

  /** The lines' names, in order. */
  function Names(lines: seq<CartItem>): (names: seq<string>)
    ensures |names| == |lines|
    ensures forall i :: 0 <= i < |lines| ==> names[i] == lines[i].product.name
  {
    seq(|lines|, i requires 0 <= i < |lines| => lines[i].product.name)
  }

  /** Where part `i` starts in the joined text: after each earlier part and one separator behind each. */
  function JoinOffset(parts: seq<string>, sep: string, i: nat): nat
    requires i <= |parts|
  {
    if i == 0 then 0 else JoinOffset(parts, sep, i - 1) + |parts[i - 1]| + |sep|
  }

  /** Offsets depend only on the parts before them. */
  lemma {:induction false} JoinOffsetPrefix(parts: seq<string>, sep: string, m: nat, i: nat)
    requires i <= m <= |parts|
    ensures JoinOffset(parts[..m], sep, i) == JoinOffset(parts, sep, i)
  {
    if i > 0 {
      JoinOffsetPrefix(parts, sep, m, i - 1);
      assert parts[..m][i - 1] == parts[i - 1];
    }
  }

  /** `Array.prototype.join`: the parts with `sep` between neighbours, "" for no parts. */
  function Join(parts: seq<string>, sep: string): (s: string)
    ensures parts == [] ==> s == ""
    ensures |parts| == 1 ==> s == parts[0]
    ensures |parts| > 0 ==> |s| == JoinOffset(parts, sep, |parts| - 1) + |parts[|parts| - 1]|
  {
    if |parts| == 0 then ""
    else if |parts| == 1 then parts[0]
    else
      var n := |parts|;
      JoinOffsetPrefix(parts, sep, n - 1, n - 2);
      Join(parts[..n - 1], sep) + sep + parts[n - 1]
  }

  /** Joining two or more parts is joining all but the last, then `sep` and the last part at its offset. */
  lemma JoinStep(parts: seq<string>, sep: string)
    requires |parts| > 1
    ensures Join(parts, sep) == Join(parts[..|parts| - 1], sep) + sep + parts[|parts| - 1]
    ensures |Join(parts[..|parts| - 1], sep)| + |sep| == JoinOffset(parts, sep, |parts| - 1)
  {
    JoinOffsetPrefix(parts, sep, |parts| - 1, |parts| - 2);
  }

  /** The joined text holds part `i` at its offset. */
  lemma {:induction false} JoinPart(parts: seq<string>, sep: string, i: nat)
    requires i < |parts|
    ensures JoinOffset(parts, sep, i) + |parts[i]| <= |Join(parts, sep)|
    ensures Join(parts, sep)[JoinOffset(parts, sep, i)..JoinOffset(parts, sep, i) + |parts[i]|] == parts[i]
  {
    var n := |parts|;
    if n > 1 {
      var init := parts[..n - 1];
      JoinStep(parts, sep);
      if i < n - 1 {
        JoinPart(init, sep, i);
        JoinOffsetPrefix(parts, sep, n - 1, i);
        var head := Join(init, sep);
        var lo := JoinOffset(parts, sep, i);
        assert lo == JoinOffset(init, sep, i);
        assert Join(parts, sep)[lo..lo + |parts[i]|] == head[lo..lo + |init[i]|];
      }
    }
  }

  /** The joined text holds every part at its offset. */
  lemma JoinParts(parts: seq<string>, sep: string)
    ensures forall i :: 0 <= i < |parts| ==>
      && JoinOffset(parts, sep, i) + |parts[i]| <= |Join(parts, sep)|
      && Join(parts, sep)[JoinOffset(parts, sep, i)..JoinOffset(parts, sep, i) + |parts[i]|] == parts[i]
  {
    forall i | 0 <= i < |parts|
      ensures JoinOffset(parts, sep, i) + |parts[i]| <= |Join(parts, sep)|
      ensures Join(parts, sep)[JoinOffset(parts, sep, i)..JoinOffset(parts, sep, i) + |parts[i]|] == parts[i]
    {
      JoinPart(parts, sep, i);
    }
  }

  /** Just before part `i > 0` the joined text holds exactly `sep`. */
  lemma {:induction false} JoinSeparator(parts: seq<string>, sep: string, i: nat)
    requires 1 <= i < |parts|
    ensures |sep| <= JoinOffset(parts, sep, i) <= |Join(parts, sep)|
    ensures Join(parts, sep)[JoinOffset(parts, sep, i) - |sep|..JoinOffset(parts, sep, i)] == sep
  {
    var n := |parts|;
    var init := parts[..n - 1];
    JoinStep(parts, sep);
    if i < n - 1 {
      JoinSeparator(init, sep, i);
      JoinOffsetPrefix(parts, sep, n - 1, i);
      var head := Join(init, sep);
      var hi := JoinOffset(parts, sep, i);
      assert hi == JoinOffset(init, sep, i);
      assert Join(parts, sep)[hi - |sep|..hi] == head[hi - |sep|..hi];
    }
  }

  /**
   * Between each part and the next the joined text holds exactly `sep`:
   * the separator ends where the next part starts.
   */
  lemma JoinSeparators(parts: seq<string>, sep: string)
    ensures forall i :: 1 <= i < |parts| ==>
      && |sep| <= JoinOffset(parts, sep, i) <= |Join(parts, sep)|
      && Join(parts, sep)[JoinOffset(parts, sep, i) - |sep|..JoinOffset(parts, sep, i)] == sep
  {
    forall i | 1 <= i < |parts|
      ensures |sep| <= JoinOffset(parts, sep, i) <= |Join(parts, sep)|
      ensures Join(parts, sep)[JoinOffset(parts, sep, i) - |sep|..JoinOffset(parts, sep, i)] == sep
    {
      JoinSeparator(parts, sep, i);
    }
  }

  /** The message thrown when some lines are short of stock, naming them. */
  function StockMessage(names: seq<string>): (message: string)
    ensures |message| == 25 + |Join(names, ", ")| + 31
    ensures message[25..|message| - 31] == Join(names, ", ")
  {
    "Stock insuficiente para: " + Join(names, ", ") + ". Por favor reduce la cantidad."
  }

  // ---------------------------------------------------------------------------
  // Remote creations
  // ---------------------------------------------------------------------------

  datatype ClientPayload = ClientPayload(name: string, lastname: string, email: string, telephone: string)
  datatype AddressPayload = AddressPayload(street: string, city: string, number: string, clientId: int)
  datatype BillPayload = BillPayload(billNumber: string, date: Timestamp, total: Cents, paymentType: int, clientId: int)
  datatype OrderPayload = OrderPayload(billId: int, clientId: int, date: Timestamp, total: Cents,
                                       status: int, deliveryMethod: int)
  datatype DetailPayload = DetailPayload(orderId: int, productId: int, quantity: int, price: Cents)

  /** One issued creation request. */
  datatype Call =
    | CreateClient(client: ClientPayload)
    | CreateAddress(address: AddressPayload)
    | CreateBill(bill: BillPayload)
    | CreateOrder(order: OrderPayload)
    | CreateDetail(detail: DetailPayload)
  {
    /** The position of this kind of call in the creation chain. */
    function Stage(): nat
    {
      match this
      case CreateClient(_) => 0
      case CreateAddress(_) => 1
      case CreateBill(_) => 2
      case CreateOrder(_) => 3
      case CreateDetail(_) => 4
    }
  }

  /**
   * What a creation call came back with: a record whose `id_key` may be
   * missing (None also stands for an empty response body), or a rejection
   * carrying the error's message.
   */
  datatype Response = Created(idKey: Option<int>) | Rejected(message: string)

  /** The identifier a creation returned, when the response and its `id_key` are both truthy (0 is not). */
  function ReturnedId(r: Response): (id: Option<int>)
    ensures id.Some? <==> r.Created? && r.idKey.Some? && r.idKey.value != 0
    ensures id.Some? ==> id == r.idKey
  {
    if r.Created? && r.idKey.Some? && r.idKey.value != 0 then r.idKey else None
  }

  const ClientError: string := "Error al registrar cliente."
  const BillError: string := "Error al generar factura."
  const OrderError: string := "Error al crear la orden."
  const GenericError: string := "Hubo un error procesando tu compra."

  /** The toast text for a caught error: its message, or the generic text when the message is empty. */
  function Shown(message: string): (text: string)
    ensures text != ""
    ensures message != "" ==> text == message
    ensures message == "" ==> text == GenericError
  {
    if message == "" then GenericError else message
  }

  /**
   * The error a failed submission throws: one of the page's own errors, or
   * the error a creation call was rejected with.
   */
  datatype Thrown =
    | OutOfStock(names: seq<string>)
    | ClientNotCreated
    | BillNotCreated
    | OrderNotCreated
    | ServiceError(message: string)

  /** The thrown error's `message`; the page's own errors never have an empty one. */
  function ThrownMessage(e: Thrown): (message: string)
    ensures e.ServiceError? ==> message == e.message
    ensures !e.ServiceError? ==> message != ""
  {
    match e
    case OutOfStock(names) => StockMessage(names)
    case ClientNotCreated => ClientError
    case BillNotCreated => BillError
    case OrderNotCreated => OrderError
    case ServiceError(message) => message
  }

  /**
   * The error toast for a thrown error: the page's own errors show their
   * message as is; a rejected call shows its message, or the generic text
   * when that message is empty.
   */
  function ToastText(e: Thrown): (text: string)
    ensures text != ""
    ensures !e.ServiceError? ==> text == ThrownMessage(e)
    ensures e.ServiceError? ==> text == (if e.message == "" then GenericError else e.message)
  {
    Shown(ThrownMessage(e))
  }

  /** The client record: the form's names and e-mail, with a placeholder telephone. */
  function ClientPayloadOf(form: CheckoutForm): (p: ClientPayload)
    ensures p.name == form.firstName && p.lastname == form.lastName && p.email == form.email
    ensures |p.telephone| == 10
  {
    ClientPayload(form.firstName, form.lastName, form.email, "0000000000")
  }

  /** The address record: the form's street and city, a placeholder number, owned by the new client. */
  function AddressPayloadOf(form: CheckoutForm, clientId: int): (p: AddressPayload)
    ensures p.street == form.address && p.city == form.city && p.clientId == clientId
    ensures p.number != ""
  {
    AddressPayload(form.address, form.city, "S/N", clientId)
  }

  /** The bill: the cart's final total with tax, paid by the selected method, for the new client. */
  function BillPayloadOf(items: seq<CartItem>, form: CheckoutForm, today: Timestamp,
                         billNumber: string, clientId: int): (p: BillPayload)
    ensures p.total == LinesTotal(items) + TotalsOf(items).taxAmount
    ensures p.paymentType == form.paymentMethod && p.clientId == clientId && p.billNumber == billNumber
  {
    BillPayload(billNumber, today, TotalsOf(items).finalTotal, form.paymentMethod, clientId)
  }

  /** The order: the same final total, PENDING, for home delivery, tied to the new client and bill. */
  function OrderPayloadOf(items: seq<CartItem>, today: Timestamp, clientId: int, billId: int): (p: OrderPayload)
    ensures p.total == LinesTotal(items) + TotalsOf(items).taxAmount
    ensures StatusOf(p.status) == Some(Pending) && DeliveryMethodOf(p.deliveryMethod) == Some(HomeDelivery)
    ensures p.clientId == clientId && p.billId == billId
  {
    OrderPayload(billId, clientId, today, TotalsOf(items).finalTotal, Pending.Code(), HomeDelivery.Code())
  }

  /** A line's detail: priced at the line's add-time price, so it carries the line's share of the subtotal. */
  function DetailPayloadOf(orderId: int, item: CartItem): (p: DetailPayload)
    ensures p.orderId == orderId && p.productId == item.IdKey() && p.quantity == item.quantity
    ensures p.price * p.quantity == LinesTotal([item])
  {
    DetailPayload(orderId, item.IdKey(), item.quantity, item.product.price)
  }

  /** The detail creations for the cart lines, one per line, in cart order. */
  function DetailCalls(orderId: int, items: seq<CartItem>): (calls: seq<Call>)
    ensures |calls| == |items|
    ensures forall i :: 0 <= i < |items| ==> calls[i] == CreateDetail(DetailPayloadOf(orderId, items[i]))
  {
    seq(|items|, i requires 0 <= i < |items| => CreateDetail(DetailPayloadOf(orderId, items[i])))
  }

  /** Issuing the detail of line `i` extends the details of the lines before it by one call. */
  lemma DetailCallsGrow(orderId: int, items: seq<CartItem>, i: nat)
    requires i < |items|
    ensures DetailCalls(orderId, items[..i + 1])
      == DetailCalls(orderId, items[..i]) + [CreateDetail(DetailPayloadOf(orderId, items[i]))]
  {
    var longer := DetailCalls(orderId, items[..i + 1]);
    var shorter := DetailCalls(orderId, items[..i]);
    forall k | 0 <= k < i ensures longer[k] == shorter[k] {
      assert items[..i + 1][k] == items[..i][k];
    }
  }

  /** The message of the first rejected response among calls `from .. from + count - 1`, if any. */
  function FirstRejection(respond: nat -> Response, from: nat, count: nat): (m: Option<string>)
    ensures m.None? <==> forall k :: from <= k < from + count ==> respond(k).Created?
    ensures m.Some? ==> exists k :: from <= k < from + count && respond(k) == Rejected(m.value)
  {
    if count == 0 then None
    else match FirstRejection(respond, from, count - 1)
      case Some(m) => Some(m)
      case None =>
        var r := respond(from + count - 1);
        if r.Rejected? then Some(r.message) else None
  }

  datatype Outcome = Succeeded | Failed(error: Thrown)

  /** One submission: how it ended and the calls it issued, in order. */
  datatype Attempt = Attempt(outcome: Outcome, log: seq<Call>)

  /**
   * The submission as a function of its inputs: the specification of
   * `RunSubmission`. `today` and `billNumber` stand for the clock-derived
   * values the page computes.
   */
  function Submission(items: seq<CartItem>, form: CheckoutForm, today: Timestamp,
                      billNumber: string, respond: nat -> Response): (a: Attempt)
    ensures |a.log| <= 4 + |items|
    ensures a.log == [] <==> Shortages(items) != []
  {
    if Shortages(items) != [] then Attempt(Failed(OutOfStock(Names(Shortages(items)))), [])
    else
      var log1 := [CreateClient(ClientPayloadOf(form))];
      if respond(0).Rejected? then Attempt(Failed(ServiceError(respond(0).message)), log1)
      else if ReturnedId(respond(0)).None? then Attempt(Failed(ClientNotCreated), log1)
      else
        var clientId := ReturnedId(respond(0)).value;
        var log2 := log1 + [CreateAddress(AddressPayloadOf(form, clientId))];
        if respond(1).Rejected? then Attempt(Failed(ServiceError(respond(1).message)), log2)
        else
          var log3 := log2 + [CreateBill(BillPayloadOf(items, form, today, billNumber, clientId))];
          if respond(2).Rejected? then Attempt(Failed(ServiceError(respond(2).message)), log3)
          else if ReturnedId(respond(2)).None? then Attempt(Failed(BillNotCreated), log3)
          else
            var billId := ReturnedId(respond(2)).value;
            var log4 := log3 + [CreateOrder(OrderPayloadOf(items, today, clientId, billId))];
            if respond(3).Rejected? then Attempt(Failed(ServiceError(respond(3).message)), log4)
            else if ReturnedId(respond(3)).None? then Attempt(Failed(OrderNotCreated), log4)
            else
              var orderId := ReturnedId(respond(3)).value;
              var log := log4 + DetailCalls(orderId, items);
              match FirstRejection(respond, 4, |items|)
              case Some(m) => Attempt(Failed(ServiceError(m)), log)
              case None => Attempt(Succeeded, log)
  }

  /**
   * `onSubmit`'s body between the flag updates: the stock check, then the
   * awaited creations, each issued only after the previous one returned an
   * identifier (the address's result is not inspected). All detail
   * creations are issued together; the submission fails if any of them fails.
   */
  method RunSubmission(items: seq<CartItem>, form: CheckoutForm, today: Timestamp,
                       billNumber: string, respond: nat -> Response)
    returns (outcome: Outcome, log: seq<Call>)
    ensures Attempt(outcome, log) == Submission(items, form, today, billNumber, respond)
  {
    log := [];
    if Shortages(items) != [] {
      outcome := Failed(OutOfStock(Names(Shortages(items))));
      return;
    }

    log := log + [CreateClient(ClientPayloadOf(form))];
    var createdClient := respond(0);
    if createdClient.Rejected? {
      outcome := Failed(ServiceError(createdClient.message));
      return;
    }
    if ReturnedId(createdClient).None? {
      outcome := Failed(ClientNotCreated);
      return;
    }
    var clientId := ReturnedId(createdClient).value;

    log := log + [CreateAddress(AddressPayloadOf(form, clientId))];
    var createdAddress := respond(1);
    if createdAddress.Rejected? {
      outcome := Failed(ServiceError(createdAddress.message));
      return;
    }

    log := log + [CreateBill(BillPayloadOf(items, form, today, billNumber, clientId))];
    var createdBill := respond(2);
    if createdBill.Rejected? {
      outcome := Failed(ServiceError(createdBill.message));
      return;
    }
    if ReturnedId(createdBill).None? {
      outcome := Failed(BillNotCreated);
      return;
    }
    var billId := ReturnedId(createdBill).value;

    log := log + [CreateOrder(OrderPayloadOf(items, today, clientId, billId))];
    var createdOrder := respond(3);
    if createdOrder.Rejected? {
      outcome := Failed(ServiceError(createdOrder.message));
      return;
    }
    if ReturnedId(createdOrder).None? {
      outcome := Failed(OrderNotCreated);
      return;
    }
    var orderId := ReturnedId(createdOrder).value;

    var details, failure := IssueDetails(orderId, items, respond);
    log := log + details;
    match failure
    case Some(m) => outcome := Failed(ServiceError(m));
    case None => outcome := Succeeded;
  }

  /**
   * The detail creations: one request per cart line, all issued before any
   * is awaited, so every line's request goes out whatever the others return;
   * the first rejection, by line order, is the one reported.
   */
  method IssueDetails(orderId: int, items: seq<CartItem>, respond: nat -> Response)
    returns (calls: seq<Call>, failure: Option<string>)
    ensures calls == DetailCalls(orderId, items)
    ensures failure == FirstRejection(respond, 4, |items|)
  {
    calls := [];
    failure := None;
    var i := 0;
    while i < |items|
      invariant 0 <= i <= |items|
      invariant calls == DetailCalls(orderId, items[..i])
      invariant failure == FirstRejection(respond, 4, i)
    {
      DetailCallsGrow(orderId, items, i);
      calls := calls + [CreateDetail(DetailPayloadOf(orderId, items[i]))];
      var createdDetail := respond(4 + i);
      if failure.None? && createdDetail.Rejected? {
        failure := Some(createdDetail.message);
      }
      i := i + 1;
    }
    assert items[..i] == items;
  }

  // ---------------------------------------------------------------------------
  // Properties of a submission
  // ---------------------------------------------------------------------------

  /** A stock shortage fails the submission before any call, naming exactly the short lines. */
  lemma StockShortageIssuesNothing(items: seq<CartItem>, form: CheckoutForm, today: Timestamp,
                                   billNumber: string, respond: nat -> Response)
    requires exists i :: 0 <= i < |items| && items[i].quantity > items[i].product.stock
    ensures Submission(items, form, today, billNumber, respond)
      == Attempt(Failed(OutOfStock(Names(Shortages(items)))), [])
    ensures forall x :: x in Shortages(items) <==> x in items && x.quantity > x.product.stock
  {
    ShortagesExact(items);
  }

  /** The call at position `k` of the log belongs to stage min(k, 4): client, address, bill, order, details. */
  lemma CallsInChainOrder(items: seq<CartItem>, form: CheckoutForm, today: Timestamp,
                          billNumber: string, respond: nat -> Response)
    ensures var log := Submission(items, form, today, billNumber, respond).log;
      |log| <= 4 + |items| &&
      forall k :: 0 <= k < |log| ==> log[k].Stage() == if k < 4 then k else 4
  {
    var log := Submission(items, form, today, billNumber, respond).log;
    if Shortages(items) == [] && Proceeds(respond, 0) && Proceeds(respond, 1) && Proceeds(respond, 2) && Proceeds(respond, 3) {
      FullChainLog(items, form, today, billNumber, respond);
      forall k | 4 <= k < |log| ensures log[k].Stage() == 4 {
        assert log[k] == log[4..][k - 4];
      }
    } else {
      BrokenChainLog(items, form, today, billNumber, respond);
    }
  }

  /** Once every step proceeds, the log is the four chain calls followed by the detail calls. */
  lemma FullChainLog(items: seq<CartItem>, form: CheckoutForm, today: Timestamp,
                     billNumber: string, respond: nat -> Response)
    requires Shortages(items) == []
    requires Proceeds(respond, 0) && Proceeds(respond, 1) && Proceeds(respond, 2) && Proceeds(respond, 3)
    ensures var log := Submission(items, form, today, billNumber, respond).log;
      && |log| == 4 + |items|
      && (forall k :: 0 <= k < 4 ==> log[k].Stage() == k)
      && log[4..] == DetailCalls(ReturnedId(respond(3)).value, items)
  {
    var clientId, billId := ReturnedId(respond(0)).value, ReturnedId(respond(2)).value;
    var chain := [CreateClient(ClientPayloadOf(form))] + [CreateAddress(AddressPayloadOf(form, clientId))]
      + [CreateBill(BillPayloadOf(items, form, today, billNumber, clientId))]
      + [CreateOrder(OrderPayloadOf(items, today, clientId, billId))];
    var details := DetailCalls(ReturnedId(respond(3)).value, items);
    assert Submission(items, form, today, billNumber, respond).log == chain + details;
    assert (chain + details)[4..] == details;
  }

  /** When the chain breaks, at most the first four calls were issued, each at its own stage. */
  lemma BrokenChainLog(items: seq<CartItem>, form: CheckoutForm, today: Timestamp,
                       billNumber: string, respond: nat -> Response)
    requires !(Shortages(items) == [] && Proceeds(respond, 0) && Proceeds(respond, 1) && Proceeds(respond, 2) && Proceeds(respond, 3))
    ensures var log := Submission(items, form, today, billNumber, respond).log;
      |log| <= 4 && forall k :: 0 <= k < |log| ==> log[k].Stage() == k
  {
  }

  /** Whether the chain goes on after the call at `k`, judged from that call's response. */
  predicate Proceeds(respond: nat -> Response, k: nat)
  {
    if k == 1 then respond(1).Created? else ReturnedId(respond(k)).Some?
  }

  /** How many calls a submission issues, read off the responses alone. */
  function CallCount(items: seq<CartItem>, respond: nat -> Response): nat
  {
    if Shortages(items) != [] then 0
    else if !Proceeds(respond, 0) then 1
    else if !Proceeds(respond, 1) then 2
    else if !Proceeds(respond, 2) then 3
    else if !Proceeds(respond, 3) then 4
    else 4 + |items|
  }

  /**
   * A call is issued only when every earlier step went through: a client,
   * bill or order response without an identifier, or any rejection, stops
   * the chain; the address is only required not to be rejected; once the
   * order exists, one detail is issued per line whatever the details return.
   */
  lemma CallsStopAtFirstFailure(items: seq<CartItem>, form: CheckoutForm, today: Timestamp,
                                billNumber: string, respond: nat -> Response)
    ensures |Submission(items, form, today, billNumber, respond).log| == CallCount(items, respond)
  {
  }

  /**
   * Identifiers flow forward: the address, bill and order carry the created
   * client's `id_key`, the order the created bill's, and every detail the
   * created order's.
   */
  lemma IdentifiersThreaded(items: seq<CartItem>, form: CheckoutForm, today: Timestamp,
                            billNumber: string, respond: nat -> Response)
    ensures var log := Submission(items, form, today, billNumber, respond).log;
      && (|log| > 1 ==> log[1].address.clientId == respond(0).idKey.value != 0)
      && (|log| > 2 ==> log[2].bill.clientId == respond(0).idKey.value)
      && (|log| > 3 ==> log[3].order.clientId == respond(0).idKey.value
                        && log[3].order.billId == respond(2).idKey.value != 0)
      && (forall k :: 4 <= k < |log| ==> log[k].detail.orderId == respond(3).idKey.value != 0)
  {
  }

  /**
   * Bill and order both carry the final total; the order is PENDING for home
   * delivery; the bill's payment type is the selected code; the client and
   * address carry the form's fields and placeholders.
   */
  lemma PayloadsCarryTotals(items: seq<CartItem>, form: CheckoutForm, today: Timestamp,
                            billNumber: string, respond: nat -> Response)
    ensures var log := Submission(items, form, today, billNumber, respond).log;
      && (|log| > 0 ==> log[0].client == ClientPayload(form.firstName, form.lastName, form.email, "0000000000"))
      && (|log| > 1 ==> log[1].address.street == form.address && log[1].address.city == form.city)
      && (|log| > 2 ==> log[2].bill.total == TotalsOf(items).finalTotal
                        && log[2].bill.paymentType == form.paymentMethod
                        && log[2].bill.billNumber == billNumber && log[2].bill.date == today)
      && (|log| > 3 ==> log[3].order.total == TotalsOf(items).finalTotal
                        && log[3].order.status == 1 && log[3].order.deliveryMethod == 3
                        && log[3].order.date == today)
  {
  }

  /**
   * Once the order exists, each cart line gets exactly one detail, at
   * position 4 + its index, carrying the order's id and the line's
   * `id_key`, quantity and add-time price.
   */
  lemma OneDetailPerLine(items: seq<CartItem>, form: CheckoutForm, today: Timestamp,
                         billNumber: string, respond: nat -> Response)
    ensures var log := Submission(items, form, today, billNumber, respond).log;
      |log| > 4 ==>
        && |log| == 4 + |items|
        && ReturnedId(respond(3)).Some?
        && forall i :: 0 <= i < |items| ==>
             log[4 + i] == CreateDetail(DetailPayload(ReturnedId(respond(3)).value, items[i].IdKey(),
                                                      items[i].quantity, items[i].product.price))
  {
    var log := Submission(items, form, today, billNumber, respond).log;
    DetailsFollowOrder(items, form, today, billNumber, respond);
    if |log| > 4 {
      var details := DetailCalls(ReturnedId(respond(3)).value, items);
      forall i | 0 <= i < |items| ensures log[4 + i] == details[i] {
        assert log[4..][i] == log[4 + i];
      }
    }
  }

  /** Past the order, the log holds the order's detail creations and nothing else. */
  lemma DetailsFollowOrder(items: seq<CartItem>, form: CheckoutForm, today: Timestamp,
                           billNumber: string, respond: nat -> Response)
    ensures var log := Submission(items, form, today, billNumber, respond).log;
      |log| > 4 ==>
        && ReturnedId(respond(3)).Some?
        && log[4..] == DetailCalls(ReturnedId(respond(3)).value, items)
  {
    CallsStopAtFirstFailure(items, form, today, billNumber, respond);
    var log := Submission(items, form, today, billNumber, respond).log;
    if |log| > 4 {
      assert Proceeds(respond, 0) && Proceeds(respond, 1) && Proceeds(respond, 2) && Proceeds(respond, 3);
      assert log[4..] == DetailCalls(ReturnedId(respond(3)).value, items);
    }
  }

  /**
   * A submission succeeds exactly when no line is short, every creation
   * returned what the chain needs, and no detail creation failed; it then
   * issued 4 + |items| calls.
   */
  lemma SucceedsExactlyWhenAllCreated(items: seq<CartItem>, form: CheckoutForm, today: Timestamp,
                                      billNumber: string, respond: nat -> Response)
    ensures var a := Submission(items, form, today, billNumber, respond);
      a.outcome.Succeeded? <==>
        && (forall i :: 0 <= i < |items| ==> items[i].quantity <= items[i].product.stock)
        && (forall j :: 0 <= j < 4 ==> Proceeds(respond, j))
        && (forall k :: 4 <= k < 4 + |items| ==> respond(k).Created?)
    ensures var a := Submission(items, form, today, billNumber, respond);
      a.outcome.Succeeded? ==> |a.log| == 4 + |items|
  {
    ShortagesExact(items);
    CallsStopAtFirstFailure(items, form, today, billNumber, respond);
    SuccessPath(items, form, today, billNumber, respond);
    var allProceed := Proceeds(respond, 0) && Proceeds(respond, 1) && Proceeds(respond, 2) && Proceeds(respond, 3);
    assert allProceed <==> forall j :: 0 <= j < 4 ==> Proceeds(respond, j);
  }

  /** The submission succeeds exactly on the path where every step proceeds and no detail is rejected. */
  lemma SuccessPath(items: seq<CartItem>, form: CheckoutForm, today: Timestamp,
                    billNumber: string, respond: nat -> Response)
    ensures Submission(items, form, today, billNumber, respond).outcome.Succeeded? <==>
      && Shortages(items) == []
      && Proceeds(respond, 0) && Proceeds(respond, 1) && Proceeds(respond, 2) && Proceeds(respond, 3)
      && FirstRejection(respond, 4, |items|).None?
  {
    if Shortages(items) == [] && Proceeds(respond, 0) && Proceeds(respond, 1) && Proceeds(respond, 2) && Proceeds(respond, 3) {
      FullChainOutcome(items, form, today, billNumber, respond);
    } else {
      BrokenChainFails(items, form, today, billNumber, respond);
    }
  }

  /** Once every step proceeds, the outcome is decided by the detail responses alone. */
  lemma FullChainOutcome(items: seq<CartItem>, form: CheckoutForm, today: Timestamp,
                         billNumber: string, respond: nat -> Response)
    requires Shortages(items) == []
    requires Proceeds(respond, 0) && Proceeds(respond, 1) && Proceeds(respond, 2) && Proceeds(respond, 3)
    ensures Submission(items, form, today, billNumber, respond).outcome.Succeeded? <==>
      FirstRejection(respond, 4, |items|).None?
  {
  }

  /** A short line or a step that does not proceed makes the submission fail. */
  lemma BrokenChainFails(items: seq<CartItem>, form: CheckoutForm, today: Timestamp,
                         billNumber: string, respond: nat -> Response)
    requires !(Shortages(items) == [] && Proceeds(respond, 0) && Proceeds(respond, 1) && Proceeds(respond, 2) && Proceeds(respond, 3))
    ensures Submission(items, form, today, billNumber, respond).outcome.Failed?
  {
  }

  /**
   * Each error a submission can throw has its cause: the stock error exactly
   * when a line is short; a missing-identifier error only when the client,
   * bill or order call was answered without an `id_key`; a service error
   * only with the message of a call that was issued and rejected.
   */
  lemma FailureCauses(items: seq<CartItem>, form: CheckoutForm, today: Timestamp,
                      billNumber: string, respond: nat -> Response)
    ensures var a := Submission(items, form, today, billNumber, respond);
      && (a.outcome == Failed(OutOfStock(Names(Shortages(items)))) <==> Shortages(items) != [])
      && (a.outcome == Failed(ClientNotCreated) ==> respond(0).Created? && ReturnedId(respond(0)).None?)
      && (a.outcome == Failed(BillNotCreated) ==> respond(2).Created? && ReturnedId(respond(2)).None?)
      && (a.outcome == Failed(OrderNotCreated) ==> respond(3).Created? && ReturnedId(respond(3)).None?)
    ensures var a := Submission(items, form, today, billNumber, respond);
      a.outcome.Failed? && a.outcome.error.ServiceError? ==>
        exists k :: 0 <= k < |a.log| && respond(k) == Rejected(a.outcome.error.message)
  {
    var a := Submission(items, form, today, billNumber, respond);
    if a.outcome.Failed? && a.outcome.error.ServiceError? {
      if |a.log| > 4 {
        var m := FirstRejection(respond, 4, |items|);
        assert m.Some?;
        var k :| 4 <= k < 4 + |items| && respond(k) == Rejected(m.value);
        assert 0 <= k < |a.log| && respond(k) == Rejected(a.outcome.error.message);
      } else {
        var k := |a.log| - 1;
        assert 0 <= k < |a.log| && respond(k) == Rejected(a.outcome.error.message);
      }
    }
  }

  // ---------------------------------------------------------------------------
  // The page component
  // ---------------------------------------------------------------------------

  class CheckoutPage {
    /** The cart store the page reads its lines from and clears on success. */
    const cart: CartStore
    /** `isProcessing`: disables the submit button while a submission runs. */
    var isProcessing: bool
    /** Whether the flag was still set when `RunSubmission` returned. */
    ghost var processingDuringCalls: bool
    /** The last toast shown. */
    var toast: Option<Outcome>

    constructor (cart: CartStore)
      ensures this.cart == cart && !isProcessing && toast == None
    {
      this.cart := cart;
      isProcessing := false;
      processingDuringCalls := false;
      toast := None;
    }

    /**
     * `onSubmit`, reachable only through a rendered, valid form: the flag is
     * set, the submission runs on the cart's lines, the cart is cleared only
     * on success, the outcome is toasted, and the flag is reset on every path.
     */
    method OnSubmit(form: CheckoutForm, today: Timestamp, billNumber: string, respond: nat -> Response)
      returns (outcome: Outcome, log: seq<Call>)
      requires RendersForm(cart.items) && FormValid(form)
      modifies this, cart
      ensures Attempt(outcome, log) == Submission(old(cart.items), form, today, billNumber, respond)
      ensures cart.items == if outcome.Succeeded? then [] else old(cart.items)
      ensures toast == Some(outcome)
      ensures !isProcessing && processingDuringCalls
    {
      isProcessing := true;
      outcome, log := RunSubmission(cart.items, form, today, billNumber, respond);
      // `RunSubmission` modifies nothing, so the flag set above is still set when it returns.
      processingDuringCalls := isProcessing;
      if outcome.Succeeded? {
        cart.ClearCart();
      }
      toast := Some(outcome);
      isProcessing := false;
    }
  }
}
