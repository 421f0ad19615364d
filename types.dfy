/**
 * Entity shapes and integer code tables shared by the storefront and the
 * admin dashboard. Every backend entity is keyed by a numeric `id_key`.
 * Money is held in integer cents and dates as integer timestamps.
 */
module Types {

  datatype Option<+T> = None | Some(value: T)

  /** An amount of money in cents. */
  type Cents = int

  /** A calendar date, as a timestamp that orders like the date itself. */
  type Timestamp = int

  // ---------------------------------------------------------------------------
  // Code tables. The backend transmits each of these as a small integer.
  // ---------------------------------------------------------------------------

  datatype DeliveryMethod = DriveThru | OnHand | HomeDelivery {
    /** The wire code of this delivery method. */
    function Code(): (c: int)
      ensures 1 <= c <= 3
    {
      match this
      case DriveThru => 1
      case OnHand => 2
      case HomeDelivery => 3
    }
  }

  /** Decodes a delivery-method code; only 1, 2 and 3 are codes. */
  function DeliveryMethodOf(code: int): (r: Option<DeliveryMethod>)
    ensures r.Some? <==> 1 <= code <= 3
    ensures r.Some? ==> r.value.Code() == code
  {
    if code == 1 then Some(DriveThru)
    else if code == 2 then Some(OnHand)
    else if code == 3 then Some(HomeDelivery)
    else None
  }

  /** Distinct delivery methods have distinct codes, and decoding inverts encoding. */
  lemma DeliveryCodesInjective(m: DeliveryMethod, n: DeliveryMethod)
    ensures DeliveryMethodOf(m.Code()) == Some(m)
    ensures m.Code() == n.Code() ==> m == n
  {
  }

  datatype Status = Pending | InProgress | Delivered | Canceled {
    /** The wire code of this order status; the codes run 1..4 without gaps. */
    function Code(): (c: int)
      ensures 1 <= c <= 4
    {
      match this
      case Pending => 1
      case InProgress => 2
      case Delivered => 3
      case Canceled => 4
    }
  }

  /** Decodes an order-status code; exactly the integers 1..4 are codes. */
  function StatusOf(code: int): (r: Option<Status>)
    ensures r.Some? <==> 1 <= code <= 4
    ensures r.Some? ==> r.value.Code() == code
  {
    if code == 1 then Some(Pending)
    else if code == 2 then Some(InProgress)
    else if code == 3 then Some(Delivered)
    else if code == 4 then Some(Canceled)
    else None
  }

  lemma StatusCodesInjective(s: Status, t: Status)
    ensures StatusOf(s.Code()) == Some(s)
    ensures s.Code() == t.Code() ==> s == t
  {
  }

  /** The four status captions, indexed by `status - 1`. */
  const StatusCaptions: seq<string> := ["PENDING", "IN PROGRESS", "DELIVERED", "CANCELED"]

  /**
   * The caption shown for an order status: because the codes are contiguous
   * from 1, `code - 1` always indexes the four-entry caption table.
   */
  function StatusCaption(s: Status): (caption: string)
    ensures 0 <= s.Code() - 1 < |StatusCaptions|
    ensures s == Pending ==> caption == "PENDING"
    ensures s == Canceled ==> caption == "CANCELED"
  {
    StatusCaptions[s.Code() - 1]
  }

  datatype PaymentType = Cash | Card | Debit | Credit | BankTransfer {
    /** The wire code of this payment type. */
    function Code(): (c: int)
      ensures 1 <= c <= 5
    {
      match this
      case Cash => 1
      case Card => 2
      case Debit => 3
      case Credit => 4
      case BankTransfer => 5
    }
  }

  /** Decodes a payment-type code; exactly the integers 1..5 are codes. */
  function PaymentTypeOf(code: int): (r: Option<PaymentType>)
    ensures r.Some? <==> 1 <= code <= 5
    ensures r.Some? ==> r.value.Code() == code
  {
    if code == 1 then Some(Cash)
    else if code == 2 then Some(Card)
    else if code == 3 then Some(Debit)
    else if code == 4 then Some(Credit)
    else if code == 5 then Some(BankTransfer)
    else None
  }

  lemma PaymentCodesInjective(p: PaymentType, q: PaymentType)
    ensures PaymentTypeOf(p.Code()) == Some(p)
    ensures p.Code() == q.Code() ==> p == q
  {
  }

  // ---------------------------------------------------------------------------
  // Entity records. Code-valued fields hold the raw integer the backend sends.
  // ---------------------------------------------------------------------------

  datatype Category = Category(idKey: int, name: string)

  datatype Product = Product(idKey: int, name: string, price: Cents, stock: int, categoryId: int)

  datatype Address = Address(idKey: int, street: string, number: string, city: string, clientId: int)

  datatype Client = Client(idKey: int, name: string, lastname: string, email: string,
                           telephone: string, addresses: seq<Address>)

  datatype Bill = Bill(idKey: int, billNumber: string, date: Timestamp, total: Cents,
                       paymentType: int, clientId: int, discount: Option<Cents>)

  datatype Order = Order(idKey: int, date: Timestamp, total: Cents, deliveryMethod: int,
                         status: int, clientId: int, billId: int)

  datatype OrderDetail = OrderDetail(idKey: int, quantity: int, price: Option<Cents>,
                                     orderId: int, productId: int)

  datatype Review = Review(idKey: int, rating: int, comment: string, productId: int)

  /** A cart line: the product as it was when added, and how many of it. */
  datatype CartItem = CartItem(product: Product, quantity: int) {
    function IdKey(): int { product.idKey }
  }

  // ---------------------------------------------------------------------------
  // Filtering, shared by the stock check and the dashboard
  // ---------------------------------------------------------------------------

  /**
   * `Array.prototype.filter`: the elements that satisfy `keep`;
   * `FilterMultiplicity` and `FilterAppend` fix how often and in which order.
   */
  function Filter<T(!new)>(s: seq<T>, keep: T -> bool): (r: seq<T>)
    ensures |r| <= |s|
    ensures forall x :: x in r <==> x in s && keep(x)
  {
    if s == [] then []
    else (if keep(s[0]) then [s[0]] else []) + Filter(s[1..], keep)
  }

  /** Each kept element occurs in the result exactly as often as in `s`; the others not at all. */
  lemma {:induction false} FilterMultiplicity<T(!new)>(s: seq<T>, keep: T -> bool)
    ensures forall x :: multiset(Filter(s, keep))[x] == if keep(x) then multiset(s)[x] else 0
  {
    if s != [] {
      FilterMultiplicity(s[1..], keep);
      assert s == [s[0]] + s[1..];
      assert multiset(s) == multiset{s[0]} + multiset(s[1..]);
      var head := if keep(s[0]) then [s[0]] else [];
      assert Filter(s, keep) == head + Filter(s[1..], keep);
      assert multiset(Filter(s, keep)) == multiset(head) + multiset(Filter(s[1..], keep));
    }
  }

  /** Filtering distributes over concatenation: the kept elements stay in their order. */
  lemma {:induction false} FilterAppend<T(!new)>(a: seq<T>, b: seq<T>, keep: T -> bool)
    ensures Filter(a + b, keep) == Filter(a, keep) + Filter(b, keep)
  {
    if a == [] {
      assert a + b == b;
    } else {
      var head := if keep(a[0]) then [a[0]] else [];
      calc {
        Filter(a + b, keep);
      == { assert (a + b)[0] == a[0]; assert (a + b)[1..] == a[1..] + b; }
        head + Filter(a[1..] + b, keep);
      == { FilterAppend(a[1..], b, keep); }
        head + (Filter(a[1..], keep) + Filter(b, keep));
      ==
        (head + Filter(a[1..], keep)) + Filter(b, keep);
      }
    }
  }

  /** A single element is kept exactly when it satisfies `keep`. */
  lemma FilterSingle<T(!new)>(x: T, keep: T -> bool)
    ensures Filter([x], keep) == if keep(x) then [x] else []
  {
    assert [x][1..] == [];
  }

  /** The positions of `s` whose element is kept. */
  function KeptPositions<T>(s: seq<T>, keep: T -> bool): set<int>
  {
    set i | 0 <= i < |s| && keep(s[i])
  }

  /** Extending a sequence by one element adds its position exactly when it is kept. */
  lemma KeptPositionsStep<T>(s: seq<T>, keep: T -> bool)
    requires s != []
    ensures |KeptPositions(s, keep)| ==
      |KeptPositions(s[..|s| - 1], keep)| + (if keep(s[|s| - 1]) then 1 else 0)
  {
    var n := |s| - 1;
    var before := KeptPositions(s[..n], keep);
    forall i ensures i in KeptPositions(s, keep) <==> i in before || (i == n && keep(s[n])) {
      if 0 <= i < n {
        assert s[..n][i] == s[i];
      }
    }
    if keep(s[n]) {
      assert KeptPositions(s, keep) == before + {n};
      assert n !in before;
    } else {
      assert KeptPositions(s, keep) == before;
    }
  }

  /** Extending a sequence by one element lengthens its filtered sequence exactly when that element is kept. */
  lemma FilterStep<T(!new)>(s: seq<T>, keep: T -> bool)
    requires s != []
    ensures |Filter(s, keep)| == |Filter(s[..|s| - 1], keep)| + (if keep(s[|s| - 1]) then 1 else 0)
  {
    var n := |s| - 1;
    var init, last := s[..n], [s[n]];
    calc {
      |Filter(s, keep)|;
    == { assert init + last == s; }
      |Filter(init + last, keep)|;
    == { FilterAppend(init, last, keep); }
      |Filter(init, keep) + Filter(last, keep)|;
    ==
      |Filter(init, keep)| + |Filter(last, keep)|;
    == { FilterSingle(s[n], keep); }
      |Filter(init, keep)| + (if keep(s[n]) then 1 else 0);
    }
  }

  /** The length of a filtered sequence is the number of positions whose element is kept. */
  lemma {:induction false} FilterCount<T(!new)>(s: seq<T>, keep: T -> bool)
    ensures |Filter(s, keep)| == |set i | 0 <= i < |s| && keep(s[i])|
    decreases |s|
  {
    if s == [] {
      assert KeptPositions(s, keep) == {};
    } else {
      FilterCount(s[..|s| - 1], keep);
      FilterStep(s, keep);
      KeptPositionsStep(s, keep);
    }
  }
}
