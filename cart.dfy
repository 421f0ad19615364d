/**
 * The cart store: one state cell holding the cart lines, replaced wholesale
 * by each operation. The per-operation transforms are pure functions on the
 * line sequence; `CartStore` is the state cell and its four mutators.
 */
module Cart {
  import opened Types

  /** Some line of the cart carries product `id`. */
  predicate HasLine(items: seq<CartItem>, id: int)
  {
    exists i :: 0 <= i < |items| && items[i].IdKey() == id
  }

  /** The invariant the cart keeps: at most one line per product `id_key`. */
  predicate DistinctIds(items: seq<CartItem>)
  {
    forall i, j :: 0 <= i < j < |items| ==> items[i].IdKey() != items[j].IdKey()
  }

  /** Every line holds at least one unit. */
  predicate PositiveQuantities(items: seq<CartItem>)
  {
    forall i :: 0 <= i < |items| ==> items[i].quantity >= 1
  }

  /** Number of lines carrying product `id`. */
  function LinesWithId(items: seq<CartItem>, id: int): nat
  {
    if items == [] then 0
    else LinesWithId(items[..|items| - 1], id) + (if items[|items| - 1].IdKey() == id then 1 else 0)
  }

  /** The line `item`, with `extra` more units when it carries product `id`. */
  function Bumped(item: CartItem, id: int, extra: int): CartItem
  {
    if item.IdKey() == id then item.(quantity := item.quantity + extra) else item
  }

  /** The line `item`, its quantity set to `q` when it carries product `id`. */
  function Requantified(item: CartItem, id: int, q: int): CartItem
  {
    if item.IdKey() == id then item.(quantity := q) else item
  }

  /**
   * `addToCart`: when a line for the product exists, every line with that
   * `id_key` grows by `quantity` (keeping its add-time snapshot); otherwise
   * the product is appended with `quantity`.
   */
  function AddLine(items: seq<CartItem>, product: Product, quantity: int): (r: seq<CartItem>)
    ensures |r| == |items| + (if HasLine(items, product.idKey) then 0 else 1)
    ensures forall i :: 0 <= i < |items| ==> r[i].product == items[i].product
  {
    if HasLine(items, product.idKey) then
      seq(|items|, i requires 0 <= i < |items| => Bumped(items[i], product.idKey, quantity))
    else
      items + [CartItem(product, quantity)]
  }

  /** `removeFromCart`: keeps, in order, the lines whose `id_key` differs from `id`. */
  function RemoveLine(items: seq<CartItem>, id: int): (r: seq<CartItem>)
    ensures |r| <= |items|
    ensures forall i :: 0 <= i < |r| ==> r[i].IdKey() != id
  {
    if items == [] then []
    else if items[0].IdKey() == id then RemoveLine(items[1..], id)
    else [items[0]] + RemoveLine(items[1..], id)
  }

  /** `updateQuantity`: a quantity below 1 is ignored; otherwise matching lines take `quantity`. */
  function UpdateLine(items: seq<CartItem>, id: int, quantity: int): (r: seq<CartItem>)
    ensures |r| == |items|
    ensures forall i :: 0 <= i < |items| ==> r[i].product == items[i].product
  {
    if quantity < 1 then items
    else seq(|items|, i requires 0 <= i < |items| => Requantified(items[i], id, quantity))
  }

  /** `total`: the left fold of price × quantity over the lines, starting from 0. */
  function LinesTotal(items: seq<CartItem>): (t: Cents)
    ensures items == [] ==> t == 0
    ensures |items| == 1 ==> t == items[0].product.price * items[0].quantity
  {
    if items == [] then 0
    else LinesTotal(items[..|items| - 1]) + items[|items| - 1].product.price * items[|items| - 1].quantity
  }

  /** The add-time line of product `id`, for a cart that has one. */
  function LineOf(items: seq<CartItem>, id: int): (line: CartItem)
    requires HasLine(items, id)
    ensures line in items && line.IdKey() == id
  {
    if items[0].IdKey() == id then items[0] else LineOf(items[1..], id)
  }

  // ---------------------------------------------------------------------------
  // addToCart
  // ---------------------------------------------------------------------------

  /**
   * Adding a product already in the cart keeps the length, grows only the
   * matching line by `quantity`, keeps its add-time product snapshot (price
   * included), and leaves every other line as it was.
   */
  lemma AddExisting(items: seq<CartItem>, product: Product, quantity: int)
    requires HasLine(items, product.idKey)
    ensures |AddLine(items, product, quantity)| == |items|
    ensures forall i :: 0 <= i < |items| && items[i].IdKey() == product.idKey ==>
      AddLine(items, product, quantity)[i] == CartItem(items[i].product, items[i].quantity + quantity)
    ensures forall i :: 0 <= i < |items| && items[i].IdKey() != product.idKey ==>
      AddLine(items, product, quantity)[i] == items[i]
  {
  }

  /** Adding a product with a new `id_key` appends `{...product, quantity}` and keeps the earlier lines. */
  lemma AddNew(items: seq<CartItem>, product: Product, quantity: int)
    requires !HasLine(items, product.idKey)
    ensures AddLine(items, product, quantity)[..|items|] == items
    ensures AddLine(items, product, quantity) == items + [CartItem(product, quantity)]
  {
  }

  /** Adding never creates a second line for a product. */
  lemma AddKeepsDistinct(items: seq<CartItem>, product: Product, quantity: int)
    requires DistinctIds(items)
    ensures DistinctIds(AddLine(items, product, quantity))
    ensures HasLine(AddLine(items, product, quantity), product.idKey)
  {
    var r := AddLine(items, product, quantity);
    if HasLine(items, product.idKey) {
      assert forall i :: 0 <= i < |r| ==> r[i].IdKey() == items[i].IdKey();
      var k :| 0 <= k < |items| && items[k].IdKey() == product.idKey;
      assert r[k].IdKey() == product.idKey;
    } else {
      assert r[|items|].IdKey() == product.idKey;
    }
  }

  /** With a positive added quantity, every line keeps at least one unit. */
  lemma AddKeepsPositive(items: seq<CartItem>, product: Product, quantity: int)
    requires PositiveQuantities(items) && quantity >= 1
    ensures PositiveQuantities(AddLine(items, product, quantity))
  {
  }

  /**
   * The total grows by `quantity` units at the add-time price of the line:
   * the existing line's snapshot when there is one, the product's price otherwise.
   */
  lemma {:induction false} AddTotal(items: seq<CartItem>, product: Product, quantity: int)
    requires DistinctIds(items)
    ensures HasLine(items, product.idKey) ==>
      LinesTotal(AddLine(items, product, quantity))
        == LinesTotal(items) + LineOf(items, product.idKey).product.price * quantity
    ensures !HasLine(items, product.idKey) ==>
      LinesTotal(AddLine(items, product, quantity)) == LinesTotal(items) + product.price * quantity
  {
    if HasLine(items, product.idKey) {
      var k :| 0 <= k < |items| && items[k].IdKey() == product.idKey;
      LineOfUnique(items, product.idKey, k);
      var r := AddLine(items, product, quantity);
      TotalOfPointwise(items, r, k, items[k].product.price * quantity);
    } else {
      var r := AddLine(items, product, quantity);
      assert r[..|r| - 1] == items;
    }
  }

  /** In a cart without duplicate ids, the line found for `id` is the one at any index carrying `id`. */
  lemma {:induction false} LineOfUnique(items: seq<CartItem>, id: int, k: nat)
    requires DistinctIds(items) && k < |items| && items[k].IdKey() == id
    ensures HasLine(items, id) && LineOf(items, id) == items[k]
  {
    if k > 0 {
      assert items[0].IdKey() != id;
      assert items[1..][k - 1] == items[k];
      LineOfUnique(items[1..], id, k - 1);
    }
  }

  /**
   * Two carts of the same length that agree everywhere except at line `k`,
   * whose price is the same and whose contribution differs by `delta`,
   * differ in total by `delta`.
   */
  lemma {:induction false} TotalOfPointwise(a: seq<CartItem>, b: seq<CartItem>, k: nat, delta: int)
    requires |a| == |b| && k < |a|
    requires forall i :: 0 <= i < |a| && i != k ==> a[i] == b[i]
    requires b[k].product.price * b[k].quantity == a[k].product.price * a[k].quantity + delta
    ensures LinesTotal(b) == LinesTotal(a) + delta
    decreases |a|
  {
    var n := |a| - 1;
    if k == n {
      assert a[..n] == b[..n];
    } else {
      TotalOfPointwise(a[..n], b[..n], k, delta);
    }
  }

  // ---------------------------------------------------------------------------
  // removeFromCart
  // ---------------------------------------------------------------------------

  /** After removal no line carries `id`, and every line left was in the cart. */
  lemma {:induction false} RemoveDropsId(items: seq<CartItem>, id: int)
    ensures !HasLine(RemoveLine(items, id), id)
    ensures forall x :: x in RemoveLine(items, id) ==> x in items && x.IdKey() != id
    ensures forall x :: x in items && x.IdKey() != id ==> x in RemoveLine(items, id)
  {
    if items != [] {
      RemoveDropsId(items[1..], id);
      assert forall x :: x in items ==> x == items[0] || x in items[1..];
    }
  }

  /** Removal keeps the relative order of the other lines: it distributes over concatenation. */
  lemma {:induction false} RemoveDistributes(a: seq<CartItem>, b: seq<CartItem>, id: int)
    ensures RemoveLine(a + b, id) == RemoveLine(a, id) + RemoveLine(b, id)
  {
    if a != [] {
      assert (a + b)[1..] == a[1..] + b;
      RemoveDistributes(a[1..], b, id);
    } else {
      assert a + b == b;
    }
  }

  /** Removing an id that no line carries leaves the cart as it was. */
  lemma {:induction false} RemoveAbsent(items: seq<CartItem>, id: int)
    requires !HasLine(items, id)
    ensures RemoveLine(items, id) == items
  {
    if items != [] {
      assert items[0].IdKey() != id;
      assert !HasLine(items[1..], id) by {
        forall i | 0 <= i < |items| - 1 ensures items[1..][i].IdKey() != id {
          assert items[1..][i] == items[i + 1];
        }
      }
      RemoveAbsent(items[1..], id);
      assert [items[0]] + items[1..] == items;
    }
  }

  /** Removal drops exactly the lines carrying `id`. */
  lemma {:induction false} RemoveLength(items: seq<CartItem>, id: int)
    ensures |RemoveLine(items, id)| == |items| - LinesWithId(items, id)
  {
    if items != [] {
      var n := |items| - 1;
      assert items == items[..n] + [items[n]];
      RemoveDistributes(items[..n], [items[n]], id);
      RemoveLength(items[..n], id);
    }
  }

  /** Removal cannot create a duplicate. */
  lemma {:induction false} RemoveKeepsDistinct(items: seq<CartItem>, id: int)
    requires DistinctIds(items)
    ensures DistinctIds(RemoveLine(items, id))
  {
    if items != [] {
      var rest := items[1..];
      DistinctTail(items);
      RemoveKeepsDistinct(rest, id);
      RemoveDropsId(rest, id);
      if items[0].IdKey() != id {
        DistinctCons(items[0], RemoveLine(rest, id));
      }
    }
  }

  /** Behind the first line of a cart with distinct ids, ids are distinct and differ from the first. */
  lemma DistinctTail(items: seq<CartItem>)
    requires DistinctIds(items) && items != []
    ensures DistinctIds(items[1..])
    ensures forall x :: x in items[1..] ==> x.IdKey() != items[0].IdKey()
  {
    var rest := items[1..];
    forall i, j | 0 <= i < j < |rest| ensures rest[i].IdKey() != rest[j].IdKey() {
      assert rest[i] == items[i + 1] && rest[j] == items[j + 1];
    }
    forall x | x in rest ensures x.IdKey() != items[0].IdKey() {
      var m :| 0 <= m < |rest| && rest[m] == x;
      assert items[m + 1] == x;
    }
  }

  /** A line whose id no other line carries can go in front of a cart with distinct ids. */
  lemma DistinctCons(head: CartItem, tail: seq<CartItem>)
    requires DistinctIds(tail)
    requires forall x :: x in tail ==> x.IdKey() != head.IdKey()
    ensures DistinctIds([head] + tail)
  {
    var r := [head] + tail;
    forall i, j | 0 <= i < j < |r| ensures r[i].IdKey() != r[j].IdKey() {
      assert r[j] == tail[j - 1];
      if i > 0 {
        assert r[i] == tail[i - 1];
      }
    }
  }

  /** Removal keeps every remaining line positive. */
  lemma {:induction false} RemoveKeepsPositive(items: seq<CartItem>, id: int)
    requires PositiveQuantities(items)
    ensures PositiveQuantities(RemoveLine(items, id))
  {
    RemoveDropsId(items, id);
    var r := RemoveLine(items, id);
    forall i | 0 <= i < |r| ensures r[i].quantity >= 1 {
      assert r[i] in items;
    }
  }

  /** The total drops by exactly the removed lines' contributions. */
  lemma {:induction false} RemoveTotal(items: seq<CartItem>, id: int)
    requires DistinctIds(items)
    ensures HasLine(items, id) ==>
      LinesTotal(RemoveLine(items, id))
        == LinesTotal(items) - LineOf(items, id).product.price * LineOf(items, id).quantity
    ensures !HasLine(items, id) ==> LinesTotal(RemoveLine(items, id)) == LinesTotal(items)
  {
    if HasLine(items, id) {
      var k :| 0 <= k < |items| && items[k].IdKey() == id;
      LineOfUnique(items, id, k);
      RemoveSplit(items, id, k);
      var before, after := items[..k], items[k + 1..];
      TotalAppend(before + [items[k]], after);
      TotalAppend(before, [items[k]]);
      TotalAppend(before, after);
      assert [items[k]][..0] == [];
    } else {
      RemoveAbsent(items, id);
    }
  }

  /** In a cart without duplicates, removing the id of line `k` leaves the lines before and after it. */
  lemma {:induction false} RemoveSplit(items: seq<CartItem>, id: int, k: nat)
    requires DistinctIds(items) && k < |items| && items[k].IdKey() == id
    ensures items == items[..k] + [items[k]] + items[k + 1..]
    ensures RemoveLine(items, id) == items[..k] + items[k + 1..]
  {
    var before, after := items[..k], items[k + 1..];
    assert items == before + [items[k]] + after;
    AbsentAround(items, id, k);
    RemoveDistributes(before + [items[k]], after, id);
    RemoveDistributes(before, [items[k]], id);
    RemoveAbsent(before, id);
    RemoveAbsent(after, id);
    assert RemoveLine([items[k]], id) == [];
  }

  /** In a cart without duplicates, no line other than `k` has line `k`'s id. */
  lemma AbsentAround(items: seq<CartItem>, id: int, k: nat)
    requires DistinctIds(items) && k < |items| && items[k].IdKey() == id
    ensures !HasLine(items[..k], id) && !HasLine(items[k + 1..], id)
  {
    var before, after := items[..k], items[k + 1..];
    forall i | 0 <= i < |before| ensures before[i].IdKey() != id { assert before[i] == items[i]; }
    forall i | 0 <= i < |after| ensures after[i].IdKey() != id { assert after[i] == items[k + 1 + i]; }
  }

  /** The total of a concatenation is the sum of the totals. */
  lemma {:induction false} TotalAppend(a: seq<CartItem>, b: seq<CartItem>)
    ensures LinesTotal(a + b) == LinesTotal(a) + LinesTotal(b)
    decreases |b|
  {
    if b == [] {
      assert a + b == a;
    } else {
      var n := |b| - 1;
      assert (a + b)[..|a + b| - 1] == a + b[..n];
      TotalAppend(a, b[..n]);
    }
  }

  // ---------------------------------------------------------------------------
  // updateQuantity and clearCart
  // ---------------------------------------------------------------------------

  /** A quantity below 1 leaves the cart completely unchanged. */
  lemma UpdateBelowOneIgnored(items: seq<CartItem>, id: int, quantity: int)
    requires quantity < 1
    ensures UpdateLine(items, id, quantity) == items
  {
  }

  /**
   * A quantity of at least 1 sets the matching line's quantity and nothing
   * else: the length, the order and every product snapshot are kept.
   */
  lemma UpdateSetsQuantity(items: seq<CartItem>, id: int, quantity: int)
    requires quantity >= 1
    ensures |UpdateLine(items, id, quantity)| == |items|
    ensures forall i :: 0 <= i < |items| ==>
      UpdateLine(items, id, quantity)[i].product == items[i].product
    ensures forall i :: 0 <= i < |items| ==>
      UpdateLine(items, id, quantity)[i].quantity
        == (if items[i].IdKey() == id then quantity else items[i].quantity)
  {
  }

  /** Updating keeps the ids, hence their distinctness, and keeps quantities positive. */
  lemma UpdateKeepsInvariant(items: seq<CartItem>, id: int, quantity: int)
    ensures DistinctIds(items) ==> DistinctIds(UpdateLine(items, id, quantity))
    ensures PositiveQuantities(items) ==> PositiveQuantities(UpdateLine(items, id, quantity))
  {
  }

  /** Setting line `id` to `quantity` changes the total by the quantity difference at its snapshot price. */
  lemma {:induction false} UpdateTotal(items: seq<CartItem>, id: int, quantity: int)
    requires DistinctIds(items) && quantity >= 1 && HasLine(items, id)
    ensures LinesTotal(UpdateLine(items, id, quantity))
      == LinesTotal(items) + LineOf(items, id).product.price * (quantity - LineOf(items, id).quantity)
  {
    var k :| 0 <= k < |items| && items[k].IdKey() == id;
    LineOfUnique(items, id, k);
    var r := UpdateLine(items, id, quantity);
    var p := items[k].product.price;
    assert p * quantity == p * items[k].quantity + p * (quantity - items[k].quantity);
    TotalOfPointwise(items, r, k, p * (quantity - items[k].quantity));
  }

  /** A cart with no lines totals 0, and every cart with lines of non-negative value totals at least 0. */
  lemma {:induction false} TotalNonNegative(items: seq<CartItem>)
    ensures (forall i :: 0 <= i < |items| ==> items[i].product.price >= 0 && items[i].quantity >= 0) ==>
      LinesTotal(items) >= 0
    ensures items == [] ==> LinesTotal(items) == 0
  {
    if items != [] {
      TotalNonNegative(items[..|items| - 1]);
    }
  }

  // ---------------------------------------------------------------------------
  // The state cell
  // ---------------------------------------------------------------------------

  /** The cart invariant: one line per product, each holding at least one unit. */
  predicate WellFormed(items: seq<CartItem>)
  {
    DistinctIds(items) && PositiveQuantities(items)
  }

  class CartStore {
    /** The `items` state cell. */
    var items: seq<CartItem>

    /**
     * Initialisation from local storage: `saved` is the parsed stored cart,
     * or None when nothing is stored or it does not parse; then the cart is empty.
     */
    constructor (saved: Option<seq<CartItem>>)
      ensures items == (if saved.Some? then saved.value else [])
    {
      items := if saved.Some? then saved.value else [];
    }

    /** `total`: Σ price × quantity over the lines; never negative when no line has a negative value. */
    function Total(): (t: Cents)
      reads this
      ensures (forall i :: 0 <= i < |items| ==> items[i].product.price >= 0 && items[i].quantity >= 0) ==> t >= 0
    {
      TotalNonNegative(items);
      LinesTotal(items)
    }

    method AddToCart(product: Product, quantity: int := 1)
      modifies this
      ensures items == AddLine(old(items), product, quantity)
      ensures DistinctIds(old(items)) ==> DistinctIds(items)
      ensures WellFormed(old(items)) && quantity >= 1 ==> WellFormed(items)
      ensures DistinctIds(old(items)) && !HasLine(old(items), product.idKey) ==>
        Total() == old(Total()) + product.price * quantity
    {
      if DistinctIds(items) {
        AddKeepsDistinct(items, product, quantity);
        AddTotal(items, product, quantity);
      }
      if PositiveQuantities(items) && quantity >= 1 {
        AddKeepsPositive(items, product, quantity);
      }
      items := AddLine(items, product, quantity);
    }

    method RemoveFromCart(productId: int)
      modifies this
      ensures items == RemoveLine(old(items), productId)
      ensures !HasLine(items, productId)
      ensures WellFormed(old(items)) ==> WellFormed(items)
      ensures !HasLine(old(items), productId) ==> items == old(items)
    {
      RemoveDropsId(items, productId);
      if DistinctIds(items) { RemoveKeepsDistinct(items, productId); }
      if PositiveQuantities(items) { RemoveKeepsPositive(items, productId); }
      if !HasLine(items, productId) { RemoveAbsent(items, productId); }
      items := RemoveLine(items, productId);
    }

    method UpdateQuantity(productId: int, quantity: int)
      modifies this
      ensures items == UpdateLine(old(items), productId, quantity)
      ensures quantity < 1 ==> items == old(items)
      ensures WellFormed(old(items)) ==> WellFormed(items)
    {
      if quantity < 1 {
        return;
      }
      UpdateKeepsInvariant(items, productId, quantity);
      items := UpdateLine(items, productId, quantity);
    }

    method ClearCart()
      modifies this
      ensures items == [] && Total() == 0
      ensures WellFormed(items)
    {
      items := [];
    }
  }
}
