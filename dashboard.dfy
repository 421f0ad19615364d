/**
 * The admin dashboard's statistics: pure computations over the fetched
 * lists of products, categories, clients, orders and bills. Sorting works
 * on copies; the fetched lists are never reordered.
 */
module Dashboard {
  import opened Types

  /** A product with fewer units than this is low on stock. */
  const LowStockThreshold: int := 10
  /** How many low-stock products the alert list shows. */
  const LowStockAlertCount: nat := 5
  /** How many orders the recent-orders list shows. */
  const RecentOrderCount: nat := 5
  /** How many bills the revenue chart shows. */
  const TrendLength: nat := 7

  function Min(a: nat, b: nat): nat
  {
    if a <= b then a else b
  }

  // ---------------------------------------------------------------------------
  // Key figures
  // ---------------------------------------------------------------------------

  /** `totalRevenue`: the left fold of the bill totals, starting from 0. */
  function Revenue(bills: seq<Bill>): (total: Cents)
    ensures bills == [] ==> total == 0
    ensures |bills| == 1 ==> total == bills[0].total
  {
    if bills == [] then 0 else Revenue(bills[..|bills| - 1]) + bills[|bills| - 1].total
  }

  /** Revenue is additive over concatenation; with no bills it is 0. */
  lemma {:induction false} RevenueAppend(a: seq<Bill>, b: seq<Bill>)
    ensures Revenue(a + b) == Revenue(a) + Revenue(b)
    ensures Revenue([]) == 0
    decreases |b|
  {
    if b != [] {
      var n := |b| - 1;
      assert (a + b)[..|a + b| - 1] == a + b[..n];
      RevenueAppend(a, b[..n]);
    } else {
      assert a + b == a;
    }
  }

  /** Revenue does not depend on the order of the bills. */
  lemma {:induction false} RevenueOrderFree(a: seq<Bill>, b: seq<Bill>)
    requires multiset(a) == multiset(b)
    ensures Revenue(a) == Revenue(b)
    decreases |a|
  {
    if a != [] {
      var n := |a| - 1;
      var last := a[n];
      assert a == a[..n] + [last];
      assert multiset(a[..n]) == multiset(a) - multiset{last};
      assert last in multiset(b);
      var k :| 0 <= k < |b| && b[k] == last;
      RevenueWithout(b, k);
      MultisetWithout(b, k);
      RevenueOrderFree(a[..n], b[..k] + b[k + 1..]);
    }
  }

  /** Taking bill `k` out lowers the revenue by exactly its total. */
  lemma RevenueWithout(b: seq<Bill>, k: nat)
    requires k < |b|
    ensures Revenue(b) == Revenue(b[..k] + b[k + 1..]) + b[k].total
  {
    var upTo := b[..k + 1];
    RevenueAppend(upTo, b[k + 1..]);
    assert upTo + b[k + 1..] == b;
    assert upTo[..k] == b[..k];
    RevenueAppend(b[..k], b[k + 1..]);
  }

  /** Removing the element at `k` removes one occurrence of it from the multiset. */
  lemma MultisetWithout<T>(s: seq<T>, k: nat)
    requires k < |s|
    ensures multiset(s[..k] + s[k + 1..]) == multiset(s) - multiset{s[k]}
  {
    var rest := s[..k] + s[k + 1..];
    assert s == s[..k] + [s[k]] + s[k + 1..];
    assert multiset(s) == multiset(rest) + multiset{s[k]};
    assert multiset(rest) == (multiset(rest) + multiset{s[k]}) - multiset{s[k]};
  }

  /** The low-stock test of the count and the alert list: fewer than ten units. */
  predicate IsLowStock(p: Product)
  {
    p.stock < LowStockThreshold
  }

  /** `lowStockCount`: how many products are low on stock. */
  function LowStockCount(products: seq<Product>): (n: nat)
    ensures n == |set i | 0 <= i < |products| && products[i].stock < 10|
    ensures n <= |products|
    ensures n == 0 <==> forall p :: p in products ==> p.stock >= 10
  {
    var low := Filter(products, IsLowStock);
    assert low != [] ==> low[0] in low;
    FilterCount(products, IsLowStock);
    assert KeptPositions(products, IsLowStock) == set i | 0 <= i < |products| && products[i].stock < 10 by {
      forall i ensures i in KeptPositions(products, IsLowStock) <==> 0 <= i < |products| && products[i].stock < 10 {}
    }
    |low|
  }

  /** The alert list: the first min(5, lowStockCount) low-stock products, in product order. */
  function LowStockAlerts(products: seq<Product>): (r: seq<Product>)
    ensures |r| == Min(LowStockAlertCount, LowStockCount(products))
    ensures forall p :: p in r ==> p in products && p.stock < 10
    ensures r <= Filter(products, IsLowStock)
  {
    var low := Filter(products, IsLowStock);
    var r := low[..Min(LowStockAlertCount, |low|)];
    assert forall p :: p in r ==> p in low by {
      forall p | p in r ensures p in low {
        var i :| 0 <= i < |r| && r[i] == p;
        assert low[i] == p;
      }
    }
    r
  }

  datatype Kpis = Kpis(totalRevenue: Cents, totalOrders: nat, totalClients: nat,
                       totalProducts: nat, lowStockCount: nat)

  /** The four KPI cards and the low-stock badge. */
  function KpisOf(products: seq<Product>, clients: seq<Client>, orders: seq<Order>, bills: seq<Bill>): (k: Kpis)
    ensures k.totalOrders == |orders| && k.totalClients == |clients| && k.totalProducts == |products|
    ensures k.lowStockCount <= k.totalProducts
    ensures k.totalRevenue == Revenue(bills) && k.lowStockCount == LowStockCount(products)
    ensures bills == [] ==> k.totalRevenue == 0
    ensures (forall b :: b in bills ==> b.total >= 0) ==> k.totalRevenue >= 0
  {
    RevenueNonNegative(bills);
    Kpis(Revenue(bills), |orders|, |clients|, |products|, LowStockCount(products))
  }

  lemma {:induction false} RevenueNonNegative(bills: seq<Bill>)
    ensures (forall b :: b in bills ==> b.total >= 0) ==> Revenue(bills) >= 0
  {
    if bills != [] {
      var n := |bills| - 1;
      assert forall b :: b in bills[..n] ==> b in bills;
      RevenueNonNegative(bills[..n]);
      assert bills[n] in bills;
    }
  }

  // ---------------------------------------------------------------------------
  // Products per category
  // ---------------------------------------------------------------------------

  datatype CategorySlice = CategorySlice(name: string, value: nat)

  /** How many products belong to category `id`. */
  function CategoryCount(products: seq<Product>, id: int): (n: nat)
    ensures n == |set i | 0 <= i < |products| && products[i].categoryId == id|
    ensures n <= |products|
    ensures n > 0 <==> exists p :: p in products && p.categoryId == id
  {
    var inCategory := (p: Product) => p.categoryId == id;
    var members := Filter(products, inCategory);
    assert members != [] ==> members[0] in members;
    FilterCount(products, inCategory);
    assert KeptPositions(products, inCategory) == set i | 0 <= i < |products| && products[i].categoryId == id by {
      forall i ensures i in KeptPositions(products, inCategory) <==> 0 <= i < |products| && products[i].categoryId == id {}
    }
    |members|
  }

  /** The chart entry for one category: its name and its product count. */
  function SliceOf(products: seq<Product>, c: Category): CategorySlice
  {
    CategorySlice(c.name, CategoryCount(products, c.idKey))
  }

  /** `categories.map(...)`: one entry per category, in category order. */
  function Slices(categories: seq<Category>, products: seq<Product>): (r: seq<CategorySlice>)
    ensures |r| == |categories|
    ensures forall i :: 0 <= i < |r| ==> r[i] == SliceOf(products, categories[i])
  {
    seq(|categories|, i requires 0 <= i < |categories| => SliceOf(products, categories[i]))
  }

  /** The chart's `item.value > 0` test. */
  predicate HasProducts(slice: CategorySlice)
  {
    slice.value > 0
  }

  /**
   * `productsByCategory`: one slice per category with products, with its
   * name and product count; `ProductsByCategoryAppend` fixes their order.
   */
  function ProductsByCategory(categories: seq<Category>, products: seq<Product>): (r: seq<CategorySlice>)
    ensures |r| == |set i | 0 <= i < |categories| && CategoryCount(products, categories[i].idKey) > 0|
    ensures |r| <= |categories|
    ensures forall s :: s in r ==> s.value > 0
    ensures forall s :: s in r ==>
      exists c :: c in categories && s == CategorySlice(c.name, CategoryCount(products, c.idKey))
    ensures forall c :: c in categories && CategoryCount(products, c.idKey) > 0 ==>
      CategorySlice(c.name, CategoryCount(products, c.idKey)) in r
  {
    var all := Slices(categories, products);
    SliceCount(categories, products);
    SliceMembers(categories, products);
    Filter(all, HasProducts)
  }

  /** As many categories have products as there are slices with a positive count. */
  lemma SliceCount(categories: seq<Category>, products: seq<Product>)
    ensures |Filter(Slices(categories, products), HasProducts)|
         == |set i | 0 <= i < |categories| && CategoryCount(products, categories[i].idKey) > 0|
  {
    var all := Slices(categories, products);
    FilterCount(all, HasProducts);
    assert KeptPositions(all, HasProducts)
        == set i | 0 <= i < |categories| && CategoryCount(products, categories[i].idKey) > 0 by {
      forall i ensures i in KeptPositions(all, HasProducts)
        <==> 0 <= i < |categories| && CategoryCount(products, categories[i].idKey) > 0 {}
    }
  }

  /** The mapped slices are exactly the slices of the categories. */
  lemma SliceMembers(categories: seq<Category>, products: seq<Product>)
    ensures forall s :: s in Slices(categories, products) ==>
      exists c :: c in categories && s == CategorySlice(c.name, CategoryCount(products, c.idKey))
    ensures forall c :: c in categories ==>
      CategorySlice(c.name, CategoryCount(products, c.idKey)) in Slices(categories, products)
  {
    var all := Slices(categories, products);
    forall s | s in all
      ensures exists c :: c in categories && s == CategorySlice(c.name, CategoryCount(products, c.idKey))
    {
      var i :| 0 <= i < |all| && all[i] == s;
      assert categories[i] in categories;
    }
    forall c | c in categories
      ensures CategorySlice(c.name, CategoryCount(products, c.idKey)) in all
    {
      var i :| 0 <= i < |categories| && categories[i] == c;
      assert all[i] in all;
    }
  }

  /**
   * The chart keeps category order: the slices for two lists of categories
   * are the slices for the first followed by those for the second.
   */
  lemma ProductsByCategoryAppend(c1: seq<Category>, c2: seq<Category>, products: seq<Product>)
    ensures ProductsByCategory(c1 + c2, products) == ProductsByCategory(c1, products) + ProductsByCategory(c2, products)
  {
    SlicesAppend(c1, c2, products);
    FilterAppend(Slices(c1, products), Slices(c2, products), HasProducts);
  }

  /** Mapping categories to slices distributes over concatenation. */
  lemma SlicesAppend(c1: seq<Category>, c2: seq<Category>, products: seq<Product>)
    ensures Slices(c1 + c2, products) == Slices(c1, products) + Slices(c2, products)
  {
    var joined, left, right := Slices(c1 + c2, products), Slices(c1, products), Slices(c2, products);
    forall i | 0 <= i < |joined| ensures joined[i] == (left + right)[i] {
      if i < |c1| {
        assert (c1 + c2)[i] == c1[i];
      } else {
        assert (c1 + c2)[i] == c2[i - |c1|];
      }
    }
  }

  /** A single category gives its slice exactly when it has products. */
  lemma ProductsByCategorySingle(c: Category, products: seq<Product>)
    ensures ProductsByCategory([c], products) ==
      if CategoryCount(products, c.idKey) > 0 then [CategorySlice(c.name, CategoryCount(products, c.idKey))] else []
  {
    assert Slices([c], products) == [SliceOf(products, c)];
    FilterSingle(SliceOf(products, c), HasProducts);
  }

  // ---------------------------------------------------------------------------
  // Sorting copies by a key (a stable insertion sort)
  // ---------------------------------------------------------------------------

  predicate SortedBy<T>(s: seq<T>, key: T -> int)
  {
    forall i, j :: 0 <= i < j < |s| ==> key(s[i]) <= key(s[j])
  }

  /** Inserts `x` before the first element whose key is not smaller. */
  function InsertBy<T(!new)>(x: T, s: seq<T>, key: T -> int): (r: seq<T>)
    requires SortedBy(s, key)
    ensures SortedBy(r, key)
    ensures multiset(r) == multiset(s) + multiset{x}
  {
    if s == [] || key(x) <= key(s[0]) then
      LeastFirst(s, key);
      ConsSorted(x, s, key);
      [x] + s
    else
      var rest := InsertBy(x, s[1..], key);
      InsertBehind(x, s, rest, key);
      [s[0]] + rest
  }

  /** Inserting behind a head whose key is below `x`'s keeps the head in front. */
  lemma InsertBehind<T>(x: T, s: seq<T>, rest: seq<T>, key: T -> int)
    requires SortedBy(s, key) && s != [] && key(s[0]) < key(x)
    requires SortedBy(rest, key) && multiset(rest) == multiset(s[1..]) + multiset{x}
    ensures SortedBy([s[0]] + rest, key)
    ensures multiset([s[0]] + rest) == multiset(s) + multiset{x}
  {
    assert s == [s[0]] + s[1..];
    LeastFirst(s, key);
    MembersOfInsert(rest, s[1..], x);
    ConsSorted(s[0], rest, key);
  }

  /** In a sorted sequence the first element has the least key. */
  lemma LeastFirst<T>(s: seq<T>, key: T -> int)
    requires SortedBy(s, key)
    ensures s != [] ==> forall y :: y in s ==> key(s[0]) <= key(y)
  {
  }

  /** Putting an element no greater than any other in front keeps a sequence sorted. */
  lemma ConsSorted<T>(h: T, t: seq<T>, key: T -> int)
    requires SortedBy(t, key)
    requires forall y :: y in t ==> key(h) <= key(y)
    ensures SortedBy([h] + t, key)
  {
    var r := [h] + t;
    forall i, j | 0 <= i < j < |r| ensures key(r[i]) <= key(r[j]) {
      assert r[j] == t[j - 1];
      if i > 0 {
        assert r[i] == t[i - 1];
      }
    }
  }

  /** The members of `s` with `x` added are `x` and the members of `s`. */
  lemma MembersOfInsert<T>(r: seq<T>, s: seq<T>, x: T)
    requires multiset(r) == multiset(s) + multiset{x}
    ensures forall y :: y in r ==> y == x || y in s
  {
    forall y | y in r ensures y == x || y in s {
      assert y in multiset(r);
    }
  }

  /** The elements of `s` in ascending key order; equal keys keep their order. */
  function SortBy<T(!new)>(s: seq<T>, key: T -> int): (r: seq<T>)
    ensures SortedBy(r, key)
    ensures multiset(r) == multiset(s)
    ensures |r| == |s|
  {
    if s == [] then []
    else
      assert s == [s[0]] + s[1..];
      InsertBy(s[0], SortBy(s[1..], key), key)
  }

  /** Cutting a sorted sequence at `k`: nothing after the cut has a smaller key than anything before it. */
  lemma SortedCut<T>(s: seq<T>, key: T -> int, k: nat)
    requires SortedBy(s, key) && k <= |s|
    ensures multiset(s[..k]) + multiset(s[k..]) == multiset(s)
    ensures forall x, y :: x in s[..k] && y in s[k..] ==> key(x) <= key(y)
  {
    assert s == s[..k] + s[k..];
    forall x, y | x in s[..k] && y in s[k..] ensures key(x) <= key(y) {
      var i :| 0 <= i < k && s[..k][i] == x;
      var j :| 0 <= j < |s| - k && s[k..][j] == y;
      assert s[i] == x && s[k + j] == y;
    }
  }

  // ---------------------------------------------------------------------------
  // Recent orders and the revenue trend
  // ---------------------------------------------------------------------------

  /** The sort key for newest-first: the comparator `date(b) - date(a)`. */
  function Recency(o: Order): int
  {
    -o.date
  }

  /** The sort key for oldest-first: the comparator `date(a) - date(b)`. */
  function BillDate(b: Bill): int
  {
    b.date
  }

  /** Ascending `Recency` puts `a` no later than `b` exactly when the comparator `date(b) - date(a)` is not positive. */
  lemma RecencyMatchesComparator(a: Order, b: Order)
    ensures Recency(a) <= Recency(b) <==> b.date - a.date <= 0
  {
  }

  /** Ascending `BillDate` puts `a` no later than `b` exactly when the comparator `date(a) - date(b)` is not positive. */
  lemma BillDateMatchesComparator(a: Bill, b: Bill)
    ensures BillDate(a) <= BillDate(b) <==> a.date - b.date <= 0
  {
  }

  /**
   * `recentOrders`: up to five orders, newest first, taken from a sorted
   * copy; none of the orders left out is newer than one that is shown.
   */
  function RecentOrders(orders: seq<Order>): (r: seq<Order>)
    ensures |r| == Min(RecentOrderCount, |orders|)
    ensures forall i, j :: 0 <= i < j < |r| ==> r[i].date >= r[j].date
    ensures multiset(r) <= multiset(orders)
    ensures forall o, x :: o in multiset(orders) - multiset(r) && x in r ==> o.date <= x.date
  {
    var sorted := SortBy(orders, Recency);
    var k := Min(RecentOrderCount, |orders|);
    NewestFirstCut(orders, sorted, k);
    sorted[..k]
  }

  /** The first `k` orders of a newest-first copy are in date order and no left-out order is newer. */
  lemma NewestFirstCut(orders: seq<Order>, sorted: seq<Order>, k: nat)
    requires SortedBy(sorted, Recency) && multiset(sorted) == multiset(orders) && k <= |sorted|
    ensures forall i, j :: 0 <= i < j < k ==> sorted[i].date >= sorted[j].date
    ensures multiset(sorted[..k]) <= multiset(orders)
    ensures forall o, x :: o in multiset(orders) - multiset(sorted[..k]) && x in sorted[..k] ==> o.date <= x.date
  {
    SortedCut(sorted, Recency, k);
    forall o, x | o in multiset(orders) - multiset(sorted[..k]) && x in sorted[..k]
      ensures o.date <= x.date
    {
      assert o in sorted[k..];
      assert Recency(x) <= Recency(o);
    }
    forall i, j | 0 <= i < j < k ensures sorted[i].date >= sorted[j].date {
      assert Recency(sorted[i]) <= Recency(sorted[j]);
    }
  }

  /** The bills the revenue chart shows: the last seven of a copy sorted by date, oldest first. */
  function LatestBills(bills: seq<Bill>): (r: seq<Bill>)
    ensures |r| == Min(TrendLength, |bills|)
    ensures forall i, j :: 0 <= i < j < |r| ==> r[i].date <= r[j].date
    ensures multiset(r) <= multiset(bills)
    ensures forall b, x :: b in multiset(bills) - multiset(r) && x in r ==> b.date <= x.date
  {
    var sorted := SortBy(bills, BillDate);
    var k := |bills| - Min(TrendLength, |bills|);
    LatestLastCut(bills, sorted, k);
    sorted[k..]
  }

  /** The bills from `k` on in a date-sorted copy are in date order and no bill before them is later. */
  lemma LatestLastCut(bills: seq<Bill>, sorted: seq<Bill>, k: nat)
    requires SortedBy(sorted, BillDate) && multiset(sorted) == multiset(bills) && k <= |sorted|
    ensures forall i, j :: 0 <= i < j < |sorted| - k ==> sorted[k..][i].date <= sorted[k..][j].date
    ensures multiset(sorted[k..]) <= multiset(bills)
    ensures forall b, x :: b in multiset(bills) - multiset(sorted[k..]) && x in sorted[k..] ==> b.date <= x.date
  {
    SortedCut(sorted, BillDate, k);
    forall b, x | b in multiset(bills) - multiset(sorted[k..]) && x in sorted[k..]
      ensures b.date <= x.date
    {
      assert b in sorted[..k];
      assert BillDate(b) <= BillDate(x);
    }
    forall i, j | 0 <= i < j < |sorted| - k ensures sorted[k..][i].date <= sorted[k..][j].date {
      assert BillDate(sorted[k + i]) <= BillDate(sorted[k + j]);
    }
  }

  datatype TrendPoint = TrendPoint(date: Timestamp, amount: Cents)

  /** `revenueTrend`: the date and total of each of the latest bills, oldest first. */
  function RevenueTrend(bills: seq<Bill>): (r: seq<TrendPoint>)
    ensures |r| == Min(TrendLength, |bills|)
    ensures forall i, j :: 0 <= i < j < |r| ==> r[i].date <= r[j].date
    ensures forall i :: 0 <= i < |r| ==>
      r[i].date == LatestBills(bills)[i].date && r[i].amount == LatestBills(bills)[i].total
  {
    var latest := LatestBills(bills);
    seq(|latest|, i requires 0 <= i < |latest| => TrendPoint(latest[i].date, latest[i].total))
  }

  /** The recent-order badge: "Delivered" exactly for status code 3, "Pending" for every other code. */
  function StatusBadge(status: int): (badge: string)
    ensures badge == "Delivered" <==> StatusOf(status) == Some(Delivered)
    ensures badge != "Delivered" ==> badge == "Pending"
  {
    if status == 3 then "Delivered" else "Pending"
  }
}
