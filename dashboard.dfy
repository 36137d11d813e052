/** The overview page of the newer client (Frontend/src/pages/Dashboard.tsx): the
    change of a figure against the previous period, the transactions of a half-open
    period, the period's figures, the best sellers and the low-stock list. Dates are
    abstract: `time` stands for `new Date(v).getTime()` (`None` for an invalid date),
    and the period boundaries are given. */
module Dashboard {
  import opened Js
  import opened Sorting
  import opened Dict
  import Reports

  // ---------------------------------------------------------------------------
  // Change against the previous period

  datatype ChangeStat = ChangeStat(percentage: real, isPositive: bool)

  function Abs(x: real): real {
    if x < 0.0 then -x else x
  }

  /** `calculateChangePercentage(current, previous)` as written: the signed change is
      divided by `previous` itself, so a negative previous figure turns the sign round. */
  function ChangePercentageAsWritten(current: real, previous: real): (r: ChangeStat)
    ensures r.percentage >= 0.0
    ensures previous == 0.0 ==> r == if current > 0.0 then ChangeStat(100.0, true) else ChangeStat(0.0, false)
    ensures previous != 0.0 ==> Mul(r.percentage, Abs(previous)) == Mul(Abs(current - previous), 100.0)
    ensures previous > 0.0 ==> (r.isPositive <==> current >= previous)
    ensures previous < 0.0 ==> (r.isPositive <==> current <= previous)
  {
    if previous == 0.0 then ChangeStat(if current > 0.0 then 100.0 else 0.0, current > 0.0)
    else
      var change := current - previous;
      var q := change / previous;
      assert Mul(q, previous) == change;
      var percentage := q * 100.0;
      ChangeStat(Abs(percentage), percentage >= 0.0)
  }

  /** The change with the sign taken from the change itself: the percentage is relative
      to the size of the previous figure, and the figure is shown as rising exactly
      when it did not fall. */
  function ChangePercentage(current: real, previous: real): (r: ChangeStat)
    ensures r.percentage >= 0.0
    ensures previous == 0.0 ==> r == if current > 0.0 then ChangeStat(100.0, true) else ChangeStat(0.0, false)
    ensures previous != 0.0 ==> Mul(r.percentage, Abs(previous)) == Mul(Abs(current - previous), 100.0)
    ensures previous != 0.0 ==> (r.isPositive <==> current >= previous)
  {
    if previous == 0.0 then ChangeStat(if current > 0.0 then 100.0 else 0.0, current > 0.0)
    else
      var change := current - previous;
      var q := change / Abs(previous);
      assert Mul(q, Abs(previous)) == change;
      var percentage := q * 100.0;
      ChangeStat(Abs(percentage), percentage >= 0.0)
  }

  /** Both agree whenever the previous figure is not negative. */
  lemma ChangeAgreesForNonNegativePrevious(current: real, previous: real)
    requires previous >= 0.0
    ensures ChangePercentage(current, previous) == ChangePercentageAsWritten(current, previous)
  {
  }

  /** A profit that went from -10 to 10 is shown as a 200% fall as written, and as a
      200% rise once the sign is taken from the change. */
  lemma RecoveredProfitShownAsFall()
    ensures ChangePercentageAsWritten(10.0, -10.0) == ChangeStat(200.0, false)
    ensures ChangePercentage(10.0, -10.0) == ChangeStat(200.0, true)
  {
  }

  // ---------------------------------------------------------------------------
  // The period

  /** `transaction.date ?? transaction.createdAt ?? transaction.created_at` */
  function DateOf(t: Object): Option<Value> {
    Coalesce(Get(t, "date"), Coalesce(Get(t, "createdAt"), Get(t, "created_at")))
  }

  /** A valid date with `start <= date < end`. */
  predicate InWindow(t: Object, time: Option<Value> -> Option<real>, start: real, end: real) {
    time(DateOf(t)).Some? && start <= time(DateOf(t)).value < end
  }

  /** `filterTransactions(start, end)` */
  function Window(txs: seq<Object>, time: Option<Value> -> Option<real>, start: real, end: real): (r: seq<Object>)
    ensures forall t :: t in r <==> t in txs && InWindow(t, time, start, end)
  {
    var r := Filter(txs, (t: Object) => InWindow(t, time, start, end));
    assert forall t :: t in txs && InWindow(t, time, start, end) ==> t in r by {
      forall t | t in txs && InWindow(t, time, start, end) ensures t in r {
        var i :| 0 <= i < |txs| && txs[i] == t;
      }
    }
    r
  }

  /** `Number(t.profit) || 0` */
  function ProfitOf(t: Object): real {
    ToNumber(Get(t, "profit"))
  }

  /** `transactions.reduce((sum, t) => sum + (Number(t.profit) || 0), 0)` */
  function TotalProfit(txs: seq<Object>): real {
    if txs == [] then 0.0 else TotalProfit(txs[..|txs| - 1]) + ProfitOf(txs[|txs| - 1])
  }

  lemma {:induction false} TotalProfitConcat(a: seq<Object>, b: seq<Object>)
    ensures TotalProfit(a + b) == TotalProfit(a) + TotalProfit(b)
  {
    if b != [] {
      assert (a + b)[..|a + b| - 1] == a + b[..|b| - 1];
      TotalProfitConcat(a, b[..|b| - 1]);
    } else {
      assert a + b == a;
    }
  }

  /** Two adjacent periods, such as the previous and the current one, share no
      transaction, and between them hold exactly the orders, the sales and the profit
      of the period that spans both. */
  lemma {:induction false} AdjacentWindows(txs: seq<Object>, time: Option<Value> -> Option<real>, a: real, b: real, c: real)
    requires a <= b <= c
    ensures forall t :: !(InWindow(t, time, a, b) && InWindow(t, time, b, c))
    ensures forall t :: InWindow(t, time, a, c) <==> InWindow(t, time, a, b) || InWindow(t, time, b, c)
    ensures |Window(txs, time, a, c)| == |Window(txs, time, a, b)| + |Window(txs, time, b, c)|
    ensures Reports.TotalSales(Window(txs, time, a, c)) ==
              Reports.TotalSales(Window(txs, time, a, b)) + Reports.TotalSales(Window(txs, time, b, c))
    ensures TotalProfit(Window(txs, time, a, c)) ==
              TotalProfit(Window(txs, time, a, b)) + TotalProfit(Window(txs, time, b, c))
  {
    if txs != [] {
      var x := txs[0];
      var rest := txs[1..];
      AdjacentWindows(rest, time, a, b, c);
      var ac := Window(rest, time, a, c);
      var ab := Window(rest, time, a, b);
      var bc := Window(rest, time, b, c);
      if InWindow(x, time, a, c) {
        assert Window(txs, time, a, c) == [x] + ac;
        Reports.TotalSalesConcat([x], ac);
        TotalProfitConcat([x], ac);
        assert Reports.TotalSales([x]) == Reports.TotalOf(x) by {
          assert [x][..0] == [];
        }
        assert TotalProfit([x]) == ProfitOf(x) by {
          assert [x][..0] == [];
        }
        if InWindow(x, time, a, b) {
          assert Window(txs, time, a, b) == [x] + ab;
          assert Window(txs, time, b, c) == bc;
          Reports.TotalSalesConcat([x], ab);
          TotalProfitConcat([x], ab);
        } else {
          assert Window(txs, time, a, b) == ab;
          assert Window(txs, time, b, c) == [x] + bc;
          Reports.TotalSalesConcat([x], bc);
          TotalProfitConcat([x], bc);
        }
      } else {
        assert Window(txs, time, a, c) == ac;
        assert Window(txs, time, a, b) == ab;
        assert Window(txs, time, b, c) == bc;
      }
    }
  }

  // ---------------------------------------------------------------------------
  // The period's figures

  datatype Stats = Stats(sales: real, profit: real, orders: nat, averageOrder: real)

  /** Sales, profit, the number of orders and the average order of some transactions;
      the average is the summary's. */
  function ComputeStats(txs: seq<Object>): (r: Stats)
    ensures r.sales == Reports.TotalSales(txs) && r.profit == TotalProfit(txs) && r.orders == |txs|
    ensures r.orders > 0 ==> r.averageOrder * r.orders as real == r.sales
    ensures r.orders == 0 ==> r.averageOrder == 0.0
  {
    var s := Reports.ComputeSummary(txs);
    Stats(s.totalSales, TotalProfit(txs), s.totalOrders, s.averageOrderValue)
  }

  datatype Changes = Changes(salesChange: ChangeStat, profitChange: ChangeStat,
                             ordersChange: ChangeStat, averageOrderChange: ChangeStat)

  function ChangesBetween(current: Stats, previous: Stats): Changes {
    Changes(ChangePercentage(current.sales, previous.sales),
            ChangePercentage(current.profit, previous.profit),
            ChangePercentage(current.orders as real, previous.orders as real),
            ChangePercentage(current.averageOrder, previous.averageOrder))
  }

  // ---------------------------------------------------------------------------
  // Best sellers

  /** One entry of `productSales`. */
  datatype ProductSale = ProductSale(id: Value, name: Value, quantity: real, total: real)

  type Sales = Dict.Entries<ProductSale>

  /** `transaction.items || []`; only an array is walked. */
  function ItemsOf(t: Object): seq<Value> {
    match Get(t, "items")
    case Some(Arr(es)) => es
    case _ => []
  }

  /** `item.productId ?? item.product_id ?? String(item.id ?? "unknown")` */
  function SaleId(item: Value): Value {
    var f := FieldsOf(item);
    match Coalesce(Get(f, "productId"), Coalesce(Get(f, "product_id"), StrV(ToStr(Coalesce(Get(f, "id"), StrV("unknown"))))))
    case Some(v) => v
    case None => Str("unknown")
  }

  /** The dictionary key the id is stored under. */
  function SaleKey(item: Value): string {
    ToStr(Some(SaleId(item)))
  }

  /** `item.productName ?? item.product_name ?? item.name ?? "Unknown"` */
  function SaleName(item: Value): Value {
    var f := FieldsOf(item);
    match Coalesce(Get(f, "productName"), Coalesce(Get(f, "product_name"), Coalesce(Get(f, "name"), StrV("Unknown"))))
    case Some(v) => v
    case None => Str("Unknown")
  }

  /** `Number(item.quantity) || 0` */
  function SaleQuantity(item: Value): real {
    ToNumber(Get(FieldsOf(item), "quantity"))
  }

  /** `Number(item.totalPrice ?? item.total ?? 0) || 0` */
  function SaleTotal(item: Value): real {
    var f := FieldsOf(item);
    ToNumber(Coalesce(Get(f, "totalPrice"), Coalesce(Get(f, "total"), NumV(0.0))))
  }

  /** One step of the inner loop: the entry is created on first sight, then both
      amounts grow. */
  function RecordItem(sales: Sales, item: Value): Sales {
    var k := SaleKey(item);
    var e := match Find(sales, k)
             case Some(e) => e
             case None => ProductSale(SaleId(item), SaleName(item), 0.0, 0.0);
    Put(sales, k, e.(quantity := e.quantity + SaleQuantity(item), total := e.total + SaleTotal(item)))
  }

  function RecordItems(sales: Sales, items: seq<Value>): Sales {
    if items == [] then sales
    else RecordItem(RecordItems(sales, items[..|items| - 1]), items[|items| - 1])
  }

  /** `productSales` after the transactions given. */
  function SaleTally(txs: seq<Object>): Sales {
    if txs == [] then []
    else RecordItems(SaleTally(txs[..|txs| - 1]), ItemsOf(txs[|txs| - 1]))
  }

  /** The nested `forEach` loops that fill `productSales`. */
  method TallySales(txs: seq<Object>) returns (sales: Sales)
    ensures sales == SaleTally(txs)
  {
    sales := [];
    var i := 0;
    while i < |txs|
      invariant 0 <= i <= |txs|
      invariant sales == SaleTally(txs[..i])
    {
      assert txs[..i + 1][..i] == txs[..i];
      var items := ItemsOf(txs[i]);
      ghost var before := sales;
      var j := 0;
      while j < |items|
        invariant 0 <= j <= |items|
        invariant sales == RecordItems(before, items[..j])
      {
        assert items[..j + 1][..j] == items[..j];
        sales := RecordItem(sales, items[j]);
        j := j + 1;
      }
      assert items[..j] == items;
      i := i + 1;
    }
    assert txs[..i] == txs;
  }

  /** The reference: whether some item of the transactions is filed under `k`, and
      its quantity and revenue summed over them. */
  predicate ItemsMention(items: seq<Value>, k: string) {
    exists i :: 0 <= i < |items| && SaleKey(items[i]) == k
  }

  function ItemsQuantity(items: seq<Value>, k: string): real {
    if items == [] then 0.0
    else
      var last := items[|items| - 1];
      ItemsQuantity(items[..|items| - 1], k) + (if SaleKey(last) == k then SaleQuantity(last) else 0.0)
  }

  function ItemsRevenue(items: seq<Value>, k: string): real {
    if items == [] then 0.0
    else
      var last := items[|items| - 1];
      ItemsRevenue(items[..|items| - 1], k) + (if SaleKey(last) == k then SaleTotal(last) else 0.0)
  }

  predicate Mentioned(txs: seq<Object>, k: string) {
    txs != [] && (Mentioned(txs[..|txs| - 1], k) || ItemsMention(ItemsOf(txs[|txs| - 1]), k))
  }

  function Quantity(txs: seq<Object>, k: string): real {
    if txs == [] then 0.0
    else Quantity(txs[..|txs| - 1], k) + ItemsQuantity(ItemsOf(txs[|txs| - 1]), k)
  }

  function Revenue(txs: seq<Object>, k: string): real {
    if txs == [] then 0.0
    else Revenue(txs[..|txs| - 1], k) + ItemsRevenue(ItemsOf(txs[|txs| - 1]), k)
  }

  /** Every entry is filed under the text of its own id. */
  predicate Keyed(sales: Sales) {
    forall i :: 0 <= i < |sales| ==> ToStr(Some(sales[i].1.id)) == sales[i].0
  }

  lemma {:induction false} PutKeyed(sales: Sales, k: string, e: ProductSale)
    requires Keyed(sales) && ToStr(Some(e.id)) == k
    ensures Keyed(Put(sales, k, e))
  {
    if sales != [] && sales[0].0 != k {
      PutKeyed(sales[1..], k, e);
    }
  }

  /** `k`'s entry as a total: absent reads as zero quantity and revenue. */
  function QuantityIn(sales: Sales, k: string): real {
    match Find(sales, k)
    case Some(e) => e.quantity
    case None => 0.0
  }

  function RevenueIn(sales: Sales, k: string): real {
    match Find(sales, k)
    case Some(e) => e.total
    case None => 0.0
  }

  /** One item: its key gains an entry if it had none, and the entry's amounts grow by
      the item's; every other key is untouched. */
  lemma RecordItemSpec(sales: Sales, item: Value, k: string)
    requires KeysDistinct(sales) && Keyed(sales)
    ensures KeysDistinct(RecordItem(sales, item)) && Keyed(RecordItem(sales, item))
    ensures HasKey(RecordItem(sales, item), k) <==> HasKey(sales, k) || SaleKey(item) == k
    ensures QuantityIn(RecordItem(sales, item), k) ==
              QuantityIn(sales, k) + (if SaleKey(item) == k then SaleQuantity(item) else 0.0)
    ensures RevenueIn(RecordItem(sales, item), k) ==
              RevenueIn(sales, k) + (if SaleKey(item) == k then SaleTotal(item) else 0.0)
  {
    var key := SaleKey(item);
    var e := match Find(sales, key)
             case Some(e) => e
             case None => ProductSale(SaleId(item), SaleName(item), 0.0, 0.0);
    var e' := e.(quantity := e.quantity + SaleQuantity(item), total := e.total + SaleTotal(item));
    assert RecordItem(sales, item) == Put(sales, key, e');
    if Find(sales, key).Some? {
      FindKeyed(sales, key);
    }
    PutDistinct(sales, key, e');
    PutKeyed(sales, key, e');
    PutFind(sales, key, e', k);
  }

  lemma ItemsMentionLast(items: seq<Value>, k: string)
    requires items != []
    ensures ItemsMention(items, k) <==> ItemsMention(items[..|items| - 1], k) || SaleKey(items[|items| - 1]) == k
  {
    var init := items[..|items| - 1];
    if ItemsMention(init, k) {
      var i :| 0 <= i < |init| && SaleKey(init[i]) == k;
      assert items[i] == init[i];
    }
  }

  lemma {:induction false} RecordItemsSpec(sales: Sales, items: seq<Value>, k: string)
    requires KeysDistinct(sales) && Keyed(sales)
    ensures KeysDistinct(RecordItems(sales, items)) && Keyed(RecordItems(sales, items))
    ensures HasKey(RecordItems(sales, items), k) <==> HasKey(sales, k) || ItemsMention(items, k)
    ensures QuantityIn(RecordItems(sales, items), k) == QuantityIn(sales, k) + ItemsQuantity(items, k)
    ensures RevenueIn(RecordItems(sales, items), k) == RevenueIn(sales, k) + ItemsRevenue(items, k)
  {
    if items != [] {
      var init := items[..|items| - 1];
      RecordItemsSpec(sales, init, k);
      RecordItemSpec(RecordItems(sales, init), items[|items| - 1], k);
      ItemsMentionLast(items, k);
    }
  }

  /** A stored entry carries the id of its key. */
  lemma {:induction false} FindKeyed(sales: Sales, k: string)
    requires Keyed(sales) && Find(sales, k).Some?
    ensures ToStr(Some(Find(sales, k).value.id)) == k
  {
    if sales[0].0 != k {
      FindKeyed(sales[1..], k);
    }
  }

  /** Each product id seen in the period has one entry, filed under its id, holding its
      quantity and its revenue summed over the period's items; no other id has one. */
  lemma {:induction false} SaleTallyIsSum(txs: seq<Object>, k: string)
    ensures KeysDistinct(SaleTally(txs)) && Keyed(SaleTally(txs))
    ensures HasKey(SaleTally(txs), k) <==> Mentioned(txs, k)
    ensures QuantityIn(SaleTally(txs), k) == Quantity(txs, k)
    ensures RevenueIn(SaleTally(txs), k) == Revenue(txs, k)
  {
    if txs != [] {
      SaleTallyIsSum(txs[..|txs| - 1], k);
      RecordItemsSpec(SaleTally(txs[..|txs| - 1]), ItemsOf(txs[|txs| - 1]), k);
    }
  }

  function ByQuantity(e: ProductSale): Key {
    Number(e.quantity)
  }

  /** `Object.values(productSales).sort((a, b) => b.quantity - a.quantity).slice(0, 5)` */
  function TopSelling(sales: Sales): (r: seq<ProductSale>)
    ensures |r| == if |sales| < 5 then |sales| else 5
    ensures forall i, j :: 0 <= i < j < |r| ==> r[i].quantity >= r[j].quantity
    ensures forall x :: x in r ==> x in Values(sales)
    // whatever is left out sold no more than anything listed
    ensures forall x, y :: x in r && y in Values(sales) && y !in r ==> y.quantity <= x.quantity
    // no entry is listed more often than it is tallied
    ensures multiset(r) <= multiset(Values(sales))
  {
    var r := TopN(Values(sales), ByQuantity, Desc, 5);
    QuantityDescending(r, Values(sales));
    r
  }

  /** Read on quantities, a descending order by `ByQuantity` is `>=`. */
  lemma QuantityDescending(r: seq<ProductSale>, all: seq<ProductSale>)
    requires Sorted(r, ByQuantity, Desc)
    requires forall x, y :: x in r && y in all && y !in r ==> Before(ByQuantity(x), ByQuantity(y), Desc)
    ensures forall i, j :: 0 <= i < j < |r| ==> r[i].quantity >= r[j].quantity
    ensures forall x, y :: x in r && y in all && y !in r ==> y.quantity <= x.quantity
  {
    forall i, j | 0 <= i < j < |r| ensures r[i].quantity >= r[j].quantity {
      NumbersBefore(r[i].quantity, r[j].quantity, Desc);
    }
    forall x, y | x in r && y in all && y !in r ensures y.quantity <= x.quantity {
      NumbersBefore(x.quantity, y.quantity, Desc);
    }
  }

  /** Each best seller shown carries the quantity and revenue of its id over the
      period's transactions. */
  lemma TopSellingAreSums(txs: seq<Object>, x: ProductSale)
    requires x in TopSelling(SaleTally(txs))
    ensures x.quantity == Quantity(txs, ToStr(Some(x.id)))
    ensures x.total == Revenue(txs, ToStr(Some(x.id)))
  {
    var sales := SaleTally(txs);
    var i :| 0 <= i < |sales| && Values(sales)[i] == x;
    var k := sales[i].0;
    SaleTallyIsSum(txs, k);
    FindDistinct(sales, i);
  }

  /** In a dictionary without repeated keys, looking an entry's key up finds it. */
  lemma {:induction false} FindDistinct(sales: Sales, i: int)
    requires KeysDistinct(sales) && 0 <= i < |sales|
    ensures Find(sales, sales[i].0) == Some(sales[i].1)
  {
    if i > 0 {
      FindDistinct(sales[1..], i - 1);
      HasKeyAt(sales[1..], i - 1);
    }
  }

  lemma {:induction false} HasKeyAt(sales: Sales, i: int)
    requires 0 <= i < |sales|
    ensures HasKey(sales, sales[i].0)
  {
    if i > 0 {
      HasKeyAt(sales[1..], i - 1);
    }
  }

  // ---------------------------------------------------------------------------
  // Low stock

  /** `Number(product.stock || 0)` */
  function StockOf(p: Object): real {
    ToNumber(Or(Get(p, "stock"), NumV(0.0)))
  }

  predicate IsLowStock(p: Object) {
    StockOf(p) < 10.0
  }

  function ByStock(p: Object): Key {
    Number(StockOf(p))
  }

  /** The five products with the least stock among those under 10, least first. */
  function LowStock(products: seq<Object>): (r: seq<Object>)
    ensures var low := Filter(products, IsLowStock); |r| == if |low| < 5 then |low| else 5
    ensures forall p :: p in r ==> p in products && StockOf(p) < 10.0
    ensures forall i, j :: 0 <= i < j < |r| ==> StockOf(r[i]) <= StockOf(r[j])
    ensures forall p, q :: p in r && q in products && StockOf(q) < 10.0 && q !in r ==> StockOf(p) <= StockOf(q)
    ensures |Filter(products, IsLowStock)| <= 5 ==> forall p :: p in products && StockOf(p) < 10.0 ==> p in r
    // no product is listed more often than it occurs
    ensures multiset(r) <= multiset(products)
  {
    var low := Filter(products, IsLowStock);
    FilterMembers(products, IsLowStock);
    FilterCount(products, IsLowStock);
    var r := TopN(low, ByStock, Asc, 5);
    StockAscending(r, low);
    r
  }

  /** Read on stock, an ascending order by `ByStock` is `<=`; and a list that keeps the
      whole of `all` holds each of its members. */
  lemma StockAscending(r: seq<Object>, all: seq<Object>)
    requires Sorted(r, ByStock, Asc)
    requires forall x, y :: x in r && y in all && y !in r ==> Before(ByStock(x), ByStock(y), Asc)
    requires |all| <= 5 ==> multiset(r) == multiset(all)
    ensures forall i, j :: 0 <= i < j < |r| ==> StockOf(r[i]) <= StockOf(r[j])
    ensures forall x, y :: x in r && y in all && y !in r ==> StockOf(x) <= StockOf(y)
    ensures |all| <= 5 ==> forall x :: x in all ==> x in r
  {
    forall i, j | 0 <= i < j < |r| ensures StockOf(r[i]) <= StockOf(r[j]) {
      NumbersBefore(StockOf(r[i]), StockOf(r[j]), Asc);
    }
    forall x, y | x in r && y in all && y !in r ensures StockOf(x) <= StockOf(y) {
      NumbersBefore(StockOf(x), StockOf(y), Asc);
    }
    if |all| <= 5 {
      forall x | x in all ensures x in r {
        assert x in multiset(all);
      }
    }
  }

  // ---------------------------------------------------------------------------
  // The page's effect

  datatype Overview = Overview(stats: Stats, changes: Changes, topProducts: seq<ProductSale>)

  /** The main effect: the current period runs from `currentStart` to `now`, the previous
      one from `previousStart` to `currentStart`. */
  method Refresh(txs: seq<Object>, time: Option<Value> -> Option<real>,
                 previousStart: real, currentStart: real, now: real) returns (o: Overview)
    ensures var current := Window(txs, time, currentStart, now);
            var previous := Window(txs, time, previousStart, currentStart);
            o == Overview(ComputeStats(current), ChangesBetween(ComputeStats(current), ComputeStats(previous)),
                          TopSelling(SaleTally(current)))
  {
    var current := Window(txs, time, currentStart, now);
    var previous := Window(txs, time, previousStart, currentStart);
    var stats := ComputeStats(current);
    var changes := ChangesBetween(stats, ComputeStats(previous));
    var sales := TallySales(current);
    o := Overview(stats, changes, TopSelling(sales));
  }
}
