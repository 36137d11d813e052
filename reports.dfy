/** The report figures of the newer client (Frontend/src/hooks/useReports.tsx): the
    transactions of the chosen period, the best-selling products, sales per day, the
    summary, the inventory list and the financials. Dates are abstract: `time` stands
    for `new Date(v).getTime()` (`None` for an invalid date), `day` for the ISO day of
    a date and `start` for the first instant of the period. */
module Reports {
  import opened Js
  import opened Sorting
  import ProductContext
  import opened Dict

  // ---------------------------------------------------------------------------
  // The period

  /** `t.date || t.createdAt || t.created_at` */
  function DateOf(t: Object): Option<Value> {
    Or(Get(t, "date"), Or(Get(t, "createdAt"), Get(t, "created_at")))
  }

  /** A transaction of the period: its date is valid and not before the start. */
  predicate InRange(t: Object, time: Option<Value> -> Option<real>, start: real) {
    time(DateOf(t)).Some? && time(DateOf(t)).value >= start
  }

  function InPeriod(txs: seq<Object>, time: Option<Value> -> Option<real>, start: real): (r: seq<Object>)
    ensures forall t :: t in r <==> t in txs && InRange(t, time, start)
  {
    var r := Filter(txs, (t: Object) => InRange(t, time, start));
    assert forall t :: t in txs && InRange(t, time, start) ==> t in r by {
      forall t | t in txs && InRange(t, time, start) ensures t in r {
        var i :| 0 <= i < |txs| && txs[i] == t;
      }
    }
    r
  }

  // ---------------------------------------------------------------------------
  // Dictionaries of amounts

  type Entries = Dict.Entries<real>

  /** `acc[k] || 0` */
  function Lookup(es: Entries, k: string): real {
    match Find(es, k)
    case Some(v) => v
    case None => 0.0
  }

  function SumValues(es: Entries): real {
    if es == [] then 0.0 else es[0].1 + SumValues(es[1..])
  }

  lemma PutLookup(es: Entries, k: string, v: real, x: string)
    ensures Lookup(Put(es, k, v), x) == if x == k then v else Lookup(es, x)
    ensures HasKey(Put(es, k, v), x) <==> x == k || HasKey(es, x)
  {
    PutFind(es, k, v, x);
  }

  lemma {:induction false} PutSum(es: Entries, k: string, v: real)
    requires KeysDistinct(es)
    ensures SumValues(Put(es, k, v)) == SumValues(es) - Lookup(es, k) + v
  {
    if es != [] {
      if es[0].0 != k {
        PutSum(es[1..], k, v);
      }
    }
  }

  // ---------------------------------------------------------------------------
  // Best-selling products

  /** `items` when it is an array, else `line_items` when it is one, else none. */
  function ItemsOf(t: Object): seq<Value> {
    match Get(t, "items")
    case Some(Arr(es)) => es
    case _ =>
      match Get(t, "line_items")
      case Some(Arr(es)) => es
      case _ => []
  }

  /** `String(item.productId || item.product_id || item.id)`; an item with none of them
      is counted under "undefined". */
  function ItemId(item: Value): string {
    var f := FieldsOf(item);
    ToStr(Or(Get(f, "productId"), Or(Get(f, "product_id"), Get(f, "id"))))
  }

  /** `Number(item.quantity) || 0` */
  function ItemQuantity(item: Value): real {
    ToNumber(Get(FieldsOf(item), "quantity"))
  }

  predicate Counted(item: Value) {
    ItemId(item) != "" && ItemQuantity(item) > 0.0
  }

  /** One step of the inner loop. */
  function CountItem(sales: Entries, item: Value): Entries {
    if Counted(item) then Put(sales, ItemId(item), Lookup(sales, ItemId(item)) + ItemQuantity(item))
    else sales
  }

  function CountItems(sales: Entries, items: seq<Value>): Entries {
    if items == [] then sales
    else CountItem(CountItems(sales, items[..|items| - 1]), items[|items| - 1])
  }

  /** `productSales` after the transactions given. */
  function Tally(txs: seq<Object>): Entries {
    if txs == [] then []
    else CountItems(Tally(txs[..|txs| - 1]), ItemsOf(txs[|txs| - 1]))
  }

  /** The reference: the quantity of product `k` over some items, counting only items
      with a positive quantity. */
  function ItemsQuantity(items: seq<Value>, k: string): real {
    if items == [] then 0.0
    else
      var last := items[|items| - 1];
      ItemsQuantity(items[..|items| - 1], k) + (if Counted(last) && ItemId(last) == k then ItemQuantity(last) else 0.0)
  }

  function Quantity(txs: seq<Object>, k: string): real {
    if txs == [] then 0.0
    else Quantity(txs[..|txs| - 1], k) + ItemsQuantity(ItemsOf(txs[|txs| - 1]), k)
  }

  /** Every stored value is positive. */
  predicate AllPositive(es: Entries) {
    forall i :: 0 <= i < |es| ==> es[i].1 > 0.0
  }

  lemma {:induction false} PutPositive(es: Entries, k: string, v: real)
    requires AllPositive(es) && v > 0.0
    ensures AllPositive(Put(es, k, v))
  {
    if es != [] && es[0].0 != k {
      PutPositive(es[1..], k, v);
    }
  }

  lemma {:induction false} LookupNonNegative(es: Entries, k: string)
    requires AllPositive(es)
    ensures Lookup(es, k) >= 0.0
    ensures HasKey(es, k) <==> Lookup(es, k) > 0.0
  {
    if es != [] && es[0].0 != k {
      LookupNonNegative(es[1..], k);
    }
  }

  lemma {:induction false} CountItemsSpec(sales: Entries, items: seq<Value>, k: string)
    requires KeysDistinct(sales) && AllPositive(sales)
    ensures KeysDistinct(CountItems(sales, items)) && AllPositive(CountItems(sales, items))
    ensures Lookup(CountItems(sales, items), k) == Lookup(sales, k) + ItemsQuantity(items, k)
  {
    if items != [] {
      var init := items[..|items| - 1];
      var last := items[|items| - 1];
      CountItemsSpec(sales, init, k);
      var before := CountItems(sales, init);
      assert CountItems(sales, items) == CountItem(before, last);
      assert ItemsQuantity(items, k) ==
        ItemsQuantity(init, k) + (if Counted(last) && ItemId(last) == k then ItemQuantity(last) else 0.0);
      CountItemStep(before, last, k);
    }
  }

  /** One item of the inner loop adds its quantity under its id when it counts. */
  lemma CountItemStep(before: Entries, item: Value, k: string)
    requires KeysDistinct(before) && AllPositive(before)
    ensures KeysDistinct(CountItem(before, item)) && AllPositive(CountItem(before, item))
    ensures Lookup(CountItem(before, item), k) ==
      Lookup(before, k) + (if Counted(item) && ItemId(item) == k then ItemQuantity(item) else 0.0)
  {
    if Counted(item) {
      CountStep(before, ItemId(item), ItemQuantity(item), k);
    }
  }

  /** One counted item adds its quantity under its id. */
  lemma CountStep(before: Entries, id: string, q: real, k: string)
    requires KeysDistinct(before) && AllPositive(before) && q > 0.0
    ensures var after := Put(before, id, Lookup(before, id) + q);
      KeysDistinct(after) && AllPositive(after) &&
      Lookup(after, k) == Lookup(before, k) + (if id == k then q else 0.0)
  {
    LookupNonNegative(before, id);
    PutDistinct(before, id, Lookup(before, id) + q);
    PutPositive(before, id, Lookup(before, id) + q);
    PutLookup(before, id, Lookup(before, id) + q, k);
  }

  /** Each product's tally is its total quantity over the period, every key is listed
      once, and exactly the products sold at a positive quantity are listed. */
  lemma {:induction false} TallyIsQuantity(txs: seq<Object>, k: string)
    ensures KeysDistinct(Tally(txs)) && AllPositive(Tally(txs))
    ensures Lookup(Tally(txs), k) == Quantity(txs, k)
    ensures HasKey(Tally(txs), k) <==> Quantity(txs, k) > 0.0
  {
    if txs != [] {
      TallyIsQuantity(txs[..|txs| - 1], k);
      CountItemsSpec(Tally(txs[..|txs| - 1]), ItemsOf(txs[|txs| - 1]), k);
    }
    LookupNonNegative(Tally(txs), k);
  }

  /** The nested `forEach` loops that fill `productSales`. */
  method ProductSales(txs: seq<Object>) returns (sales: Entries)
    ensures sales == Tally(txs)
  {
    sales := [];
    var i := 0;
    while i < |txs|
      invariant 0 <= i <= |txs|
      invariant sales == Tally(txs[..i])
    {
      assert txs[..i + 1][..i] == txs[..i];
      var items := ItemsOf(txs[i]);
      ghost var before := sales;
      var j := 0;
      while j < |items|
        invariant 0 <= j <= |items|
        invariant sales == CountItems(before, items[..j])
      {
        assert items[..j + 1][..j] == items[..j];
        sales := CountItem(sales, items[j]);
        j := j + 1;
      }
      assert items[..j] == items;
      i := i + 1;
    }
    assert txs[..i] == txs;
  }

  datatype TopProduct = TopProduct(name: string, value: real)

  /** `products.find(p => String(p.id) === id)?.name || 'Product ' + id` */
  function ProductName(products: seq<Object>, id: string): (r: string)
    ensures (forall i :: 0 <= i < |products| ==> ToStr(Get(products[i], "id")) != id) ==> r == "Product " + id
    // the first product whose id reads as `id` gives its name when it has a truthy one
    ensures forall i :: 0 <= i < |products| && ToStr(Get(products[i], "id")) == id &&
                        (forall j :: 0 <= j < i ==> ToStr(Get(products[j], "id")) != id) ==>
              r == if Truthy(Get(products[i], "name")) then ToStr(Get(products[i], "name")) else "Product " + id
  {
    if products == [] then "Product " + id
    else if ToStr(Get(products[0], "id")) == id then
      (if Truthy(Get(products[0], "name")) then ToStr(Get(products[0], "name")) else "Product " + id)
    else ProductName(products[1..], id)
  }

  function Named(sales: Entries, products: seq<Object>): (r: seq<TopProduct>)
    ensures |r| == |sales|
    ensures forall i :: 0 <= i < |sales| ==> r[i] == TopProduct(ProductName(products, sales[i].0), sales[i].1)
  {
    seq(|sales|, i requires 0 <= i < |sales| => TopProduct(ProductName(products, sales[i].0), sales[i].1))
  }

  function ByValue(p: TopProduct): Key {
    Number(p.value)
  }

  /** The four best sellers, by quantity, most first. */
  function TopProducts(sales: Entries, products: seq<Object>): (r: seq<TopProduct>)
    ensures |r| == if |sales| < 4 then |sales| else 4
    ensures forall i, j :: 0 <= i < j < |r| ==> r[i].value >= r[j].value
    ensures forall x :: x in r ==> x in Named(sales, products)
    // whatever is left out sold no more than anything listed
    ensures forall x, y :: x in r && y in Named(sales, products) && y !in r ==> y.value <= x.value
    // no entry is listed more often than it is tallied
    ensures multiset(r) <= multiset(Named(sales, products))
  {
    var r := TopN(Named(sales, products), ByValue, Desc, 4);
    ByValueDescending(r, Named(sales, products));
    r
  }

  /** Read on quantities, a descending order by `ByValue` is `>=`. */
  lemma ByValueDescending(r: seq<TopProduct>, all: seq<TopProduct>)
    requires Sorted(r, ByValue, Desc)
    requires forall x, y :: x in r && y in all && y !in r ==> Before(ByValue(x), ByValue(y), Desc)
    ensures forall i, j :: 0 <= i < j < |r| ==> r[i].value >= r[j].value
    ensures forall x, y :: x in r && y in all && y !in r ==> y.value <= x.value
  {
    forall i, j | 0 <= i < j < |r| ensures r[i].value >= r[j].value {
      NumbersBefore(r[i].value, r[j].value, Desc);
    }
    forall x, y | x in r && y in all && y !in r ensures y.value <= x.value {
      NumbersBefore(x.value, y.value, Desc);
    }
  }

  // ---------------------------------------------------------------------------
  // Sales per day and the summary

  /** `Number(t.total) || 0` */
  function TotalOf(t: Object): real {
    ToNumber(Get(t, "total"))
  }

  /** The day of `t.date || t.createdAt`. */
  function DayOf(t: Object, day: Option<Value> -> string): string {
    day(Or(Get(t, "date"), Get(t, "createdAt")))
  }

  /** `salesByDate` after the transactions given. */
  function SalesByDay(txs: seq<Object>, day: Option<Value> -> string): Entries {
    if txs == [] then []
    else
      var acc := SalesByDay(txs[..|txs| - 1], day);
      var t := txs[|txs| - 1];
      Put(acc, DayOf(t, day), Lookup(acc, DayOf(t, day)) + TotalOf(t))
  }

  /** `filteredTransactions.reduce((sum, t) => sum + (Number(t.total) || 0), 0)` */
  function TotalSales(txs: seq<Object>): real {
    if txs == [] then 0.0 else TotalSales(txs[..|txs| - 1]) + TotalOf(txs[|txs| - 1])
  }

  /** The sum over two runs of transactions is the sum of their sums. */
  lemma {:induction false} TotalSalesConcat(a: seq<Object>, b: seq<Object>)
    ensures TotalSales(a + b) == TotalSales(a) + TotalSales(b)
  {
    if b != [] {
      assert (a + b)[..|a + b| - 1] == a + b[..|b| - 1];
      TotalSalesConcat(a, b[..|b| - 1]);
    } else {
      assert a + b == a;
    }
  }

  /** The reference: the totals of the transactions of one day. */
  function DayTotal(txs: seq<Object>, day: Option<Value> -> string, k: string): real {
    if txs == [] then 0.0
    else DayTotal(txs[..|txs| - 1], day, k) + (if DayOf(txs[|txs| - 1], day) == k then TotalOf(txs[|txs| - 1]) else 0.0)
  }

  /** Each day's figure is the sum of that day's totals, each day is listed once, and
      the days add up to the total sales of the summary. */
  lemma {:induction false} SalesByDayIsDayTotal(txs: seq<Object>, day: Option<Value> -> string, k: string)
    ensures KeysDistinct(SalesByDay(txs, day))
    ensures Lookup(SalesByDay(txs, day), k) == DayTotal(txs, day, k)
    ensures SumValues(SalesByDay(txs, day)) == TotalSales(txs)
  {
    if txs != [] {
      var init := txs[..|txs| - 1];
      var t := txs[|txs| - 1];
      SalesByDayIsDayTotal(init, day, k);
      var acc := SalesByDay(init, day);
      var v := Lookup(acc, DayOf(t, day)) + TotalOf(t);
      PutDistinct(acc, DayOf(t, day), v);
      PutLookup(acc, DayOf(t, day), v, k);
      PutSum(acc, DayOf(t, day), v);
    }
  }

  function ByDay(e: (string, real)): Key {
    Text(e.0)
  }

  /** The chart's points, oldest day first. */
  function SalesTrend(txs: seq<Object>, day: Option<Value> -> string): (r: Entries)
    ensures multiset(r) == multiset(SalesByDay(txs, day))
    ensures Sorted(r, ByDay, Asc)
  {
    SortBy(SalesByDay(txs, day), ByDay, Asc)
  }

  datatype Summary = Summary(totalSales: real, totalOrders: nat, averageOrderValue: real)

  function ComputeSummary(txs: seq<Object>): (r: Summary)
    ensures r.totalSales == TotalSales(txs) && r.totalOrders == |txs|
    ensures r.totalOrders > 0 ==> r.averageOrderValue * r.totalOrders as real == r.totalSales
    ensures r.totalOrders == 0 ==> r.averageOrderValue == 0.0
  {
    var total := TotalSales(txs);
    Summary(total, |txs|, if |txs| > 0 then total / |txs| as real else 0.0)
  }

  // ---------------------------------------------------------------------------
  // Inventory

  datatype InventoryItem = InventoryItem(name: string, stock: real, cost: real)

  /** `Number(x || 0)` */
  function NumberOrZero(v: Option<Value>): real {
    ToNumber(Or(v, NumV(0.0)))
  }

  /** A product as the page reads it: its cost from `cost`, then `unitCost`. */
  function ProductItemAsWritten(p: Object): InventoryItem {
    InventoryItem(ToStr(Get(p, "name")), NumberOrZero(Get(p, "stock")),
                  NumberOrZero(Or(Get(p, "cost"), Get(p, "unitCost"))))
  }

  /** The store's products carry neither `cost` nor `unitCost`, so every product is
      valued at cost 0 whatever its cost price. */
  lemma ProductCostReadAsZero(row: Object, now: string)
    ensures ProductItemAsWritten(ProductContext.MapFromApi(row, now)).cost == 0.0
  {
    var p := ProductContext.MapFromApi(row, now);
    assert Get(p, "cost") == None && Get(p, "unitCost") == None;
  }

  /** A product with its cost price read first. */
  function ProductItem(p: Object): InventoryItem {
    InventoryItem(ToStr(Get(p, "name")), NumberOrZero(Get(p, "stock")),
                  NumberOrZero(Or(Get(p, "costPrice"), Or(Get(p, "cost"), Get(p, "unitCost")))))
  }

  /** Read from the costPrice field, a product from the store is valued at the cost
      price its row gave. */
  lemma ProductCostReadFromCostPrice(row: Object, now: string)
    ensures ProductItem(ProductContext.MapFromApi(row, now)).cost ==
            ToNumber(Coalesce(Get(row, "cost_price"), Coalesce(Get(row, "costPrice"), NumV(0.0))))
  {
    var p := ProductContext.MapFromApi(row, now);
    ProductContext.MapFromApiCostPrice(row, now);
    assert Get(p, "costPrice") == NumV(ToNumber(Coalesce(Get(row, "cost_price"), Coalesce(Get(row, "costPrice"), NumV(0.0))))) by {
      if Nullish(Get(row, "cost_price")) {
        assert Coalesce(Get(row, "cost_price"), Coalesce(Get(row, "costPrice"), NumV(0.0))) == Coalesce(Get(row, "costPrice"), NumV(0.0));
      }
    }
    assert Get(p, "cost") == None && Get(p, "unitCost") == None;
  }

  /** The name a raw material is listed under: its own, marked " (Raw)". */
  function RawName(m: Object): string {
    ToStr(Get(m, "name")) + " (Raw)"
  }

  /** A raw material: its name marked " (Raw)", its cost from `unitCost`, then
      `unit_cost`. */
  function MaterialItem(r: Object): InventoryItem {
    InventoryItem(RawName(r), NumberOrZero(Get(r, "stock")),
                  NumberOrZero(Or(Get(r, "unitCost"), Get(r, "unit_cost"))))
  }

  function ProductItems(products: seq<Object>): (r: seq<InventoryItem>)
    ensures |r| == |products| && forall i :: 0 <= i < |products| ==> r[i] == ProductItem(products[i])
  {
    seq(|products|, i requires 0 <= i < |products| => ProductItem(products[i]))
  }

  function MaterialItems(materials: seq<Object>): (r: seq<InventoryItem>)
    ensures |r| == |materials| && forall i :: 0 <= i < |materials| ==> r[i] == MaterialItem(materials[i])
  {
    seq(|materials|, i requires 0 <= i < |materials| => MaterialItem(materials[i]))
  }

  const LowStockThreshold := 10.0

  datatype StockLevel = StockLevel(name: string, stock: real, isLow: bool)

  function Levels(items: seq<InventoryItem>): (r: seq<StockLevel>)
    ensures |r| == |items|
    ensures forall i :: 0 <= i < |items| ==>
              r[i].name == items[i].name && r[i].stock == items[i].stock && (r[i].isLow <==> items[i].stock < LowStockThreshold)
  {
    seq(|items|, i requires 0 <= i < |items| => StockLevel(items[i].name, items[i].stock, items[i].stock < LowStockThreshold))
  }

  /** `Σ stock × cost` */
  function StockValue(items: seq<InventoryItem>): real {
    if items == [] then 0.0 else Mul(items[0].stock, items[0].cost) + StockValue(items[1..])
  }

  lemma {:induction false} StockValueAppend(a: seq<InventoryItem>, b: seq<InventoryItem>)
    ensures StockValue(a + b) == StockValue(a) + StockValue(b)
  {
    if a != [] {
      assert (a + b)[1..] == a[1..] + b;
      StockValueAppend(a[1..], b);
    } else {
      assert a + b == b;
    }
  }

  /** The products of the store add nothing to the inventory value when read as the
      page reads them. */
  lemma {:induction false} ProductsValuedAtZero(rows: seq<Object>, now: string)
    ensures StockValue(seq(|rows|, i requires 0 <= i < |rows| => ProductItemAsWritten(ProductContext.MapFromApi(rows[i], now)))) == 0.0
  {
    var items := seq(|rows|, i requires 0 <= i < |rows| => ProductItemAsWritten(ProductContext.MapFromApi(rows[i], now)));
    if rows != [] {
      ProductCostReadAsZero(rows[0], now);
      ProductsValuedAtZero(rows[1..], now);
      assert items[1..] == seq(|rows[1..]|, i requires 0 <= i < |rows[1..]| => ProductItemAsWritten(ProductContext.MapFromApi(rows[1..][i], now)));
    }
  }

  /** Listed one after the other, the products keep their names and the raw materials
      follow them under their marked names. */
  lemma ItemNames(products: seq<Object>, materials: seq<Object>)
    ensures var items := ProductItems(products) + MaterialItems(materials);
      |items| == |products| + |materials| &&
      (forall i :: 0 <= i < |products| ==> items[i].name == ProductItem(products[i]).name) &&
      (forall i :: 0 <= i < |materials| ==> items[|products| + i].name == RawName(materials[i]))
  {
    var pi: seq<InventoryItem>, mi: seq<InventoryItem> := ProductItems(products), MaterialItems(materials);
    forall i | 0 <= i < |materials|
      ensures (pi + mi)[|products| + i].name == RawName(materials[i])
    {
      assert (pi + mi)[|pi| + i] == mi[i];
    }
  }

  datatype Inventory = Inventory(stockLevels: seq<StockLevel>, totalValue: real, lowStockItems: nat)

  predicate IsLow(l: StockLevel) {
    l.isLow
  }

  /** Products first, then raw materials; the low ones are counted, and the value is
      that of the products plus that of the raw materials. */
  function ComputeInventory(products: seq<Object>, materials: seq<Object>): (r: Inventory)
    ensures |r.stockLevels| == |products| + |materials|
    ensures forall i :: 0 <= i < |products| ==> r.stockLevels[i].name == ProductItem(products[i]).name
    ensures forall i :: 0 <= i < |materials| ==>
              r.stockLevels[|products| + i].name == RawName(materials[i])
    ensures forall i :: 0 <= i < |r.stockLevels| ==> (r.stockLevels[i].isLow <==> r.stockLevels[i].stock < LowStockThreshold)
    ensures r.lowStockItems == |Filter(r.stockLevels, IsLow)|
    ensures r.totalValue == StockValue(ProductItems(products)) + StockValue(MaterialItems(materials))
  {
    var pi := ProductItems(products);
    var mi := MaterialItems(materials);
    var items := pi + mi;
    ItemNames(products, materials);
    var levels := Levels(items);
    StockValueAppend(pi, mi);
    Inventory(levels, StockValue(items), |Filter(levels, IsLow)|)
  }

  // ---------------------------------------------------------------------------
  // Financials

  predicate IsExpense(t: Object) {
    Get(t, "type") == StrV("expense")
  }

  /** The totals of the transactions typed 'expense'. */
  function Expenses(txs: seq<Object>): real {
    if txs == [] then 0.0
    else Expenses(txs[..|txs| - 1]) + (if IsExpense(txs[|txs| - 1]) then TotalOf(txs[|txs| - 1]) else 0.0)
  }

  /** The totals of the other transactions. */
  function Income(txs: seq<Object>): real {
    if txs == [] then 0.0
    else Income(txs[..|txs| - 1]) + (if IsExpense(txs[|txs| - 1]) then 0.0 else TotalOf(txs[|txs| - 1]))
  }

  /** Revenue counts every transaction, expenses included, so the profit is what the
      other transactions took. */
  lemma {:induction false} ProfitIsIncome(txs: seq<Object>)
    ensures TotalSales(txs) - Expenses(txs) == Income(txs)
  {
    if txs != [] {
      ProfitIsIncome(txs[..|txs| - 1]);
    }
  }

  datatype Recent = Recent(id: Option<Value>, date: Option<Value>, kind: Value, total: real)

  /** `{ id, date: t.date || t.createdAt, type: t.type || 'income', total }` */
  function RecentOf(t: Object): (r: Recent)
    ensures Truthy(Get(t, "type")) ==> r.kind == Get(t, "type").value
    ensures !Truthy(Get(t, "type")) ==> r.kind == Str("income")
  {
    Recent(Get(t, "id"), Or(Get(t, "date"), Get(t, "createdAt")),
           if Truthy(Get(t, "type")) then Get(t, "type").value else Str("income"), TotalOf(t))
  }

  function RecentOfAll(txs: seq<Object>): (r: seq<Recent>)
    ensures |r| == |txs| && forall k :: 0 <= k < |txs| ==> r[k] == RecentOf(txs[k])
  {
    seq(|txs|, k requires 0 <= k < |txs| => RecentOf(txs[k]))
  }

  /** The entries of some of the transactions are among the entries of all of them. */
  lemma RecentOfPart(part: seq<Object>, whole: seq<Object>)
    requires forall t :: t in part ==> t in whole
    ensures forall i :: 0 <= i < |part| ==> RecentOfAll(part)[i] in RecentOfAll(whole)
  {
    forall i | 0 <= i < |part| ensures RecentOfAll(part)[i] in RecentOfAll(whole) {
      assert part[i] in part;
      var k :| 0 <= k < |whole| && whole[k] == part[i];
      assert RecentOfAll(whole)[k] == RecentOfAll(part)[i];
    }
  }

  /** The three newest transactions, newest first; `instant` is the time of
      `t.date || t.createdAt` as the comparator reads it. */
  function RecentTransactions(txs: seq<Object>, instant: Option<Value> -> real): (r: seq<Recent>)
    ensures |r| == if |txs| < 3 then |txs| else 3
    ensures forall i :: 0 <= i < |r| ==> r[i] in RecentOfAll(txs)
    ensures forall i, j :: 0 <= i < j < |r| ==> instant(r[i].date) >= instant(r[j].date)
    // a transaction left out is no newer than any listed
    ensures forall t :: t in txs && RecentOf(t) !in r ==>
              forall i :: 0 <= i < |r| ==> instant(RecentOf(t).date) <= instant(r[i].date)
    // no entry is listed more often than its transaction occurs
    ensures multiset(r) <= multiset(RecentOfAll(txs))
  {
    var key := (t: Object) => Number(instant(Or(Get(t, "date"), Get(t, "createdAt"))));
    var newest := TopN(txs, key, Desc, 3);
    var r := RecentOfAll(newest);
    RecentOfPart(newest, txs);
    RecentOfSubMultiset(newest, txs);
    forall i, j | 0 <= i < j < |r| ensures instant(r[i].date) >= instant(r[j].date) {
      var a, b := instant(r[i].date), instant(r[j].date);
      assert key(newest[i]) == Number(a) && key(newest[j]) == Number(b);
      NumbersBefore(a, b, Desc);
    }
    forall t, i | t in txs && RecentOf(t) !in r && 0 <= i < |r|
      ensures instant(RecentOf(t).date) <= instant(r[i].date)
    {
      RecentOfMembers(newest);
      assert newest[i] in newest;
      var a, b := instant(r[i].date), instant(RecentOf(t).date);
      assert key(newest[i]) == Number(a) && key(t) == Number(b);
      NumbersBefore(a, b, Desc);
    }
    r
  }

  /** Each transaction's entry is among the entries. */
  lemma RecentOfMembers(txs: seq<Object>)
    ensures forall t :: t in txs ==> RecentOf(t) in RecentOfAll(txs)
  {
    forall t | t in txs ensures RecentOf(t) in RecentOfAll(txs) {
      var k :| 0 <= k < |txs| && txs[k] == t;
      assert RecentOfAll(txs)[k] == RecentOf(t);
    }
  }

  lemma RecentOfRemoveAt(txs: seq<Object>, k: int)
    requires 0 <= k < |txs|
    ensures RecentOfAll(RemoveAt(txs, k)) == RemoveAt(RecentOfAll(txs), k)
  {
    var a, b := RecentOfAll(RemoveAt(txs, k)), RemoveAt(RecentOfAll(txs), k);
    assert |a| == |b|;
    forall i | 0 <= i < |a| ensures a[i] == b[i] {
      if i < k {
        assert a[i] == RecentOf(txs[i]);
      } else {
        assert a[i] == RecentOf(txs[i + 1]);
      }
    }
  }

  lemma RecentOfCons(txs: seq<Object>)
    requires txs != []
    ensures RecentOfAll(txs) == [RecentOf(txs[0])] + RecentOfAll(txs[1..])
  {
    var a, b := RecentOfAll(txs), [RecentOf(txs[0])] + RecentOfAll(txs[1..]);
    assert |a| == |b|;
    forall i | 0 <= i < |a| ensures a[i] == b[i] {
      if i > 0 {
        assert b[i] == RecentOfAll(txs[1..])[i - 1];
      }
    }
  }

  /** Taking the entries keeps a sub-multiset a sub-multiset. */
  lemma {:induction false} RecentOfSubMultiset(part: seq<Object>, whole: seq<Object>)
    requires multiset(part) <= multiset(whole)
    ensures multiset(RecentOfAll(part)) <= multiset(RecentOfAll(whole))
    decreases |part|
  {
    if part != [] {
      var x := part[0];
      assert x in multiset(whole);
      var k :| 0 <= k < |whole| && whole[k] == x;
      var rest := RemoveAt(whole, k);
      RemoveAtMultiset(whole, k);
      assert part == [x] + part[1..];
      assert multiset(part) == multiset{x} + multiset(part[1..]);
      SubMultisetRest(x, multiset(part[1..]), multiset(whole));
      assert multiset(part[1..]) <= multiset(rest);
      RecentOfSubMultiset(part[1..], rest);
      var all := RecentOfAll(whole);
      RemoveAtMultiset(all, k);
      RecentOfRemoveAt(whole, k);
      assert all[k] == RecentOf(x);
      assert RecentOf(x) in multiset(all);
      RecentOfCons(part);
      SubMultisetAdd(RecentOf(x), multiset(RecentOfAll(part[1..])), multiset(all));
    }
  }


  datatype Financials = Financials(revenue: real, expenses: real, profit: real, recent: seq<Recent>)

  function ComputeFinancials(txs: seq<Object>, instant: Option<Value> -> real): (r: Financials)
    ensures r.revenue == TotalSales(txs) && r.expenses == Expenses(txs)
    ensures r.profit == Income(txs)
    ensures r.recent == RecentTransactions(txs, instant)
  {
    ProfitIsIncome(txs);
    Financials(TotalSales(txs), Expenses(txs), TotalSales(txs) - Expenses(txs), RecentTransactions(txs, instant))
  }

  // ---------------------------------------------------------------------------
  // The whole report

  datatype Report = Report(salesData: Entries, topProducts: seq<TopProduct>, summary: Summary,
                           inventory: Inventory, financials: Financials)

  /** The effect that recomputes every figure for a period. */
  method BuildReport(txs: seq<Object>, products: seq<Object>, materials: seq<Object>,
                     time: Option<Value> -> Option<real>, start: real,
                     day: Option<Value> -> string, instant: Option<Value> -> real)
    returns (r: Report)
    ensures var period := InPeriod(txs, time, start);
      r == Report(SalesTrend(period, day), TopProducts(Tally(period), products), ComputeSummary(period),
                  ComputeInventory(products, materials), ComputeFinancials(period, instant))
  {
    var period := InPeriod(txs, time, start);
    var sales := ProductSales(period);
    var top := TopProducts(sales, products);
    r := Report(SalesTrend(period, day), top, ComputeSummary(period),
                ComputeInventory(products, materials), ComputeFinancials(period, instant));
  }
}
