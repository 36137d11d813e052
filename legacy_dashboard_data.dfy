/** The overview figures of the older client
    (TokoKami/Frontend/src/hooks/useDashboardData.tsx): from the bodies of the four
    report and product answers, the product list with its numbers parsed, the low-stock
    list, the best sellers with their revenue, and the summary figures. The requests
    themselves are not modelled; each answer is the JSON body the server sent. */
module LegacyDashboardData {
  import opened Js
  import opened Sorting

  const LowStockThreshold: int := 10

  /** A product row with `cost`, `price` and `stock` replaced by their parsed values. */
  datatype ProductDetail = ProductDetail(row: Object, stock: int, cost: real, price: real)

  /** `{ ...p, cost: parseFloat(p.cost) || 0, price: parseFloat(p.price) || 0,
      stock: parseInt(p.stock) || 0, id: p.id }` */
  function Detail(p: Object): (r: ProductDetail)
    ensures r.row == p
    ensures ParseIntValue(Get(p, "stock")).Some? ==> r.stock == ParseIntValue(Get(p, "stock")).value
    ensures ParseIntValue(Get(p, "stock")).None? ==> r.stock == 0
    ensures forall x :: Get(p, "price") == NumV(x) ==> r.price == x
    ensures forall x :: Get(p, "cost") == NumV(x) ==> r.cost == x
  {
    ProductDetail(p, ParseIntValue(Get(p, "stock")).GetOr(0), ParseFloatValue(Get(p, "cost")).GetOr(0.0),
                  ParseFloatValue(Get(p, "price")).GetOr(0.0))
  }

  function Name(p: ProductDetail): Option<Value> {
    Get(p.row, "name")
  }

  predicate IsLow(p: ProductDetail) {
    p.stock < LowStockThreshold
  }

  function ByStock(p: ProductDetail): Key {
    Number(p.stock as real)
  }

  /** `allProducts.filter(p => p.stock < 10).sort((a, b) => a.stock - b.stock)`: every
      product under the threshold, none other, least stock first, nothing cut off. */
  function LowStock(products: seq<ProductDetail>): (r: seq<ProductDetail>)
    ensures forall p :: p in r <==> p in products && p.stock < LowStockThreshold
    ensures multiset(r) == multiset(Filter(products, IsLow))
    ensures forall i, j :: 0 <= i < j < |r| ==> r[i].stock <= r[j].stock
  {
    var low := Filter(products, IsLow);
    FilterMembers(products, IsLow);
    var r := SortBy(low, ByStock, Asc);
    assert forall p :: p in r <==> p in low by {
      forall p ensures p in r <==> p in low {
        assert p in r <==> p in multiset(r);
      }
    }
    assert forall i, j :: 0 <= i < j < |r| ==> r[i].stock <= r[j].stock by {
      forall i, j | 0 <= i < j < |r| ensures r[i].stock <= r[j].stock {
        NumbersBefore(r[i].stock as real, r[j].stock as real, Asc);
      }
    }
    r
  }

  /** The index of the first product whose name is strictly equal to `name`. */
  function FirstNamed(products: seq<ProductDetail>, name: Option<Value>): (r: Option<nat>)
    ensures r.Some? ==> r.value < |products| && Name(products[r.value]) == name &&
                        forall j :: 0 <= j < r.value ==> Name(products[j]) != name
    ensures r.None? ==> forall j :: 0 <= j < |products| ==> Name(products[j]) != name
  {
    if products == [] then None
    else if Name(products[0]) == name then Some(0)
    else match FirstNamed(products[1..], name)
      case Some(i) => Some(i + 1)
      case None => None
  }

  /** One best seller as shown: its name, its quantity as the server sent it, and its
      revenue. */
  datatype TopEntry = TopEntry(name: Option<Value>, value: Option<Value>, total: real)

  /** `p.value * (product?.price || 0)` with `product` the first of that name. */
  function Revenue(products: seq<ProductDetail>, p: Value): (r: real)
    ensures (forall j :: 0 <= j < |products| ==> Name(products[j]) != PropertyOf(Some(p), "name")) ==> r == 0.0
    ensures forall i :: 0 <= i < |products| && Name(products[i]) == PropertyOf(Some(p), "name") &&
                        (forall j :: 0 <= j < i ==> Name(products[j]) != PropertyOf(Some(p), "name")) ==>
              r == ToNumber(PropertyOf(Some(p), "value")) * products[i].price
  {
    var i := FirstNamed(products, PropertyOf(Some(p), "name"));
    Mul(ToNumber(PropertyOf(Some(p), "value")), if i.Some? then products[i.value].price else 0.0)
  }

  /** `topProductsRes.data.map(...)`: the server's order and length are kept, each entry
      keeps its name and quantity, and its revenue is the quantity times the price of
      the first product of the same name, or 0 when no product has that name. */
  function TopEntries(api: seq<Value>, products: seq<ProductDetail>): (r: seq<TopEntry>)
    ensures |r| == |api|
    ensures forall i :: 0 <= i < |api| ==>
              r[i].name == PropertyOf(Some(api[i]), "name") && r[i].value == PropertyOf(Some(api[i]), "value")
    ensures forall i :: 0 <= i < |api| && FirstNamed(products, r[i].name).None? ==> r[i].total == 0.0
    ensures forall i :: 0 <= i < |api| && FirstNamed(products, r[i].name).Some? ==>
              r[i].total == Mul(ToNumber(r[i].value), products[FirstNamed(products, r[i].name).value].price)
  {
    seq(|api|, i requires 0 <= i < |api| =>
      TopEntry(PropertyOf(Some(api[i]), "name"), PropertyOf(Some(api[i]), "value"), Revenue(products, api[i])))
  }

  /** The summary figures. `orders` is the server's `total_transactions` as sent (a
      count may arrive as text); comparisons and the division read it as a number. */
  datatype Stats = Stats(sales: real, profit: Value, orders: Value, averageOrder: real)

  /** `summaryRes.data.total_transactions || 0` */
  function OrdersOf(summary: Value): (r: Value)
    ensures Truthy(PropertyOf(Some(summary), "total_transactions")) ==>
              Some(r) == PropertyOf(Some(summary), "total_transactions")
    ensures !Truthy(PropertyOf(Some(summary), "total_transactions")) ==> r == Num(0.0)
  {
    Or(PropertyOf(Some(summary), "total_transactions"), NumV(0.0)).GetOr(Num(0.0))
  }

  /** `detailsRes.data.financials.profit || 0` */
  function ProfitOf(details: Value): (r: Value)
    ensures Truthy(PropertyOf(PropertyOf(Some(details), "financials"), "profit")) ==>
              Some(r) == PropertyOf(PropertyOf(Some(details), "financials"), "profit")
    ensures !Truthy(PropertyOf(PropertyOf(Some(details), "financials"), "profit")) ==> r == Num(0.0)
  {
    Or(PropertyOf(PropertyOf(Some(details), "financials"), "profit"), NumV(0.0)).GetOr(Num(0.0))
  }

  /** The figures: sales parsed from the summary, the profit from the financials, and
      the average order as sales over orders, or 0 without orders. */
  function ComputeStats(summary: Value, details: Value): (r: Stats)
    ensures r.sales == ParseFloatValue(PropertyOf(Some(summary), "total_sales")).GetOr(0.0)
    ensures r.orders == OrdersOf(summary) && r.profit == ProfitOf(details)
    ensures ToNumber(Some(r.orders)) > 0.0 ==> Mul(r.averageOrder, ToNumber(Some(r.orders))) == r.sales
    ensures ToNumber(Some(r.orders)) <= 0.0 ==> r.averageOrder == 0.0
  {
    var sales := ParseFloatValue(PropertyOf(Some(summary), "total_sales")).GetOr(0.0);
    var orders := OrdersOf(summary);
    Stats(sales, ProfitOf(details), orders, Average(sales, ToNumber(Some(orders))))
  }

  /** `count > 0 ? total / count : 0` */
  function Average(total: real, count: real): (r: real)
    ensures count > 0.0 ==> Mul(r, count) == total
    ensures count <= 0.0 ==> r == 0.0
  {
    if count > 0.0 then total / count else 0.0
  }

  datatype DashboardData =
    | Loaded(stats: Stats, products: seq<ProductDetail>, topProducts: seq<TopEntry>, lowStockProducts: seq<ProductDetail>)
    | Failed

  /** A property read on `null` (or on a missing value) throws. */
  predicate Readable(v: Option<Value>) {
    !Nullish(v)
  }

  /** The elements of an answer that `.map` walks; `None` when it is not an array or
      holds a `null`, on which the callback's property read throws. */
  function Rows(v: Value): (r: Option<seq<Value>>)
    ensures r.Some? <==> v.Arr? && forall i :: 0 <= i < |v.elems| ==> !v.elems[i].Null?
    ensures r.Some? ==> r.value == v.elems
  {
    if v.Arr? && forall i :: 0 <= i < |v.elems| ==> !v.elems[i].Null? then Some(v.elems) else None
  }

  /** `fetchData` once the four answers are in: `Failed` when one of them makes the
      computation throw (the hook then sets `isError`), otherwise the figures. */
  function Load(summary: Value, productsBody: Value, topBody: Value, details: Value): (r: DashboardData)
    ensures r.Loaded? <==> !summary.Null? && !details.Null? &&
                           Readable(PropertyOf(Some(details), "financials")) &&
                           Rows(productsBody).Some? && Rows(topBody).Some?
    ensures r.Loaded? ==> |r.products| == |productsBody.elems| &&
                          forall i :: 0 <= i < |r.products| ==> r.products[i] == Detail(FieldsOf(productsBody.elems[i]))
    ensures r.Loaded? ==> r.lowStockProducts == LowStock(r.products)
    ensures r.Loaded? ==> r.topProducts == TopEntries(topBody.elems, r.products)
    ensures r.Loaded? ==> r.stats == ComputeStats(summary, details)
  {
    if summary.Null? || details.Null? || !Readable(PropertyOf(Some(details), "financials")) then Failed
    else match (Rows(productsBody), Rows(topBody))
      case (Some(ps), Some(ts)) =>
        var products := seq(|ps|, i requires 0 <= i < |ps| => Detail(FieldsOf(ps[i])));
        Loaded(ComputeStats(summary, details), products, TopEntries(ts, products), LowStock(products))
      case _ => Failed
  }

  /** A price the server sent as text, as a NUMERIC column arrives, is read as its
      value. */
  lemma TextPriceIsParsed(row: Object)
    requires Get(row, "price") == StrV("12")
    ensures Detail(row).price == 12.0
  {
    TwelveParses();
    assert ParseFloatValue(Get(row, "price")) == ParseFloat("12");
  }

  lemma TwelveParses()
    ensures ParseFloat("12") == Some(12.0)
  {
    ParseFloatIntToString(12);
    assert IntToString(12) == "12" by {
      assert NatToString(12) == NatToString(1) + [DigitChar(2)];
    }
  }
}
