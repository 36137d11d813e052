/** The older PostgreSQL backend (TokoKami/Backend/server.js): `POST /api/transactions`,
    which records a sale and decrements stock inside BEGIN/COMMIT, the range switch of
    the sales trend, and the inventory and financial figures of the details report.
    The table constraints that can make an insert fail come from
    TokoKami/Backend/migrate.js. */
module LegacyServer {
  import opened Js
  import Sorting

  /** A `products` row (price and cost are NUMERIC(10,2), stock INT). */
  datatype Product = Product(name: string, price: real, cost: real, stock: int)

  /** A `transactions` row as the sale handler writes it. */
  datatype SaleRow = SaleRow(id: int, cashierId: int, total: real, paymentMethod: string, kind: string)

  /** A `transaction_items` row. */
  datatype SaleItemRow = SaleItemRow(transactionId: int, productId: int, quantity: int, price: real)

  class Store {
    var products: map<int, Product>
    /** ids of the `users` rows */
    var users: set<int>
    var sales: seq<SaleRow>
    var saleItems: seq<SaleItemRow>
    /** the SERIAL sequence of `transactions.id` */
    var nextId: int

    constructor (products: map<int, Product>, users: set<int>)
      ensures this.products == products && this.users == users
      ensures sales == [] && saleItems == [] && nextId == 1
    {
      this.products := products;
      this.users := users;
      sales := [];
      saleItems := [];
      nextId := 1;
    }
  }

  // ---------------------------------------------------------------------------
  // How PostgreSQL takes the parameters

  predicate IsInteger(x: real) {
    x == x.Floor as real
  }

  /** A parameter bound to an INT column: an integral number or a text of decimal digits
      with an optional minus sign; anything else, and NULL, is refused. */
  function PgInt(v: Option<Value>): (r: Option<int>)
    ensures v.Some? && v.value.Num? && IsInteger(v.value.n) ==> r == Some(v.value.n.Floor)
    ensures r.Some? ==> v.Some? && (v.value.Num? || v.value.Str?)
  {
    match v
    case Some(Num(n)) => if IsInteger(n) then Some(n.Floor) else None
    case Some(Str(s)) =>
      var digits := if s != "" && s[0] == '-' then s[1..] else s;
      if digits != "" && forall i :: 0 <= i < |digits| ==> IsDigit(digits[i]) then
        Some(if digits == s then DigitsValue(digits) as int else -(DigitsValue(digits) as int))
      else None
    case _ => None
  }

  /** A parameter bound to a NUMERIC column: a number, or a text that is one number
      (surrounding white space allowed). */
  function PgNumeric(v: Option<Value>): (r: Option<real>)
    ensures v.Some? && v.value.Num? ==> r == Some(v.value.n)
    ensures r.Some? ==> v.Some? && (v.value.Num? || v.value.Str?)
  {
    match v
    case Some(Num(n)) => Some(n)
    case Some(Str(s)) =>
      var t := Trim(s);
      if t != "" && Scan(t).Some? && Scan(t).value.1 == |t| then Some(Scan(t).value.0) else None
    case _ => None
  }

  /** The values of `payment_method_type`. */
  const PaymentMethods: seq<string> := ["cash", "transfer", "ewallet", "other"]

  // ---------------------------------------------------------------------------
  // POST /api/transactions

  /** The fields the handler destructures from the body. */
  datatype SaleRequest = SaleRequest(cashierId: Option<Value>, totalAmount: Option<Value>,
                                     paymentMethod: Option<Value>, items: Option<Value>)

  datatype SaleResponse = Created(transactionId: int) | BadRequest | ServerError

  /** `items.length === 0` */
  predicate LengthIsZero(v: Value) {
    match v
    case Arr(es) => |es| == 0
    case Str(s) => |s| == 0
    case Obj(f) => "length" in f && f["length"] == Num(0.0)
    case _ => false
  }

  /** The 400 check: a falsy `cashierId`, `totalAmount` (0 included), `paymentMethod` or
      `items`, or an empty `items`. */
  predicate Incomplete(req: SaleRequest) {
    !Truthy(req.cashierId) || !Truthy(req.totalAmount) || !Truthy(req.paymentMethod)
    || !Truthy(req.items) || LengthIsZero(req.items.value)
  }

  /** The header row the INSERT stores, or `None` when a constraint refuses it: the
      cashier must be a user, the total a number, the method a `payment_method_type`. */
  function Header(users: set<int>, id: int, req: SaleRequest): (r: Option<SaleRow>)
    ensures r.Some? ==> r.value.id == id && r.value.kind == "sale" && r.value.cashierId in users
                        && r.value.paymentMethod in PaymentMethods
                        && Some(r.value.total) == PgNumeric(req.totalAmount)
  {
    var cashier := PgInt(req.cashierId);
    var total := PgNumeric(req.totalAmount);
    if cashier.Some? && cashier.value in users && total.Some?
       && req.paymentMethod.Some? && req.paymentMethod.value.Str?
       && req.paymentMethod.value.s in PaymentMethods
    then Some(SaleRow(id, cashier.value, total.value, req.paymentMethod.value.s, "sale"))
    else None
  }

  /** One item as the item INSERT binds it. */
  datatype SaleLine = SaleLine(productId: int, quantity: int, price: real)

  /** `item.productId`, `item.quantity`, `item.price` as the INSERT takes them, or `None`
      when it fails: a `null` item throws, a missing field violates NOT NULL, a product
      id that is not in `products` violates the foreign key, and a value of the wrong
      kind is refused. */
  function ParseItem(products: map<int, Product>, v: Value): (r: Option<SaleLine>)
    ensures r.Some? ==> r.value.productId in products
  {
    match v
    case Obj(f) =>
      var pid := PgInt(Get(f, "productId"));
      var quantity := PgInt(Get(f, "quantity"));
      var price := PgNumeric(Get(f, "price"));
      if pid.Some? && pid.value in products && quantity.Some? && price.Some? then
        Some(SaleLine(pid.value, quantity.value, price.value))
      else None
    case _ => None
  }

  /** `UPDATE Products SET stock = stock - quantity WHERE id = productId`, no check. */
  function Sell(products: map<int, Product>, line: SaleLine): map<int, Product>
    requires line.productId in products
  {
    products[line.productId := products[line.productId].(stock := products[line.productId].stock - line.quantity)]
  }

  /** The handler's loop: each item row is inserted and its product's stock decremented;
      `None` when an item fails. */
  function PostItems(products: map<int, Product>, id: int, items: seq<Value>, rows: seq<SaleItemRow>)
    : Option<(map<int, Product>, seq<SaleItemRow>)>
    decreases |items|
  {
    if items == [] then Some((products, rows))
    else
      match ParseItem(products, items[0])
      case None => None
      case Some(line) =>
        PostItems(Sell(products, line), id, items[1..],
                  rows + [SaleItemRow(id, line.productId, line.quantity, line.price)])
  }

  /** The items as an iterable; anything else makes the loop throw (a non-empty text
      iterates characters, whose fields are all missing). */
  function ItemList(v: Value): seq<Value> {
    match v
    case Arr(es) => es
    case Str(s) => seq(|s|, i requires 0 <= i < |s| => Str([s[i]]))
    case _ => [Null]
  }

  /** The handler's item loop. It stops at the first item that fails, leaving the
      earlier items' writes for the caller to roll back. */
  method InsertItems(db: Store, id: int, items: seq<Value>) returns (ok: bool)
    modifies db`products, db`saleItems
    ensures var r := PostItems(old(db.products), id, items, []);
      ok == r.Some? && (ok ==> db.products == r.value.0 && db.saleItems == old(db.saleItems) + r.value.1)
  {
    var rows: seq<SaleItemRow> := [];
    var i := 0;
    while i < |items|
      invariant 0 <= i <= |items|
      invariant db.saleItems == old(db.saleItems) + rows
      invariant PostItems(old(db.products), id, items, []) == PostItems(db.products, id, items[i..], rows)
    {
      assert items[i..][1..] == items[i + 1..];
      var line := ParseItem(db.products, items[i]);
      PostItemsStep(db.products, id, items[i..], rows);
      if line.None? {
        return false;
      }
      var row := SaleItemRow(id, line.value.productId, line.value.quantity, line.value.price);
      db.saleItems := db.saleItems + [row];
      rows := rows + [row];
      db.products := Sell(db.products, line.value);
      i := i + 1;
    }
    ok := true;
  }

  /** One turn of the item loop. */
  lemma PostItemsStep(products: map<int, Product>, id: int, items: seq<Value>, rows: seq<SaleItemRow>)
    requires items != []
    ensures var line := ParseItem(products, items[0]);
            PostItems(products, id, items, rows) ==
              if line.None? then None
              else PostItems(Sell(products, line.value), id, items[1..],
                             rows + [SaleItemRow(id, line.value.productId, line.value.quantity, line.value.price)])
  {
  }

  /** The sale handler. */
  method RecordSale(db: Store, req: SaleRequest) returns (res: SaleResponse)
    modifies db`products, db`sales, db`saleItems, db`nextId
    ensures Incomplete(req) ==> res == BadRequest && unchanged(db)
    ensures !Incomplete(req) && (Header(db.users, old(db.nextId), req).None? ||
                                 ParseAll(old(db.products), ItemList(req.items.value)).None?) ==>
      res == ServerError && unchanged(db)
    ensures !Incomplete(req) && Header(db.users, old(db.nextId), req).Some? &&
            ParseAll(old(db.products), ItemList(req.items.value)).Some? ==>
      var lines := ParseAll(old(db.products), ItemList(req.items.value)).value;
      res == Created(old(db.nextId)) &&
      db.sales == old(db.sales) + [Header(db.users, old(db.nextId), req).value] &&
      AllKnown(old(db.products), lines) &&
      db.products == SellAll(old(db.products), lines) &&
      db.saleItems == old(db.saleItems) + RowsOf(old(db.nextId), lines) &&
      db.nextId == old(db.nextId) + 1
  {
    if Incomplete(req) {
      return BadRequest;
    }
    res := InsertSale(db, req.items.value, Header(db.users, db.nextId, req));
  }

  /** The handler once the 400 check has passed: the header INSERT, then the item loop,
      inside BEGIN … COMMIT, with ROLLBACK when either fails. */
  method InsertSale(db: Store, items: Value, header: Option<SaleRow>) returns (res: SaleResponse)
    modifies db`products, db`sales, db`saleItems, db`nextId
    ensures header.None? || ParseAll(old(db.products), ItemList(items)).None? ==>
      res == ServerError && unchanged(db)
    ensures header.Some? && ParseAll(old(db.products), ItemList(items)).Some? ==>
      var lines := ParseAll(old(db.products), ItemList(items)).value;
      res == Created(old(db.nextId)) &&
      db.sales == old(db.sales) + [header.value] &&
      db.products == SellAll(old(db.products), lines) &&
      db.saleItems == old(db.saleItems) + RowsOf(old(db.nextId), lines) &&
      db.nextId == old(db.nextId) + 1
  {
    // BEGIN
    var savedProducts, savedSales, savedItems := db.products, db.sales, db.saleItems;
    var id := db.nextId;
    if header.None? {
      // ROLLBACK
      return ServerError;
    }
    db.sales := db.sales + [header.value];
    db.nextId := id + 1;
    var list := ItemList(items);
    var lines := ParseAll(savedProducts, list);
    PostItemsParsesThenSells(savedProducts, id, list, []);
    assert lines.Some? ==> [] + RowsOf(id, lines.value) == RowsOf(id, lines.value);
    var ok := InsertItems(db, id, list);
    assert ok <==> lines.Some?;
    if !ok {
      // ROLLBACK
      db.products, db.sales, db.saleItems, db.nextId := savedProducts, savedSales, savedItems, id;
      return ServerError;
    }
    // COMMIT
    res := Created(id);
  }

  /** The items as the INSERT takes them, or `None` when one of them fails. */
  function ParseAll(products: map<int, Product>, items: seq<Value>): (r: Option<seq<SaleLine>>)
    ensures r.Some? <==> forall k :: 0 <= k < |items| ==> ParseItem(products, items[k]).Some?
    ensures r.Some? ==>
      |r.value| == |items| &&
      forall k :: 0 <= k < |items| ==> r.value[k] == ParseItem(products, items[k]).value
    ensures r.Some? ==> AllKnown(products, r.value)
  {
    AllOrNone((v: Value) => ParseItem(products, v), items)
  }

  /** Units of product `id` the lines sell. */
  function QuantityOf(lines: seq<SaleLine>, id: int): int {
    if lines == [] then 0
    else (if lines[0].productId == id then lines[0].quantity else 0) + QuantityOf(lines[1..], id)
  }

  ghost predicate AllKnown(products: map<int, Product>, lines: seq<SaleLine>) {
    forall k :: 0 <= k < |lines| ==> lines[k].productId in products
  }

  /** The stock updates of all lines, in order. */
  function SellAll(products: map<int, Product>, lines: seq<SaleLine>): map<int, Product>
    requires AllKnown(products, lines)
    decreases |lines|
  {
    if lines == [] then products
    else SellAll(Sell(products, lines[0]), lines[1..])
  }

  function RowsOf(id: int, lines: seq<SaleLine>): (r: seq<SaleItemRow>)
    ensures |r| == |lines|
  {
    seq(|lines|, k requires 0 <= k < |lines| => SaleItemRow(id, lines[k].productId, lines[k].quantity, lines[k].price))
  }

  /** Whether and how an item parses depends only on which products exist. */
  lemma ParseAllKeysOnly(a: map<int, Product>, b: map<int, Product>, items: seq<Value>)
    requires a.Keys == b.Keys
    ensures ParseAll(a, items) == ParseAll(b, items)
  {
    forall k | 0 <= k < |items| ensures ParseItem(a, items[k]) == ParseItem(b, items[k]) {
      ParseItemKeysOnly(a, b, items[k]);
    }
    AllOrNoneAgree((v: Value) => ParseItem(a, v), (v: Value) => ParseItem(b, v), items);
  }

  lemma ParseItemKeysOnly(a: map<int, Product>, b: map<int, Product>, v: Value)
    requires a.Keys == b.Keys
    ensures ParseItem(a, v) == ParseItem(b, v)
  {
  }

  /** The item loop is "parse every item, then apply every line": it fails exactly when
      some item cannot be inserted, and otherwise writes one row per item, in order,
      and applies every stock update. */
  lemma {:induction false} PostItemsParsesThenSells(products: map<int, Product>, id: int, items: seq<Value>, rows: seq<SaleItemRow>)
    ensures var lines := ParseAll(products, items);
      PostItems(products, id, items, rows) ==
        if lines.None? then None else Some((SellAll(products, lines.value), rows + RowsOf(id, lines.value)))
    decreases |items|
  {
    if items == [] {
      assert rows + RowsOf(id, []) == rows;
    } else {
      var first := ParseItem(products, items[0]);
      if first.Some? {
        var line := first.value;
        var products1 := Sell(products, line);
        var row := SaleItemRow(id, line.productId, line.quantity, line.price);
        var rows1 := rows + [row];
        PostItemsParsesThenSells(products1, id, items[1..], rows1);
        assert products1.Keys == products.Keys;
        ParseAllKeysOnly(products1, products, items[1..]);
        var rest := ParseAll(products, items[1..]);
        if rest.Some? {
          ParseAllCons(products, items);
          SellAllCons(products, line, rest.value);
          RowsOfCons(id, line, rest.value);
          assert rows + ([row] + RowsOf(id, rest.value)) == rows1 + RowsOf(id, rest.value);
        }
      }
    }
  }

  lemma ParseAllCons(products: map<int, Product>, items: seq<Value>)
    requires items != []
    ensures var first := ParseItem(products, items[0]);
            var rest := ParseAll(products, items[1..]);
            ParseAll(products, items) == if first.None? || rest.None? then None else Some([first.value] + rest.value)
  {
  }

  lemma SellAllCons(products: map<int, Product>, line: SaleLine, rest: seq<SaleLine>)
    requires line.productId in products && AllKnown(products, rest)
    ensures AllKnown(products, [line] + rest) && AllKnown(Sell(products, line), rest)
    ensures SellAll(products, [line] + rest) == SellAll(Sell(products, line), rest)
  {
    var lines := [line] + rest;
    assert lines[0] == line && lines[1..] == rest;
    assert forall k :: 1 <= k < |lines| ==> lines[k] == rest[k - 1];
  }

  lemma RowsOfCons(id: int, line: SaleLine, rest: seq<SaleLine>)
    ensures RowsOf(id, [line] + rest) == [SaleItemRow(id, line.productId, line.quantity, line.price)] + RowsOf(id, rest)
  {
  }

  /** Applying the lines changes no product but in its stock, which falls by exactly the
      units sold, with no floor at zero. */
  lemma {:induction false} SellAllExact(products: map<int, Product>, lines: seq<SaleLine>)
    requires AllKnown(products, lines)
    ensures SellAll(products, lines).Keys == products.Keys
    ensures forall p :: p in products ==>
      SellAll(products, lines)[p] == products[p].(stock := products[p].stock - QuantityOf(lines, p))
    decreases |lines|
  {
    if lines != [] {
      SellAllExact(Sell(products, lines[0]), lines[1..]);
    }
  }

  /** A committed sale stores the client's total unrecomputed, with type 'sale'. */
  lemma StoredTotalIsClientTotal(users: set<int>, id: int, req: SaleRequest)
    requires Header(users, id, req).Some?
    ensures Header(users, id, req).value.total == PgNumeric(req.totalAmount).value
    ensures Header(users, id, req).value.kind == "sale"
  {
  }

  /** A total of 0 is falsy and refused with 400. */
  lemma ZeroTotalIsRefused(req: SaleRequest)
    requires req.totalAmount == Some(Num(0.0))
    ensures Incomplete(req)
  {
  }

  /** Nothing guards the stock: an item selling 5 of a product with 2 in stock is
      accepted and leaves -3. */
  lemma StockMayGoNegative()
    ensures var products := map[1 := Product("Kopi", 25000.0, 15000.0, 2)];
      var item := Obj(map["productId" := Num(1.0), "quantity" := Num(5.0), "price" := Num(25000.0)]);
      ParseItem(products, item) == Some(SaleLine(1, 5, 25000.0)) &&
      SellAll(products, [SaleLine(1, 5, 25000.0)])[1].stock == -3
  {
    var products := map[1 := Product("Kopi", 25000.0, 15000.0, 2)];
    SellAllExact(products, [SaleLine(1, 5, 25000.0)]);
    assert QuantityOf([SaleLine(1, 5, 25000.0)], 1) == 5;
  }

  // ---------------------------------------------------------------------------
  // GET /api/reports/sales-trend

  /** The TO_CHAR format of the range (which defaults to 'month'): 'YYYY-MM' for 'year',
      'YYYY-MM-DD' for any other range. */
  function TrendFormat(range: Option<string>): (r: string)
    ensures r == "YYYY-MM" <==> range == Some("year")
    ensures r == "YYYY-MM" || r == "YYYY-MM-DD"
  {
    var rangeOrDefault := range.GetOr("month");
    if rangeOrDefault == "year" then "YYYY-MM" else "YYYY-MM-DD"
  }

  // ---------------------------------------------------------------------------
  // GET /api/reports/details

  /** A row of `SELECT name, stock, cost AS cost_price FROM Products ORDER BY stock`. */
  datatype StockRow = StockRow(name: string, stock: int, costPrice: real)

  datatype StockLevel = StockLevel(name: string, stock: int, isLow: bool)

  datatype Details = Details(revenue: real, expenses: real, profit: real,
                             stockLevels: seq<StockLevel>, totalValue: real, lowStockItems: nat)

  const LowStockThreshold := 10

  /** `parseFloat(sum) || 0` of a SUM that PostgreSQL returns as text, or NULL over no
      rows. */
  function SumOrZero(sum: Option<string>): real {
    if sum.None? then 0.0 else ParseFloatOrZero(sum.value)
  }

  /** Σ stock × cost_price */
  function InventoryValue(rows: seq<StockRow>): real {
    if rows == [] then 0.0
    else InventoryValue(rows[..|rows| - 1]) + rows[|rows| - 1].stock as real * rows[|rows| - 1].costPrice
  }

  /** The number of rows below the threshold. */
  function CountLow(rows: seq<StockRow>): nat {
    if rows == [] then 0
    else (if rows[0].stock < LowStockThreshold then 1 else 0) + CountLow(rows[1..])
  }

  predicate IsLow(l: StockLevel) {
    l.isLow
  }

  /** The details handler, from the two sums and the stock rows the queries return. */
  method ReportDetails(revenueSum: Option<string>, expensesSum: Option<string>, rows: seq<StockRow>)
    returns (d: Details)
    ensures d.revenue == SumOrZero(revenueSum) && d.expenses == SumOrZero(expensesSum)
    ensures d.profit == d.revenue - d.expenses
    ensures |d.stockLevels| == |rows|
    ensures forall k :: 0 <= k < |rows| ==>
      d.stockLevels[k] == StockLevel(rows[k].name, rows[k].stock, rows[k].stock < LowStockThreshold)
    ensures d.totalValue == InventoryValue(rows)
    ensures d.lowStockItems == CountLow(rows)
  {
    var revenue := SumOrZero(revenueSum);
    var expenses := SumOrZero(expensesSum);
    var totalValue := 0.0;
    var levels: seq<StockLevel> := [];
    var i := 0;
    while i < |rows|
      invariant 0 <= i <= |rows|
      invariant totalValue == InventoryValue(rows[..i])
      invariant |levels| == i
      invariant forall k :: 0 <= k < i ==>
        levels[k] == StockLevel(rows[k].name, rows[k].stock, rows[k].stock < LowStockThreshold)
    {
      assert rows[..i + 1][..i] == rows[..i];
      totalValue := totalValue + rows[i].stock as real * rows[i].costPrice;
      levels := levels + [StockLevel(rows[i].name, rows[i].stock, rows[i].stock < LowStockThreshold)];
      i := i + 1;
    }
    assert rows[..i] == rows;
    var low := Sorting.Filter(levels, IsLow);
    LowLevelsCounted(rows, levels);
    d := Details(revenue, expenses, revenue - expenses, levels, totalValue, |low|);
  }

  /** Counting the levels flagged low counts the rows below the threshold. */
  lemma {:induction false} LowLevelsCounted(rows: seq<StockRow>, levels: seq<StockLevel>)
    requires |levels| == |rows|
    requires forall k :: 0 <= k < |rows| ==> levels[k].isLow == (rows[k].stock < LowStockThreshold)
    ensures |Sorting.Filter(levels, IsLow)| == CountLow(rows)
  {
    if rows != [] {
      LowLevelsCounted(rows[1..], levels[1..]);
    }
  }
}
