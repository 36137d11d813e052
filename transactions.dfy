/** `POST /transactions/checkout` of the MySQL backend (Backend/routes/transactions.js).
    Inside one database transaction every cart line is checked against the product's
    current stock and posted (product stock down by the quantity, each ingredient's raw
    material down by amount × quantity), then the transaction row and one item row per
    line are written; any failure rolls every change back. */
module Transactions {
  import opened Js
  import opened SalesDb

  /** One entry of the request's `items`. */
  datatype CartLine = CartLine(productId: int, quantity: int)

  /** The request body; `None` is a field that is absent (or `null`). */
  datatype CheckoutRequest = CheckoutRequest(
    discount: Option<real>, tax: Option<real>,
    paymentMethod: Option<string>, cashierName: Option<string>,
    customerName: Option<string>, notes: Option<string>,
    items: Option<seq<CartLine>>)

  datatype CheckoutResponse =
    | Created(transactionId: int)   // 201
    | BadRequest(message: string)   // 400
    | Failed(error: string)         // 500, after ROLLBACK

  /** Why a cart line cannot be posted. */
  datatype LineError =
    | NotFound(productId: int)
    | InsufficientStock(name: string, available: int, requested: int)

  function Message(e: LineError): string {
    match e
    case NotFound(id) => "Product with ID " + IntToString(id) + " not found"
    case InsufficientStock(name, available, requested) =>
      "Insufficient stock for product: " + name + ". Available: " + IntToString(available)
      + ", Requested: " + IntToString(requested)
  }

  /** `x || 0` for a number that may be absent */
  function OrZero(x: Option<real>): real {
    if x.Some? then x.value else 0.0
  }

  /** `s || null` for a text that may be absent: the empty text is stored as NULL too */
  function OrNull(s: Option<string>): (r: Option<string>)
    ensures r.Some? <==> s.Some? && s.value != ""
    ensures r.Some? ==> r.value == s.value
  {
    if s.Some? && s.value != "" then s else None
  }

  /** The two 400 checks, in the order the handler makes them. */
  function Validate(req: CheckoutRequest): (r: Option<string>)
    ensures r.None? <==>
      req.items.Some? && |req.items.value| > 0 &&
      OrNull(req.paymentMethod).Some? && OrNull(req.cashierName).Some?
  {
    if req.items.None? || |req.items.value| == 0 then Some("Items cannot be empty")
    else if OrNull(req.paymentMethod).None? || OrNull(req.cashierName).None? then
      Some("Payment method and cashier name are required")
    else None
  }

  // ---------------------------------------------------------------------------
  // Posting the lines

  /** The `product_ingredients` rows of a product, none when it has no recipe. */
  function RecipeOf(recipes: map<int, seq<Ingredient>>, productId: int): seq<Ingredient> {
    if productId in recipes then recipes[productId] else []
  }

  /** `UPDATE raw_materials SET stock = stock - amount * quantity WHERE id = ?`: a row
      that does not exist is not matched, and nothing checks that the stock suffices. */
  function Consume(raw: map<int, real>, ing: Ingredient, quantity: int): map<int, real> {
    if ing.rawMaterialId in raw then
      raw[ing.rawMaterialId := raw[ing.rawMaterialId] - Times(ing.amount, quantity)]
    else raw
  }

  function ConsumeAll(raw: map<int, real>, ings: seq<Ingredient>, quantity: int): map<int, real>
    decreases |ings|
  {
    if ings == [] then raw else ConsumeAll(Consume(raw, ings[0], quantity), ings[1..], quantity)
  }

  datatype Posted = Posted(products: map<int, Product>, raw: map<int, real>,
                           subtotal: real, profit: real)
  datatype PostResult = Ok(posted: Posted) | Err(error: LineError)

  /** The first loop of the handler: each line, in order, is checked against the stock
      the earlier lines left and then posted; `subtotal` and `profit` accumulate. */
  function PostLines(products: map<int, Product>, raw: map<int, real>,
                     recipes: map<int, seq<Ingredient>>, items: seq<CartLine>,
                     subtotal: real, profit: real): PostResult
    decreases |items|
  {
    if items == [] then Ok(Posted(products, raw, subtotal, profit))
    else
      var line := items[0];
      if line.productId !in products then Err(NotFound(line.productId))
      else
        var p := products[line.productId];
        if p.stock < line.quantity then Err(InsufficientStock(p.name, p.stock, line.quantity))
        else
          PostLines(products[line.productId := p.(stock := p.stock - line.quantity)],
                    ConsumeAll(raw, RecipeOf(recipes, line.productId), line.quantity),
                    recipes, items[1..],
                    subtotal + Times(p.price, line.quantity),
                    profit + Times(p.price - p.costPrice, line.quantity))
  }

  /** The `transaction_items` row of one line, from the product as re-read after
      posting. */
  function ItemRow(transactionId: int, productId: int, p: Product, quantity: int): TransactionItemRow {
    TransactionItemRow(transactionId, productId, p.name, quantity, p.price, p.costPrice,
                       Times(p.price, quantity), Times(p.price - p.costPrice, quantity))
  }

  ghost predicate AllKnown(products: map<int, Product>, items: seq<CartLine>) {
    forall k :: 0 <= k < |items| ==> items[k].productId in products
  }

  function ItemRows(transactionId: int, products: map<int, Product>, items: seq<CartLine>): (r: seq<TransactionItemRow>)
    requires AllKnown(products, items)
    ensures |r| == |items|
  {
    seq(|items|, k requires 0 <= k < |items| =>
      ItemRow(transactionId, items[k].productId, products[items[k].productId], items[k].quantity))
  }

  function SaleRow(id: int, req: CheckoutRequest, post: Posted): TransactionRow
    requires req.paymentMethod.Some? && req.cashierName.Some?
  {
    TransactionRow(id, post.subtotal, OrZero(req.discount), OrZero(req.tax),
                   post.subtotal - OrZero(req.discount) + OrZero(req.tax), post.profit,
                   req.paymentMethod.value, req.cashierName.value,
                   OrNull(req.customerName), OrNull(req.notes))
  }

  // ---------------------------------------------------------------------------
  // The handler

  /** The raw-material updates of one posted line. */
  method ConsumeIngredients(db: Store, ings: seq<Ingredient>, quantity: int)
    modifies db`rawStock
    ensures db.rawStock == ConsumeAll(old(db.rawStock), ings, quantity)
  {
    var j := 0;
    while j < |ings|
      invariant 0 <= j <= |ings|
      invariant ConsumeAll(old(db.rawStock), ings, quantity) == ConsumeAll(db.rawStock, ings[j..], quantity)
    {
      assert ings[j..][1..] == ings[j + 1..];
      var ing := ings[j];
      if ing.rawMaterialId in db.rawStock {
        db.rawStock := db.rawStock[ing.rawMaterialId := db.rawStock[ing.rawMaterialId] - Times(ing.amount, quantity)];
      }
      j := j + 1;
    }
  }

  /** The handler's first loop. It stops at the first line that cannot be posted,
      leaving the earlier lines' updates for the caller to roll back. */
  method PostCart(db: Store, items: seq<CartLine>) returns (err: Option<LineError>, subtotal: real, profit: real)
    modifies db`products, db`rawStock
    ensures var r := PostLines(old(db.products), old(db.rawStock), db.recipes, items, 0.0, 0.0);
      (r.Err? <==> err.Some?) &&
      (r.Err? ==> err.value == r.error) &&
      (r.Ok? ==> r.posted == Posted(db.products, db.rawStock, subtotal, profit))
  {
    subtotal, profit := 0.0, 0.0;
    var i := 0;
    while i < |items|
      invariant 0 <= i <= |items|
      invariant PostLines(old(db.products), old(db.rawStock), db.recipes, items, 0.0, 0.0)
             == PostLines(db.products, db.rawStock, db.recipes, items[i..], subtotal, profit)
    {
      assert items[i..][0] == items[i] && items[i..][1..] == items[i + 1..];
      var line := items[i];
      if line.productId !in db.products {
        return Some(NotFound(line.productId)), subtotal, profit;
      }
      var p := db.products[line.productId];
      if p.stock < line.quantity {
        return Some(InsufficientStock(p.name, p.stock, line.quantity)), subtotal, profit;
      }
      subtotal := subtotal + Times(p.price, line.quantity);
      profit := profit + Times(p.price - p.costPrice, line.quantity);
      db.products := db.products[line.productId := p.(stock := p.stock - line.quantity)];
      ConsumeIngredients(db, RecipeOf(db.recipes, line.productId), line.quantity);
      i := i + 1;
    }
    err := None;
  }

  /** The checkout handler. A 400 or a failed line leaves every table as it was; a
      successful checkout leaves the products and raw materials as `PostLines` posts
      them and appends the transaction row and one item row per line. */
  method Checkout(db: Store, req: CheckoutRequest) returns (res: CheckoutResponse)
    modifies db`products, db`rawStock, db`transactions, db`transactionItems, db`nextTransactionId
    ensures Validate(req).Some? ==> res == BadRequest(Validate(req).value) && unchanged(db)
    ensures Validate(req).None? ==>
      var r := PostLines(old(db.products), old(db.rawStock), db.recipes, req.items.value, 0.0, 0.0);
      (r.Err? ==> res == Failed(Message(r.error)) && unchanged(db)) &&
      (r.Ok? ==>
        var id := old(db.nextTransactionId);
        AllKnown(r.posted.products, req.items.value) &&
        res == Created(id) &&
        db.products == r.posted.products && db.rawStock == r.posted.raw &&
        db.transactions == old(db.transactions) + [SaleRow(id, req, r.posted)] &&
        db.transactionItems == old(db.transactionItems) + ItemRows(id, r.posted.products, req.items.value) &&
        db.nextTransactionId == id + 1)
  {
    var invalid := Validate(req);
    if invalid.Some? {
      return BadRequest(invalid.value);
    }
    var items := req.items.value;
    // BEGIN
    var savedProducts, savedRaw := db.products, db.rawStock;
    var err, subtotal, profit := PostCart(db, items);
    if err.Some? {
      // ROLLBACK
      db.products, db.rawStock := savedProducts, savedRaw;
      return Failed(Message(err.value));
    }
    var post := Posted(db.products, db.rawStock, subtotal, profit);
    PostedKeepsCatalog(savedProducts, savedRaw, db.recipes, items, 0.0, 0.0);
    var id := db.nextTransactionId;
    db.transactions := db.transactions + [SaleRow(id, req, post)];
    db.nextTransactionId := id + 1;
    var i := 0;
    while i < |items|
      invariant 0 <= i <= |items|
      invariant db.products == post.products && db.rawStock == post.raw
      invariant db.transactions == old(db.transactions) + [SaleRow(id, req, post)]
      invariant db.nextTransactionId == id + 1
      invariant db.transactionItems == old(db.transactionItems) + ItemRows(id, db.products, items[..i])
    {
      var line := items[i];
      db.transactionItems := db.transactionItems + [ItemRow(id, line.productId, db.products[line.productId], line.quantity)];
      i := i + 1;
    }
    assert items[..i] == items;
    // COMMIT
    res := Created(id);
  }

  // ---------------------------------------------------------------------------
  // What a posting does

  /** Units of product `id` the lines ask for. */
  function QuantityOf(items: seq<CartLine>, id: int): int {
    if items == [] then 0
    else (if items[0].productId == id then items[0].quantity else 0) + QuantityOf(items[1..], id)
  }

  /** What a line asks of product `id` in `products`: `None` when it can be posted after
      the lines before it, otherwise the error the handler raises. */
  function LineCheck(products: map<int, Product>, items: seq<CartLine>, k: int): Option<LineError>
    requires 0 <= k < |items|
  {
    var line := items[k];
    if line.productId !in products then Some(NotFound(line.productId))
    else
      var available := products[line.productId].stock - QuantityOf(items[..k], line.productId);
      if available < line.quantity then
        Some(InsufficientStock(products[line.productId].name, available, line.quantity))
      else None
  }

  ghost predicate AllLinesPass(products: map<int, Product>, items: seq<CartLine>) {
    forall k :: 0 <= k < |items| ==> LineCheck(products, items, k).None?
  }

  /** After posting the first line, checking the rest against the updated products is
      checking them against the original products and the whole cart. */
  lemma LineCheckShift(products: map<int, Product>, items: seq<CartLine>, k: int)
    requires |items| > 0 && items[0].productId in products
    requires 1 <= k < |items|
    ensures var p := products[items[0].productId];
      LineCheck(products[items[0].productId := p.(stock := p.stock - items[0].quantity)], items[1..], k - 1)
      == LineCheck(products, items, k)
  {
    assert items[..k][1..] == items[1..][..k - 1];
    assert items[..k][0] == items[0];
  }

  /** A checkout succeeds exactly when every line can be posted against the stock the
      lines before it leave; when it fails, the error is that of the first line that
      cannot, naming its product, the stock still available and the quantity asked. */
  lemma {:induction false} PostLinesOutcome(products: map<int, Product>, raw: map<int, real>,
                                            recipes: map<int, seq<Ingredient>>, items: seq<CartLine>,
                                            subtotal: real, profit: real)
    ensures PostLines(products, raw, recipes, items, subtotal, profit).Ok? <==> AllLinesPass(products, items)
    ensures PostLines(products, raw, recipes, items, subtotal, profit).Err? ==>
      exists k :: 0 <= k < |items| && AllLinesPass(products, items[..k]) &&
        LineCheck(products, items, k) == Some(PostLines(products, raw, recipes, items, subtotal, profit).error)
    decreases |items|
  {
    if items == [] {
      return;
    }
    var line := items[0];
    assert items[..0] == [];
    if line.productId !in products || products[line.productId].stock < line.quantity {
      assert LineCheck(products, items, 0).Some?;
      assert AllLinesPass(products, items[..0]);
      return;
    }
    var p := products[line.productId];
    var products1 := products[line.productId := p.(stock := p.stock - line.quantity)];
    var raw1 := ConsumeAll(raw, RecipeOf(recipes, line.productId), line.quantity);
    var subtotal1 := subtotal + Times(p.price, line.quantity);
    var profit1 := profit + Times(p.price - p.costPrice, line.quantity);
    var rest := items[1..];
    PostLinesOutcome(products1, raw1, recipes, rest, subtotal1, profit1);
    var r := PostLines(products1, raw1, recipes, rest, subtotal1, profit1);
    assert PostLines(products, raw, recipes, items, subtotal, profit) == r;
    assert LineCheck(products, items, 0).None?;
    forall k | 1 <= k < |items|
      ensures LineCheck(products1, rest, k - 1) == LineCheck(products, items, k)
    {
      LineCheckShift(products, items, k);
    }
    if r.Ok? {
      forall k | 0 <= k < |items| ensures LineCheck(products, items, k).None? {
        if k > 0 {
          assert LineCheck(products1, rest, k - 1).None?;
        }
      }
    } else {
      var j :| 0 <= j < |rest| && AllLinesPass(products1, rest[..j]) &&
        LineCheck(products1, rest, j) == Some(r.error);
      assert LineCheck(products, items, j + 1) == Some(r.error);
      var prefix := items[..j + 1];
      forall k | 0 <= k < j + 1 ensures LineCheck(products, prefix, k).None? {
        assert prefix[..k] == items[..k];
        if k > 0 {
          assert rest[..j][..k - 1] == rest[..k - 1];
          assert LineCheck(products1, rest[..j], k - 1).None?;
          assert rest[..j][k - 1] == rest[k - 1];
          assert LineCheck(products1, rest[..j], k - 1) == LineCheck(products1, rest, k - 1);
          assert LineCheck(products, items, k) == LineCheck(products, prefix, k);
        }
      }
      assert !AllLinesPass(products, items);
    }
  }

  /** A successful posting changes no product but in its stock, which falls by exactly
      the units the cart asks for, and every line names a known product. */
  lemma {:induction false} PostedKeepsCatalog(products: map<int, Product>, raw: map<int, real>,
                                              recipes: map<int, seq<Ingredient>>, items: seq<CartLine>,
                                              subtotal: real, profit: real)
    requires PostLines(products, raw, recipes, items, subtotal, profit).Ok?
    ensures var post := PostLines(products, raw, recipes, items, subtotal, profit).posted;
      post.products.Keys == products.Keys &&
      AllKnown(products, items) && AllKnown(post.products, items) &&
      forall id :: id in products ==>
        post.products[id] == products[id].(stock := products[id].stock - QuantityOf(items, id))
    decreases |items|
  {
    if items != [] {
      var line := items[0];
      var p := products[line.productId];
      var products1 := products[line.productId := p.(stock := p.stock - line.quantity)];
      PostedKeepsCatalog(products1,
                         ConsumeAll(raw, RecipeOf(recipes, line.productId), line.quantity),
                         recipes, items[1..],
                         subtotal + Times(p.price, line.quantity),
                         profit + Times(p.price - p.costPrice, line.quantity));
      forall k | 0 <= k < |items| ensures items[k].productId in products {
        if k > 0 {
          assert items[1..][k - 1] == items[k];
        }
      }
    }
  }

  /** Units of raw material `m` that one line's recipe consumes. */
  function IngredientDemand(ings: seq<Ingredient>, m: int, quantity: int): real {
    if ings == [] then 0.0
    else (if ings[0].rawMaterialId == m then Times(ings[0].amount, quantity) else 0.0)
         + IngredientDemand(ings[1..], m, quantity)
  }

  /** Units of raw material `m` that the whole cart consumes. */
  function RawDemand(recipes: map<int, seq<Ingredient>>, items: seq<CartLine>, m: int): real {
    if items == [] then 0.0
    else IngredientDemand(RecipeOf(recipes, items[0].productId), m, items[0].quantity)
         + RawDemand(recipes, items[1..], m)
  }

  lemma {:induction false} ConsumeAllEffect(raw: map<int, real>, ings: seq<Ingredient>, quantity: int)
    ensures ConsumeAll(raw, ings, quantity).Keys == raw.Keys
    ensures forall m :: m in raw ==>
      ConsumeAll(raw, ings, quantity)[m] == raw[m] - IngredientDemand(ings, m, quantity)
    decreases |ings|
  {
    if ings != [] {
      ConsumeAllEffect(Consume(raw, ings[0], quantity), ings[1..], quantity);
    }
  }

  /** A successful posting takes from each raw material exactly what the recipes of
      the cart's lines consume, with no floor at zero; materials that no recipe names
      are untouched. */
  lemma {:induction false} PostedConsumesRecipes(products: map<int, Product>, raw: map<int, real>,
                                                 recipes: map<int, seq<Ingredient>>, items: seq<CartLine>,
                                                 subtotal: real, profit: real)
    requires PostLines(products, raw, recipes, items, subtotal, profit).Ok?
    ensures var post := PostLines(products, raw, recipes, items, subtotal, profit).posted;
      post.raw.Keys == raw.Keys &&
      forall m :: m in raw ==> post.raw[m] == raw[m] - RawDemand(recipes, items, m)
    decreases |items|
  {
    if items != [] {
      var line := items[0];
      var p := products[line.productId];
      var raw1 := ConsumeAll(raw, RecipeOf(recipes, line.productId), line.quantity);
      ConsumeAllEffect(raw, RecipeOf(recipes, line.productId), line.quantity);
      PostedConsumesRecipes(products[line.productId := p.(stock := p.stock - line.quantity)],
                            raw1, recipes, items[1..],
                            subtotal + Times(p.price, line.quantity),
                            profit + Times(p.price - p.costPrice, line.quantity));
    }
  }

  /** Σ price × quantity and Σ (price − cost) × quantity over the lines. */
  function SaleValue(products: map<int, Product>, items: seq<CartLine>): real {
    if items == [] then 0.0
    else (if items[0].productId in products then Times(products[items[0].productId].price, items[0].quantity) else 0.0)
         + SaleValue(products, items[1..])
  }

  function ProfitValue(products: map<int, Product>, items: seq<CartLine>): real {
    if items == [] then 0.0
    else (if items[0].productId in products
          then Times(products[items[0].productId].price - products[items[0].productId].costPrice, items[0].quantity)
          else 0.0)
         + ProfitValue(products, items[1..])
  }

  /** Two product tables that agree on everything but stock. */
  ghost predicate SamePrices(a: map<int, Product>, b: map<int, Product>) {
    a.Keys == b.Keys &&
    forall id :: id in a ==> a[id].name == b[id].name && a[id].price == b[id].price && a[id].costPrice == b[id].costPrice
  }

  lemma {:induction false} ValuesIgnoreStock(a: map<int, Product>, b: map<int, Product>, items: seq<CartLine>)
    requires SamePrices(a, b)
    ensures SaleValue(a, items) == SaleValue(b, items)
    ensures ProfitValue(a, items) == ProfitValue(b, items)
    decreases |items|
  {
    if items != [] {
      ValuesIgnoreStock(a, b, items[1..]);
    }
  }

  /** A successful posting adds Σ price × quantity to the subtotal and
      Σ (price − cost) × quantity to the profit, at the prices before the sale. */
  lemma {:induction false} PostedTotals(products: map<int, Product>, raw: map<int, real>,
                                        recipes: map<int, seq<Ingredient>>, items: seq<CartLine>,
                                        subtotal: real, profit: real)
    requires PostLines(products, raw, recipes, items, subtotal, profit).Ok?
    ensures var post := PostLines(products, raw, recipes, items, subtotal, profit).posted;
      post.subtotal == subtotal + SaleValue(products, items) &&
      post.profit == profit + ProfitValue(products, items)
    decreases |items|
  {
    if items != [] {
      var line := items[0];
      var p := products[line.productId];
      var products1 := products[line.productId := p.(stock := p.stock - line.quantity)];
      PostedTotals(products1, ConsumeAll(raw, RecipeOf(recipes, line.productId), line.quantity),
                   recipes, items[1..],
                   subtotal + Times(p.price, line.quantity),
                   profit + Times(p.price - p.costPrice, line.quantity));
      ValuesIgnoreStock(products1, products, items[1..]);
    }
  }

  function SumTotalPrice(rows: seq<TransactionItemRow>): real {
    if rows == [] then 0.0 else rows[0].totalPrice + SumTotalPrice(rows[1..])
  }

  function SumProfit(rows: seq<TransactionItemRow>): real {
    if rows == [] then 0.0 else rows[0].profit + SumProfit(rows[1..])
  }

  /** The item rows add up to the sale's value and profit. */
  lemma {:induction false} ItemRowsAddUp(transactionId: int, products: map<int, Product>, items: seq<CartLine>)
    requires AllKnown(products, items)
    ensures SumTotalPrice(ItemRows(transactionId, products, items)) == SaleValue(products, items)
    ensures SumProfit(ItemRows(transactionId, products, items)) == ProfitValue(products, items)
    decreases |items|
  {
    if items != [] {
      assert ItemRows(transactionId, products, items)[1..] == ItemRows(transactionId, products, items[1..]);
      ItemRowsAddUp(transactionId, products, items[1..]);
    }
  }

  /** What a committed checkout records: the transaction's subtotal and profit are the
      cart's value and profit at the prices before the sale, its total is
      subtotal − discount + tax, and its item rows, one per line, sum to the subtotal and
      the profit. */
  lemma CommittedSale(products: map<int, Product>, raw: map<int, real>,
                      recipes: map<int, seq<Ingredient>>, id: int, req: CheckoutRequest)
    requires Validate(req).None?
    requires PostLines(products, raw, recipes, req.items.value, 0.0, 0.0).Ok?
    ensures var post := PostLines(products, raw, recipes, req.items.value, 0.0, 0.0).posted;
      var row := SaleRow(id, req, post);
      AllKnown(post.products, req.items.value) &&
      row.subtotal == SaleValue(products, req.items.value) &&
      row.profit == ProfitValue(products, req.items.value) &&
      row.total == row.subtotal - row.discount + row.tax &&
      SumTotalPrice(ItemRows(id, post.products, req.items.value)) == row.subtotal &&
      SumProfit(ItemRows(id, post.products, req.items.value)) == row.profit
  {
    var items := req.items.value;
    var post := PostLines(products, raw, recipes, items, 0.0, 0.0).posted;
    PostedTotals(products, raw, recipes, items, 0.0, 0.0);
    PostedKeepsCatalog(products, raw, recipes, items, 0.0, 0.0);
    ItemRowsAddUp(id, post.products, items);
    assert SamePrices(post.products, products);
    ValuesIgnoreStock(post.products, products, items);
  }

  // ---------------------------------------------------------------------------
  // Worked cases

  /** A product with price 25000, cost 15000 and 50 in stock whose recipe takes 10 of
      raw material 7: selling two leaves 48, takes 20 of the material, and records a
      subtotal of 50000 and a profit of 20000. */
  lemma TwoCupsOfCoffee()
    ensures var r := PostLines(map[1 := Product("Kopi", 25000.0, 15000.0, 50)], map[7 := 100.0],
                               map[1 := [Ingredient(7, 10.0)]], [CartLine(1, 2)], 0.0, 0.0);
      r == Ok(Posted(map[1 := Product("Kopi", 25000.0, 15000.0, 48)], map[7 := 80.0], 50000.0, 20000.0))
  {
  }

  /** Two lines of the same product are checked against what the first left: 3 in stock
      serve the first line of 2, and the second line of 2 finds 1 available. */
  lemma RepeatedLineSeesEarlierLines()
    ensures PostLines(map[1 := Product("Teh", 8000.0, 3000.0, 3)], map[], map[],
                      [CartLine(1, 2), CartLine(1, 2)], 0.0, 0.0)
            == Err(InsufficientStock("Teh", 1, 2))
  {
  }

  /** No check guards the raw materials: a recipe may take a material below zero. */
  lemma RawStockMayGoNegative()
    ensures PostLines(map[1 := Product("Kopi", 25000.0, 15000.0, 5)], map[7 := 5.0],
                      map[1 := [Ingredient(7, 10.0)]], [CartLine(1, 1)], 0.0, 0.0).posted.raw[7] == -5.0
  {
  }

  /** No check guards the quantity: a negative quantity passes the stock check and adds
      to the stock. */
  lemma NegativeQuantityRestocks()
    ensures PostLines(map[1 := Product("Teh", 8000.0, 3000.0, 3)], map[], map[],
                      [CartLine(1, -2)], 0.0, 0.0).posted.products[1].stock == 5
  {
  }
}
