/** `POST /purchases` of the MySQL backend (Backend/routes/purchases.js): inside one
    database transaction, the purchase header row is inserted, then each item row, and
    each item's raw material is restocked by its quantity; any error rolls back. */
module PurchaseRoute {
  import opened Js
  import opened SalesDb

  /** The fields the handler uses from one entry of `items`. */
  datatype ItemBody = ItemBody(rawMaterialId: Option<Value>, quantity: Option<Value>,
                               unitCost: Option<Value>, total: Option<Value>)

  /** The fields the handler uses from the request body. `items` is `None` when the
      loop over it throws: it is absent, `null` or not iterable, or one of its entries
      is `null`. */
  datatype PurchaseBody = PurchaseBody(date: Option<Value>, supplier: Option<Value>,
                                       totalAmount: Option<Value>, notes: Option<Value>,
                                       items: Option<seq<ItemBody>>)

  datatype PurchaseResponse = Recorded | Failed

  /** The key names under which a body carries the header total, an item's raw
      material and an item's unit cost. */
  datatype Keys = Keys(totalAmount: string, rawMaterialId: string, unitCost: string)

  /** The names the handler reads: `total_amount`, `item.rawMaterialId`,
      `item.unitCost`. */
  const HandlerKeys := Keys("total_amount", "rawMaterialId", "unitCost")

  /** The names the Purchases page sends: `totalAmount`, `raw_material_id`,
      `unit_cost`. */
  const PageKeys := Keys("totalAmount", "raw_material_id", "unit_cost")

  /** `item.rawMaterialId` and the rest; on an entry that is not an object every field
      reads as `undefined`. */
  function ReadItemWith(keys: Keys, v: Value): (r: ItemBody)
    ensures v.Obj? ==>
      r.rawMaterialId == Get(v.fields, keys.rawMaterialId) && r.quantity == Get(v.fields, "quantity") &&
      r.unitCost == Get(v.fields, keys.unitCost) && r.total == Get(v.fields, "total")
    ensures !v.Obj? ==> r == ItemBody(None, None, None, None)
  {
    match v
    case Obj(f) => ItemBody(Get(f, keys.rawMaterialId), Get(f, "quantity"), Get(f, keys.unitCost), Get(f, "total"))
    case _ => ItemBody(None, None, None, None)
  }

  /** `for (const item of items)`: an array gives its entries, and a text its
      characters, on which every field reads as `undefined`. */
  function ReadItemsWith(keys: Keys, items: Option<Value>): (r: Option<seq<ItemBody>>)
    ensures r.Some? <==> items.Some? && (items.value.Str? || (items.value.Arr? &&
                         forall i :: 0 <= i < |items.value.elems| ==> !items.value.elems[i].Null?))
    ensures r.Some? && items.value.Arr? ==>
      |r.value| == |items.value.elems| &&
      forall i :: 0 <= i < |r.value| ==> r.value[i] == ReadItemWith(keys, items.value.elems[i])
    ensures r.Some? && items.value.Str? ==>
      |r.value| == |items.value.s| &&
      forall i :: 0 <= i < |r.value| ==> r.value[i] == ItemBody(None, None, None, None)
  {
    match items
    case Some(Arr(es)) =>
      if forall i :: 0 <= i < |es| ==> !es[i].Null? then
        Some(seq(|es|, i requires 0 <= i < |es| => ReadItemWith(keys, es[i])))
      else None
    case Some(Str(s)) => Some(seq(|s|, i requires 0 <= i < |s| => ItemBody(None, None, None, None)))
    case _ => None
  }

  function ReadBodyWith(keys: Keys, body: Object): PurchaseBody {
    PurchaseBody(Get(body, "date"), Get(body, "supplier"), Get(body, keys.totalAmount),
                 Get(body, "notes"), ReadItemsWith(keys, Get(body, "items")))
  }

  /** The body as the handler reads it. */
  function ReadBodyAsWritten(body: Object): PurchaseBody {
    ReadBodyWith(HandlerKeys, body)
  }

  /** The body read under the names the Purchases page sends them. */
  function ReadBody(body: Object): PurchaseBody {
    ReadBodyWith(PageKeys, body)
  }

  /** The `raw_materials.id` a `WHERE id = ?` parameter matches. MySQL compares the
      column with the parameter as numbers: an integral number matches that id, `true`
      and `false` (as the driver writes them) match 1 and 0, and a text matches when it
      reads in full as an integral number (`"12"`, `" 12"`, `"12.0"`). NULL, a
      fractional value, an array or an object matches no row. */
  function SqlId(v: Option<Value>): (r: Option<int>)
    ensures r.Some? ==> v.Some? && (v.value.Num? || v.value.Bool? || v.value.Str?)
    ensures v.Some? && v.value.Num? ==>
              (r.Some? <==> v.value.n == v.value.n.Floor as real) && (r.Some? ==> r.value as real == v.value.n)
    ensures v.Some? && v.value.Str? ==>
              (r.Some? <==> NumericText(v.value.s).Some? && NumericText(v.value.s).value == NumericText(v.value.s).value.Floor as real) &&
              (r.Some? ==> r.value as real == NumericText(v.value.s).value)
    ensures v.None? || v.value.Null? ==> r.None?
  {
    match v
    case Some(Num(n)) => if n == n.Floor as real then Some(n.Floor) else None
    case Some(Bool(b)) => Some(if b then 1 else 0)
    case Some(Str(s)) =>
      (match NumericText(s)
       case Some(x) => if x == x.Floor as real then Some(x.Floor) else None
       case None => None)
    case _ => None
  }

  /** The decimal text of an id, as `String(id)` writes it, matches that id. */
  lemma SqlIdOfDecimalText(n: nat)
    ensures SqlId(Some(Str(NatToString(n)))) == Some(n)
  {
    NumericTextDigits(NatToString(n));
    assert (n as real).Floor == n;
  }

  /** The amount `stock + ?` adds: a number, a boolean as 1 or 0, or a text that reads
      in full as a number. `None` stands for NULL (an absent or `null` quantity) and
      for values MySQL cannot add without truncating: in strict mode the UPDATE is then
      refused (NULL, because `stock + NULL` is NULL and the column is NOT NULL). */
  function SqlAmount(v: Option<Value>): (r: Option<real>)
    ensures v.Some? && v.value.Num? ==> r == Some(v.value.n)
    ensures v.Some? && v.value.Str? ==> r == NumericText(v.value.s)
    ensures v.None? || v.value.Null? || v.value.Arr? || v.value.Obj? ==> r.None?
  {
    match v
    case Some(Num(n)) => Some(n)
    case Some(Bool(b)) => Some(if b then 1.0 else 0.0)
    case Some(Str(s)) => NumericText(s)
    case _ => None
  }

  /** The item's UPDATE matches a row but the database refuses the amount. */
  predicate Refuses(raw: map<int, real>, item: ItemBody) {
    var id := SqlId(item.rawMaterialId);
    id.Some? && id.value in raw && SqlAmount(item.quantity).None?
  }

  /** `UPDATE raw_materials SET stock = stock + quantity WHERE id = rawMaterialId`;
      `None` when the statement fails. */
  function Receive(raw: map<int, real>, item: ItemBody): (r: Option<map<int, real>>)
    ensures r.None? <==> Refuses(raw, item)
    ensures r.Some? ==> r.value.Keys == raw.Keys
  {
    var id := SqlId(item.rawMaterialId);
    if id.Some? && id.value in raw then
      var q := SqlAmount(item.quantity);
      if q.Some? then Some(raw[id.value := raw[id.value] + q.value]) else None
    else Some(raw)
  }

  /** The stock updates of all items in order; `None` at the first one that fails. */
  function ReceiveAll(raw: map<int, real>, items: seq<ItemBody>): (r: Option<map<int, real>>)
    ensures r.Some? ==> r.value.Keys == raw.Keys
    decreases |items|
  {
    if items == [] then Some(raw)
    else
      match Receive(raw, items[0])
      case None => None
      case Some(next) => ReceiveAll(next, items[1..])
  }

  function HeaderRow(id: int, body: PurchaseBody): PurchaseRow {
    PurchaseRow(id, body.date, body.supplier, body.totalAmount, body.notes)
  }

  function ItemRow(purchaseId: int, item: ItemBody): PurchaseItemRow {
    PurchaseItemRow(purchaseId, item.rawMaterialId, item.quantity, item.unitCost, item.total)
  }

  /** The `purchase_items` rows of a purchase, one per item in order. */
  function ItemRows(purchaseId: int, items: seq<ItemBody>): (r: seq<PurchaseItemRow>)
    ensures |r| == |items| && forall k :: 0 <= k < |items| ==> r[k] == ItemRow(purchaseId, items[k])
  {
    seq(|items|, k requires 0 <= k < |items| => ItemRow(purchaseId, items[k]))
  }

  lemma ItemRowsStep(purchaseId: int, items: seq<ItemBody>, i: nat)
    requires i < |items|
    ensures ItemRows(purchaseId, items[..i + 1]) == ItemRows(purchaseId, items[..i]) + [ItemRow(purchaseId, items[i])]
  {
  }

  /** Receiving the items from `i` on is receiving item `i`, then the rest. */
  lemma ReceiveFrom(raw: map<int, real>, items: seq<ItemBody>, i: nat)
    requires i < |items|
    ensures Receive(raw, items[i]).None? ==> ReceiveAll(raw, items[i..]).None?
    ensures Receive(raw, items[i]).Some? ==>
              ReceiveAll(raw, items[i..]) == ReceiveAll(Receive(raw, items[i]).value, items[i + 1..])
  {
    assert items[i..][0] == items[i];
    assert items[i..][1..] == items[i + 1..];
  }

  /** Whether the database refuses one of the first `n` statements of a purchase.
      `refused` names the statement refused for a reason the model does not see (a
      lost connection, a column constraint): 0 is the header INSERT, and item `k`'s
      INSERT and UPDATE are `2k + 1` and `2k + 2`. */
  predicate RefusedAmong(refused: Option<nat>, n: nat) {
    refused.Some? && refused.value < n
  }

  /** The purchase commits: the items can be walked, no statement is refused, and
      every stock update succeeds. */
  predicate Commits(raw: map<int, real>, body: PurchaseBody, refused: Option<nat>) {
    body.items.Some? && !RefusedAmong(refused, 1 + 2 * |body.items.value|) &&
    ReceiveAll(raw, body.items.value).Some?
  }

  /** The purchase handler. The header insert takes an id from the AUTO_INCREMENT
      counter, which a failed insert or a rollback does not give back. Any error rolls
      the tables back and answers 500. */
  method RecordPurchase(db: Store, body: PurchaseBody, refused: Option<nat>) returns (res: PurchaseResponse)
    modifies db`purchases, db`purchaseItems, db`rawStock, db`nextPurchaseId
    ensures db.nextPurchaseId == old(db.nextPurchaseId) + 1
    ensures !Commits(old(db.rawStock), body, refused) ==>
      res == Failed && db.purchases == old(db.purchases) &&
      db.purchaseItems == old(db.purchaseItems) && db.rawStock == old(db.rawStock)
    ensures Commits(old(db.rawStock), body, refused) ==>
      var id := old(db.nextPurchaseId);
      res == Recorded &&
      db.purchases == old(db.purchases) + [HeaderRow(id, body)] &&
      db.purchaseItems == old(db.purchaseItems) + ItemRows(id, body.items.value) &&
      db.rawStock == ReceiveAll(old(db.rawStock), body.items.value).value
  {
    // BEGIN
    var savedPurchases, savedItems, savedRaw := db.purchases, db.purchaseItems, db.rawStock;
    var id := db.nextPurchaseId;
    db.nextPurchaseId := id + 1;
    if refused == Some(0) {
      // the header INSERT fails; ROLLBACK
      return Failed;
    }
    db.purchases := db.purchases + [HeaderRow(id, body)];
    if body.items.None? {
      // `for (const item of items)` throws; ROLLBACK
      db.purchases := savedPurchases;
      return Failed;
    }
    var items := body.items.value;
    var i := 0;
    while i < |items|
      invariant 0 <= i <= |items|
      invariant !RefusedAmong(refused, 1 + 2 * i)
      invariant db.purchases == savedPurchases + [HeaderRow(id, body)]
      invariant db.nextPurchaseId == id + 1
      invariant db.purchaseItems == savedItems + ItemRows(id, items[..i])
      invariant ReceiveAll(savedRaw, items) == ReceiveAll(db.rawStock, items[i..])
    {
      var item := items[i];
      if refused == Some(2 * i + 1) {
        db.purchases, db.purchaseItems, db.rawStock := savedPurchases, savedItems, savedRaw;
        return Failed;
      }
      ItemRowsStep(id, items, i);
      db.purchaseItems := db.purchaseItems + [ItemRow(id, item)];
      if refused == Some(2 * i + 2) {
        db.purchases, db.purchaseItems, db.rawStock := savedPurchases, savedItems, savedRaw;
        return Failed;
      }
      // the UPDATE; it fails on `stock + NULL` or an unreadable amount
      ReceiveFrom(db.rawStock, items, i);
      var next := Receive(db.rawStock, item);
      if next.None? {
        // ROLLBACK
        db.purchases, db.purchaseItems, db.rawStock := savedPurchases, savedItems, savedRaw;
        return Failed;
      }
      db.rawStock := next.value;
      i := i + 1;
    }
    assert items[..i] == items;
    // COMMIT
    res := Recorded;
  }

  /** Units of raw material `m` the items deliver. */
  function Received(items: seq<ItemBody>, m: int): real {
    if items == [] then 0.0
    else (if SqlId(items[0].rawMaterialId) == Some(m) then SqlAmount(items[0].quantity).GetOr(0.0) else 0.0)
         + Received(items[1..], m)
  }

  /** Receiving fails exactly when an item's update matches a row whose amount the
      database refuses; otherwise it raises each raw material by exactly the
      quantities delivered to it and creates or removes no material. */
  lemma {:induction false} ReceiveAllExact(raw: map<int, real>, items: seq<ItemBody>)
    ensures ReceiveAll(raw, items).Some? <==> forall k :: 0 <= k < |items| ==> !Refuses(raw, items[k])
    ensures ReceiveAll(raw, items).Some? ==>
      ReceiveAll(raw, items).value.Keys == raw.Keys &&
      forall m :: m in raw ==> ReceiveAll(raw, items).value[m] == raw[m] + Received(items, m)
    decreases |items|
  {
    if items != [] {
      var r := Receive(raw, items[0]);
      if r.Some? {
        ReceiveAllExact(r.value, items[1..]);
        assert forall x :: Refuses(r.value, x) == Refuses(raw, x);
        assert forall k :: 1 <= k < |items| ==> items[k] == items[1..][k - 1];
      }
    }
  }

  /** A missing quantity on an item that names an existing material fails the whole
      purchase: material 1 at stock 10 and `items: [{rawMaterialId: 1}]`. */
  lemma MissingQuantityFailsPurchase()
    ensures var body := PurchaseBody(None, Some(Str("Toko Susu")), None, None,
                                     Some([ItemBody(Some(Num(1.0)), None, None, None)]));
      !Commits(map[1 := 10.0], body, None)
  {
    var item := ItemBody(Some(Num(1.0)), None, None, None);
    assert Refuses(map[1 := 10.0], item);
  }

  /** Items that name no raw material the database can match restock nothing, whatever
      their quantities. */
  lemma UnmatchedItemsReceiveNothing(raw: map<int, real>, items: seq<ItemBody>)
    requires forall k :: 0 <= k < |items| ==> SqlId(items[k].rawMaterialId).None?
    ensures ReceiveAll(raw, items) == Some(raw)
  {
    ReceiveAllExact(raw, items);
    NothingReceived(items);
  }

  lemma {:induction false} NothingReceived(items: seq<ItemBody>)
    requires forall k :: 0 <= k < |items| ==> SqlId(items[k].rawMaterialId).None?
    ensures forall m :: Received(items, m) == 0.0
    decreases |items|
  {
    if items != [] {
      NothingReceived(items[1..]);
    }
  }

  /** A text `items` is walked by character: each character makes an item row that
      matches no raw material, so the purchase commits unless a statement is refused,
      and no stock changes. `items: ""` records the header alone. */
  lemma TextItemsCommit(raw: map<int, real>, fields: Object, text: string)
    requires Get(fields, "items") == Some(Str(text))
    ensures var body := ReadBodyAsWritten(fields);
      body.items.Some? && |body.items.value| == |text| &&
      Commits(raw, body, None) && ReceiveAll(raw, body.items.value) == Some(raw)
  {
    var items := ReadBodyAsWritten(fields).items.value;
    UnmatchedItemsReceiveNothing(raw, items);
  }

  /** The header total is stored as sent: nothing compares it with the items. */
  lemma HeaderTotalIsNotChecked()
    ensures var body := PurchaseBody(None, Some(Str("Toko Susu")), Some(Num(999.0)), None,
                                     Some([ItemBody(Some(Num(1.0)), Some(Num(2.0)), Some(Num(5.0)), Some(Num(10.0)))]));
      HeaderRow(1, body).totalAmount == Some(Num(999.0))
  {
  }
}
