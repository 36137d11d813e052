/** The point-of-sale page of the newer client (Frontend/src/pages/POS.tsx): the cart
    kept in page state, the running subtotal, the change for a cash payment, the product
    filter, and the checkout that sends the sale, shows a receipt and resets the form. */
module Pos {
  import opened Js
  import Sorting
  import opened ProductContext

  // ---------------------------------------------------------------------------
  // Product filter

  /** The filter of the product grid: the lower-cased name contains the lower-cased
      search term, and no category (or `'All'`) is selected or the product's category,
      when it has one, is the selected one. */
  predicate Matches(name: string, category: Option<string>, search: string, selected: Option<string>) {
    Includes(Lower(name), Lower(search)) &&
    (selected.None? || selected.value == "All" || category == Some(selected.value))
  }

  /** `products.filter(...)` of the grid. */
  function FilterProducts(products: seq<Product>, search: string, selected: Option<string>): (r: seq<Product>)
    ensures forall i :: 0 <= i < |r| ==> r[i] in products && Matches(r[i].name, Some(r[i].category), search, selected)
    ensures forall i :: 0 <= i < |products| && Matches(products[i].name, Some(products[i].category), search, selected) ==>
              products[i] in r
  {
    Sorting.Filter(products, (p: Product) => Matches(p.name, Some(p.category), search, selected))
  }

  /** With an empty search and no category chosen, every product is shown. */
  lemma EmptyFilterShowsAll(products: seq<Product>, selected: Option<string>)
    requires selected.None? || selected == Some("All")
    ensures FilterProducts(products, "", selected) == products
  {
    if products != [] {
      EmptySearchMatches(Lower(products[0].name));
      EmptyFilterShowsAll(products[1..], selected);
    }
  }

  // ---------------------------------------------------------------------------
  // Cart

  datatype CartEntry = CartEntry(product: Product, quantity: int)

  /** Some entry of the cart holds the product with this id. */
  predicate Holds(cart: seq<CartEntry>, id: string) {
    exists i :: 0 <= i < |cart| && cart[i].product.id == id
  }

  /** No two entries hold the same product. */
  ghost predicate UniqueIds(cart: seq<CartEntry>) {
    forall i, j :: 0 <= i < j < |cart| ==> cart[i].product.id != cart[j].product.id
  }

  /** `prev.map(i => i.product.id === id ? { ...i, quantity: i.quantity + qty } : i)` */
  function Bump(cart: seq<CartEntry>, id: string, qty: int): (r: seq<CartEntry>)
    ensures |r| == |cart|
    ensures forall i :: 0 <= i < |cart| ==> r[i].product == cart[i].product
    ensures forall i :: 0 <= i < |cart| ==>
      r[i].quantity == cart[i].quantity + (if cart[i].product.id == id then qty else 0)
  {
    seq(|cart|, i requires 0 <= i < |cart| =>
      if cart[i].product.id == id then cart[i].(quantity := cart[i].quantity + qty) else cart[i])
  }

  /** `addToCart(product, qty)`: a product already in the cart has its quantity raised
      and keeps its place; a new one is appended. */
  function AddToCart(cart: seq<CartEntry>, product: Product, qty: int): (r: seq<CartEntry>)
    ensures Holds(cart, product.id) ==>
      |r| == |cart| &&
      forall i :: 0 <= i < |cart| ==>
        r[i].product == cart[i].product &&
        r[i].quantity == cart[i].quantity + (if cart[i].product.id == product.id then qty else 0)
    ensures !Holds(cart, product.id) ==> r == cart + [CartEntry(product, qty)]
  {
    if Holds(cart, product.id) then Bump(cart, product.id, qty) else cart + [CartEntry(product, qty)]
  }

  /** `removeFromCart(productId)` */
  function RemoveFromCart(cart: seq<CartEntry>, id: string): seq<CartEntry> {
    Sorting.Filter(cart, (e: CartEntry) => e.product.id != id)
  }

  /** `{ ...i, quantity: Math.max(0, quantity) }` for the entries of the product. */
  function SetQuantity(cart: seq<CartEntry>, id: string, quantity: int): (r: seq<CartEntry>)
    ensures |r| == |cart|
    ensures forall i :: 0 <= i < |cart| ==> r[i].product == cart[i].product
    ensures forall i :: 0 <= i < |cart| ==>
      r[i].quantity == if cart[i].product.id == id then (if quantity < 0 then 0 else quantity) else cart[i].quantity
  {
    seq(|cart|, i requires 0 <= i < |cart| =>
      if cart[i].product.id == id then cart[i].(quantity := if quantity < 0 then 0 else quantity) else cart[i])
  }

  /** `updateCartItemQuantity(productId, quantity)`: the quantity is clamped at 0 and
      entries left with nothing are dropped. */
  function UpdateQuantity(cart: seq<CartEntry>, id: string, quantity: int): seq<CartEntry> {
    Sorting.Filter(SetQuantity(cart, id, quantity), (e: CartEntry) => e.quantity > 0)
  }

  /** Filtering a cart cannot make two entries share a product. */
  lemma {:induction false} FilterKeepsUnique(cart: seq<CartEntry>, p: CartEntry -> bool)
    requires UniqueIds(cart)
    ensures UniqueIds(Sorting.Filter(cart, p))
  {
    if cart != [] {
      var rest := cart[1..];
      assert UniqueIds(rest) by {
        forall i, j | 0 <= i < j < |rest| ensures rest[i].product.id != rest[j].product.id {
          assert rest[i] == cart[i + 1] && rest[j] == cart[j + 1];
        }
      }
      FilterKeepsUnique(rest, p);
      if p(cart[0]) {
        var f := Sorting.Filter(rest, p);
        var r := [cart[0]] + f;
        forall i, j | 0 <= i < j < |r| ensures r[i].product.id != r[j].product.id {
          if i == 0 {
            assert r[j] == f[j - 1] && f[j - 1] in rest;
            var k :| 0 <= k < |rest| && rest[k] == f[j - 1];
            assert cart[k + 1] == f[j - 1];
          } else {
            assert r[i] == f[i - 1] && r[j] == f[j - 1];
          }
        }
      }
    }
  }

  /** Adding, removing and updating keep at most one entry per product. */
  lemma AddToCartKeepsUnique(cart: seq<CartEntry>, product: Product, qty: int)
    requires UniqueIds(cart)
    ensures UniqueIds(AddToCart(cart, product, qty))
  {
  }

  lemma RemoveFromCartKeepsUnique(cart: seq<CartEntry>, id: string)
    requires UniqueIds(cart)
    ensures UniqueIds(RemoveFromCart(cart, id))
  {
    FilterKeepsUnique(cart, (e: CartEntry) => e.product.id != id);
  }

  lemma UpdateQuantityKeepsUnique(cart: seq<CartEntry>, id: string, quantity: int)
    requires UniqueIds(cart)
    ensures UniqueIds(UpdateQuantity(cart, id, quantity))
  {
    var s := SetQuantity(cart, id, quantity);
    assert UniqueIds(s);
    FilterKeepsUnique(s, (e: CartEntry) => e.quantity > 0);
  }

  /** Removing deletes exactly the entries of the product and keeps the others, in
      their order. */
  lemma RemoveFromCartEffect(cart: seq<CartEntry>, id: string, other: seq<CartEntry>)
    ensures !Holds(RemoveFromCart(cart, id), id)
    ensures forall i :: 0 <= i < |cart| && cart[i].product.id != id ==> cart[i] in RemoveFromCart(cart, id)
    ensures RemoveFromCart(cart + other, id) == RemoveFromCart(cart, id) + RemoveFromCart(other, id)
  {
    Sorting.FilterConcat(cart, other, (e: CartEntry) => e.product.id != id);
  }

  /** After an update every entry has a positive quantity; the product keeps an entry,
      with the new quantity, exactly when it was in the cart and the new quantity is
      positive; other products keep their entries. */
  lemma UpdateQuantityEffect(cart: seq<CartEntry>, id: string, quantity: int)
    ensures forall e :: e in UpdateQuantity(cart, id, quantity) ==> e.quantity > 0
    ensures forall e :: e in UpdateQuantity(cart, id, quantity) && e.product.id == id ==> e.quantity == quantity
    ensures Holds(UpdateQuantity(cart, id, quantity), id) <==> Holds(cart, id) && quantity > 0
    ensures forall i :: 0 <= i < |cart| && cart[i].product.id != id && cart[i].quantity > 0 ==>
              cart[i] in UpdateQuantity(cart, id, quantity)
  {
    UpdateQuantityMembers(cart, id, quantity);
    UpdateQuantityKeepsOthers(cart, id, quantity);
    UpdateQuantityHolds(cart, id, quantity);
  }

  /** The entries left are the updated entries with a positive quantity. */
  lemma UpdateQuantityMembers(cart: seq<CartEntry>, id: string, quantity: int)
    ensures forall e :: e in UpdateQuantity(cart, id, quantity) <==>
                        e in SetQuantity(cart, id, quantity) && e.quantity > 0
    ensures forall e :: e in UpdateQuantity(cart, id, quantity) && e.product.id == id ==> e.quantity == quantity
  {
    var s := SetQuantity(cart, id, quantity);
    Sorting.FilterMembers(s, (e: CartEntry) => e.quantity > 0);
    forall e | e in s && e.quantity > 0 && e.product.id == id ensures e.quantity == quantity {
      var i :| 0 <= i < |s| && s[i] == e;
    }
  }

  lemma UpdateQuantityKeepsOthers(cart: seq<CartEntry>, id: string, quantity: int)
    ensures forall i :: 0 <= i < |cart| && cart[i].product.id != id && cart[i].quantity > 0 ==>
              cart[i] in UpdateQuantity(cart, id, quantity)
  {
    var s := SetQuantity(cart, id, quantity);
    UpdateQuantityMembers(cart, id, quantity);
    forall i | 0 <= i < |cart| && cart[i].product.id != id && cart[i].quantity > 0
      ensures cart[i] in UpdateQuantity(cart, id, quantity)
    {
      assert s[i] == cart[i];
    }
  }

  lemma UpdateQuantityHolds(cart: seq<CartEntry>, id: string, quantity: int)
    ensures Holds(UpdateQuantity(cart, id, quantity), id) <==> Holds(cart, id) && quantity > 0
  {
    var s := SetQuantity(cart, id, quantity);
    var r := UpdateQuantity(cart, id, quantity);
    UpdateQuantityMembers(cart, id, quantity);
    if Holds(cart, id) && quantity > 0 {
      var i :| 0 <= i < |cart| && cart[i].product.id == id;
      assert s[i] in r;
      var k :| 0 <= k < |r| && r[k] == s[i];
    }
    if Holds(r, id) {
      var k :| 0 <= k < |r| && r[k].product.id == id;
      assert r[k] in s;
      var i :| 0 <= i < |s| && s[i] == r[k];
    }
  }

  // ---------------------------------------------------------------------------
  // Totals

  /** `price * quantity` of one entry */
  function LineValue(e: CartEntry): real {
    Times(e.product.price, e.quantity)
  }

  /** `cartSubtotal`: `cart.reduce((s, it) => s + it.product.price * it.quantity, 0)` */
  function CartSubtotal(cart: seq<CartEntry>): real {
    if cart == [] then 0.0 else LineValue(cart[0]) + CartSubtotal(cart[1..])
  }

  lemma {:induction false} CartSubtotalAppend(a: seq<CartEntry>, b: seq<CartEntry>)
    ensures CartSubtotal(a + b) == CartSubtotal(a) + CartSubtotal(b)
  {
    if a != [] {
      assert (a + b)[1..] == a[1..] + b;
      CartSubtotalAppend(a[1..], b);
    } else {
      assert a + b == b;
    }
  }

  /** The sum of the prices of the entries that hold the product. */
  function PriceOf(cart: seq<CartEntry>, id: string): real {
    if cart == [] then 0.0
    else (if cart[0].product.id == id then cart[0].product.price else 0.0) + PriceOf(cart[1..], id)
  }

  lemma {:induction false} BumpSubtotal(cart: seq<CartEntry>, id: string, qty: int)
    ensures CartSubtotal(Bump(cart, id, qty)) == CartSubtotal(cart) + Times(PriceOf(cart, id), qty)
  {
    if cart != [] {
      var r := Bump(cart, id, qty);
      assert r[1..] == Bump(cart[1..], id, qty);
      BumpSubtotal(cart[1..], id, qty);
      var p := cart[0].product.price;
      TimesDistributes(p, cart[0].quantity, qty);
      TimesSum(if cart[0].product.id == id then p else 0.0, PriceOf(cart[1..], id), qty);
    }
  }

  lemma TimesDistributes(x: real, a: int, b: int)
    ensures Times(x, a + b) == Times(x, a) + Times(x, b)
  {
    assert x * (a + b) as real == x * a as real + x * b as real;
  }

  lemma TimesSum(x: real, y: real, n: int)
    ensures Times(x + y, n) == Times(x, n) + Times(y, n)
  {
    assert (x + y) * n as real == x * n as real + y * n as real;
  }

  /** Adding `qty` of a product raises the subtotal by `qty` times its price: the price
      of the entry already in the cart (the product passed in is then not looked at), or
      the product's own price when it is new. */
  lemma AddToCartSubtotal(cart: seq<CartEntry>, product: Product, qty: int)
    ensures CartSubtotal(AddToCart(cart, product, qty)) ==
            CartSubtotal(cart) + Times(if Holds(cart, product.id) then PriceOf(cart, product.id) else product.price, qty)
  {
    if Holds(cart, product.id) {
      BumpSubtotal(cart, product.id, qty);
    } else {
      CartSubtotalAppend(cart, [CartEntry(product, qty)]);
      assert [CartEntry(product, qty)][1..] == [];
    }
  }

  /** `calculateChange()`: nothing while the cash field is empty; otherwise the cash
      (`parseFloat(cashAmount) || 0`) above `subtotal + tax - discount`, or 0 when the
      cash does not exceed it. */
  function CalculateChange(cashAmount: string, subtotal: real, tax: real, discount: real): (r: real)
    ensures r >= 0.0
    ensures r > 0.0 <==> cashAmount != "" && ParseFloatOrZero(cashAmount) > subtotal + tax - discount
    ensures r > 0.0 ==> ParseFloatOrZero(cashAmount) == subtotal + tax - discount + r
  {
    if cashAmount == "" then 0.0
    else
      var cash := ParseFloatOrZero(cashAmount);
      var due := subtotal + tax - discount;
      if cash > due then cash - due else 0.0
  }

  // ---------------------------------------------------------------------------
  // Checkout

  /** One entry of `payload.items` */
  datatype PayloadItem = PayloadItem(productId: string, productName: string, unitPrice: real,
                                     quantity: int, totalPrice: real)

  /** The payload the page hands to the transaction store (`type` is always `'sale'`). */
  datatype CheckoutPayload = CheckoutPayload(
    items: seq<PayloadItem>, subtotal: real, discount: real, tax: real, total: real,
    paymentMethod: string, cashierName: string, customerName: Option<string>, notes: Option<string>)

  function PayloadItemOf(e: CartEntry): PayloadItem {
    PayloadItem(e.product.id, e.product.name, e.product.price, e.quantity, LineValue(e))
  }

  /** `text || undefined` */
  function NonEmpty(s: string): (r: Option<string>)
    ensures r.None? <==> s == ""
    ensures r.Some? ==> r.value == s
  {
    if s == "" then None else Some(s)
  }

  /** The checkout payload. The cashier is the signed-in user's name, or `'Unknown'`. */
  function Payload(cart: seq<CartEntry>, discount: real, tax: real, paymentMethod: string,
                   userName: Option<string>, customerName: string, notes: string): (r: CheckoutPayload)
    ensures |r.items| == |cart|
    ensures forall i :: 0 <= i < |cart| ==>
      r.items[i].productId == cart[i].product.id && r.items[i].quantity == cart[i].quantity &&
      r.items[i].unitPrice == cart[i].product.price &&
      r.items[i].totalPrice == Times(cart[i].product.price, cart[i].quantity)
    ensures r.subtotal == CartSubtotal(cart) && r.total == r.subtotal + tax - r.discount
    ensures r.cashierName != ""
    ensures userName.Some? && userName.value != "" ==> r.cashierName == userName.value
  {
    var cashier := if userName.Some? && userName.value != "" then userName.value else "Unknown";
    CheckoutPayload(seq(|cart|, i requires 0 <= i < |cart| => PayloadItemOf(cart[i])),
                    CartSubtotal(cart), discount, tax, CartSubtotal(cart) + tax - discount,
                    paymentMethod, cashier, NonEmpty(customerName), NonEmpty(notes))
  }

  function SumTotalPrice(items: seq<PayloadItem>): real {
    if items == [] then 0.0 else items[0].totalPrice + SumTotalPrice(items[1..])
  }

  /** The items' `totalPrice` values add up to the payload's subtotal. */
  lemma {:induction false} PayloadItemsAddUp(cart: seq<CartEntry>, discount: real, tax: real, paymentMethod: string,
                                             userName: Option<string>, customerName: string, notes: string)
    ensures var r := Payload(cart, discount, tax, paymentMethod, userName, customerName, notes);
      SumTotalPrice(r.items) == r.subtotal
  {
    if cart != [] {
      PayloadItemsAddUp(cart[1..], discount, tax, paymentMethod, userName, customerName, notes);
      var r := Payload(cart, discount, tax, paymentMethod, userName, customerName, notes);
      var r' := Payload(cart[1..], discount, tax, paymentMethod, userName, customerName, notes);
      assert r.items[1..] == r'.items;
    }
  }

  /** `Number(t.id) || 0` */
  function IdNumber(id: Option<Value>): real {
    ToNumber(id)
  }

  /** `Math.max(...transactions.map(t => Number(t.id) || 0))` */
  function MaxId(ids: seq<Option<Value>>): (r: real)
    requires ids != []
    ensures forall k :: 0 <= k < |ids| ==> IdNumber(ids[k]) <= r
    ensures exists k :: 0 <= k < |ids| && IdNumber(ids[k]) == r
  {
    if |ids| == 1 then IdNumber(ids[0])
    else
      var m := MaxId(ids[1..]);
      assert forall k :: 1 <= k < |ids| ==> ids[k] == ids[1..][k - 1];
      if IdNumber(ids[0]) >= m then IdNumber(ids[0]) else m
  }

  /** The receipt number the page predicts: one above the largest transaction id it
      has loaded, or `'1'` when it has none. */
  function PredictedId(ids: seq<Option<Value>>): string {
    if ids == [] then "1" else ToStr(Some(Num(MaxId(ids) + 1.0)))
  }

  /** The ids of loaded transactions when each is the decimal text of a number. */
  function DecimalIds(ns: seq<nat>): (ids: seq<Option<Value>>)
    ensures |ids| == |ns|
    ensures forall k :: 0 <= k < |ns| ==> ids[k] == Some(Str(NatToString(ns[k])))
  {
    seq(|ns|, k requires 0 <= k < |ns| => Some(Str(NatToString(ns[k]))))
  }

  /** When the loaded ids are the decimal texts of natural numbers, the prediction is
      the decimal text of one more than the largest of them, and so differs from each. */
  lemma PredictedIdIsFresh(ns: seq<nat>)
    ensures exists m: nat :: PredictedId(DecimalIds(ns)) == NatToString(m) && forall k :: 0 <= k < |ns| ==> ns[k] < m
  {
    var ids := DecimalIds(ns);
    if ns == [] {
      assert PredictedId(ids) == NatToString(1);
    } else {
      forall k | 0 <= k < |ns| ensures IdNumber(ids[k]) == ns[k] as real {
        NumberOfDecimalText(ns[k]);
      }
      var mx := MaxId(ids);
      var k0 :| 0 <= k0 < |ids| && IdNumber(ids[k0]) == mx;
      var m: nat := ns[k0] + 1;
      assert mx + 1.0 == m as real;
      ToStrOfNat(m);
      assert PredictedId(ids) == NatToString(m);
    }
  }

  /** The receipt id as written: `transactionResult?.id || predictedId`. */
  function ReceiptIdAsWritten(result: Option<Value>, predicted: string): (r: Value)
    ensures (result.Some? && result.value.Obj? && Truthy(Get(result.value.fields, "id"))) ==>
              Some(r) == Get(result.value.fields, "id")
    ensures !(result.Some? && result.value.Obj? && Truthy(Get(result.value.fields, "id"))) ==> r == Str(predicted)
  {
    match result
    case Some(Obj(f)) => if Truthy(Get(f, "id")) then f["id"] else Str(predicted)
    case _ => Str(predicted)
  }

  /** The body of the checkout route's 201 response. */
  function CheckoutResponse(transactionId: nat): Value {
    Obj(map["message" := Str("Checkout completed successfully"), "transactionId" := Num(transactionId as real)])
  }

  /** As written, the receipt never shows the id the server assigned: the transaction
      store's `addTransaction` resolves to `undefined`, and the route's own response
      carries the id as `transactionId`, not `id`. Either way the prediction is shown. */
  lemma ReceiptIgnoresAssignedId(transactionId: nat, predicted: string)
    ensures ReceiptIdAsWritten(None, predicted) == Str(predicted)
    ensures ReceiptIdAsWritten(Some(CheckoutResponse(transactionId)), predicted) == Str(predicted)
  {
    assert "id" !in CheckoutResponse(transactionId).fields;
  }

  /** The receipt id the page means to show: the id the server reports (its
      `transactionId`, or an `id`), and the prediction only when there is none. */
  function ReceiptId(result: Option<Value>, predicted: string): (r: Value)
    ensures (result.Some? && result.value.Obj? && Truthy(Get(result.value.fields, "transactionId"))) ==>
              r == Str(ToStr(Get(result.value.fields, "transactionId")))
    ensures (result.None? || !result.value.Obj?) ==> r == Str(predicted)
  {
    match result
    case Some(Obj(f)) =>
      if Truthy(Get(f, "transactionId")) then Str(ToStr(Get(f, "transactionId")))
      else ReceiptIdAsWritten(result, predicted)
    case _ => Str(predicted)
  }

  /** With the corrected reading, the receipt shows the id the server assigned. */
  lemma ReceiptShowsAssignedId(transactionId: nat, predicted: string)
    requires transactionId > 0
    ensures ReceiptId(Some(CheckoutResponse(transactionId)), predicted) == Str(NatToString(transactionId))
  {
    var f := CheckoutResponse(transactionId).fields;
    assert Get(f, "transactionId") == Some(Num(transactionId as real));
    assert (transactionId as real).Floor == transactionId;
  }

  /** `transactionResult?.date || new Date().toISOString()` */
  function ReceiptDate(result: Option<Value>, now: string): Value {
    match result
    case Some(Obj(f)) => if Truthy(Get(f, "date")) then f["date"] else Str(now)
    case _ => Str(now)
  }

  /** The receipt: the payload with the id and date the page settled on. */
  datatype Receipt = Receipt(payload: CheckoutPayload, id: Value, date: Value)

  class PosPage {
    var cart: seq<CartEntry>
    var discount: real
    var tax: real
    var paymentMethod: string
    var customerName: string
    var notes: string
    var cashAmount: string
    var checkoutModalOpen: bool
    var receiptModalOpen: bool
    var currentTransaction: Option<Receipt>
    /** the payloads handed to the transaction store, oldest first */
    var sent: seq<CheckoutPayload>

    constructor ()
      ensures cart == [] && discount == 0.0 && tax == 0.0 && paymentMethod == "cash"
      ensures customerName == "" && notes == "" && cashAmount == ""
      ensures !checkoutModalOpen && !receiptModalOpen && currentTransaction.None? && sent == []
    {
      cart := [];
      discount, tax := 0.0, 0.0;
      paymentMethod := "cash";
      customerName, notes, cashAmount := "", "", "";
      checkoutModalOpen, receiptModalOpen := false, false;
      currentTransaction := None;
      sent := [];
    }

    /** The reset after a completed sale: the form returns to its initial values. */
    method ResetForm()
      modifies this`cart, this`discount, this`tax, this`paymentMethod, this`customerName, this`notes, this`cashAmount
      ensures cart == [] && discount == 0.0 && tax == 0.0 && paymentMethod == "cash"
      ensures customerName == "" && notes == "" && cashAmount == ""
    {
      cart := [];
      discount, tax := 0.0, 0.0;
      paymentMethod := "cash";
      customerName, notes, cashAmount := "", "", "";
    }

    /** `handleCheckout()`. `result` is what sending the payload resolved to, `None`
        when it threw; `ids` are the ids of the transactions the page has loaded. */
    method HandleCheckout(userName: Option<string>, ids: seq<Option<Value>>,
                          result: Option<Option<Value>>, now: string) returns (done: bool)
      modifies this
      // an empty cart changes nothing
      ensures old(cart) == [] ==> !done && unchanged(this)
      ensures old(cart) != [] ==>
        sent == old(sent) + [Payload(old(cart), old(discount), old(tax), old(paymentMethod), userName,
                                     old(customerName), old(notes))]
      // a failed send changes nothing but the record of what was sent
      ensures old(cart) != [] && result.None? ==>
        !done && cart == old(cart) && discount == old(discount) && tax == old(tax) &&
        paymentMethod == old(paymentMethod) && customerName == old(customerName) &&
        notes == old(notes) && cashAmount == old(cashAmount) &&
        checkoutModalOpen == old(checkoutModalOpen) && receiptModalOpen == old(receiptModalOpen) &&
        currentTransaction == old(currentTransaction)
      ensures old(cart) != [] && result.Some? ==>
        done && cart == [] && discount == 0.0 && tax == 0.0 && paymentMethod == "cash" &&
        customerName == "" && notes == "" && cashAmount == "" &&
        !checkoutModalOpen && receiptModalOpen &&
        currentTransaction == Some(Receipt(sent[|sent| - 1], ReceiptId(result.value, PredictedId(ids)),
                                           ReceiptDate(result.value, now)))
    {
      if cart == [] {
        return false;
      }
      var payload := Payload(cart, discount, tax, paymentMethod, userName, customerName, notes);
      var predicted := PredictedId(ids);
      sent := sent + [payload];
      if result.None? {
        return false;
      }
      currentTransaction := Some(Receipt(payload, ReceiptId(result.value, predicted), ReceiptDate(result.value, now)));
      checkoutModalOpen := false;
      receiptModalOpen := true;
      ResetForm();
      done := true;
    }
  }
}
