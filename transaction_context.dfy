/** The transaction store of the newer client
    (Frontend/src/context/TransactionContext.tsx): translation of API rows to client
    transactions, and the request body `addTransaction` builds for
    `POST /transactions/checkout` from what a page hands it. */
module TransactionContext {
  import opened Js
  import Pos

  /** The fields `mapFromApi` computes before the row is spread over them. */
  function Normalised(t: Object): Object {
    Defined(map[
      "id" := StrV(ToStr(Get(t, "id"))),
      "type" := Get(t, "type"),
      "items" := Coalesce(Get(t, "items"), Coalesce(Get(t, "line_items"), Some(Arr([])))),
      "total" := NumV(ToNumber(Coalesce(Get(t, "total"), NumV(0.0)))),
      "createdAt" := Coalesce(Get(t, "created_at"), Get(t, "createdAt"))])
  }

  /** `mapFromApi(t)`: every field of the row, spread last, overrides the normalised
      one. */
  function MapFromApi(t: Object): (r: Object)
    ensures forall k :: k in t ==> Get(r, k) == Get(t, k)
    ensures forall k :: k !in t ==> Get(r, k) == Get(Normalised(t), k)
  {
    Normalised(t) + t
  }

  /** A row's own `items`, `total` and `id` survive as sent; only absent ones are
      filled in. */
  lemma MapFromApiDefaults(t: Object)
    ensures "items" !in t ==> Get(MapFromApi(t), "items") == Coalesce(Get(t, "line_items"), Some(Arr([])))
    ensures "total" !in t ==> Get(MapFromApi(t), "total") == NumV(0.0)
    ensures "id" !in t ==> Get(MapFromApi(t), "id") == StrV("undefined")
  {
  }

  /** A `null` total in the row stays `null`: the spread undoes the `?? 0`. */
  lemma MapFromApiKeepsNullTotal()
    ensures Get(MapFromApi(map["total" := Null]), "total") == Some(Null)
  {
  }

  /** One entry of the body's `items`: the product id from `productId`, then
      `product_id`, then `id`, and then every field of the entry spread over it. */
  function ItemPayload(it: Value): (r: Value)
    ensures r.Obj?
    ensures forall k :: k in FieldsOf(it) ==> Get(r.fields, k) == Get(FieldsOf(it), k)
    ensures "productId" !in FieldsOf(it) ==>
      Get(r.fields, "productId") == Coalesce(Get(FieldsOf(it), "product_id"), Get(FieldsOf(it), "id"))
  {
    var f := FieldsOf(it);
    Obj(Defined(map[
      "productId" := Coalesce(Get(f, "productId"), Coalesce(Get(f, "product_id"), Get(f, "id"))),
      "quantity" := Get(f, "quantity"),
      "price" := Get(f, "price")]) + f)
  }

  /** A `null` product id stays `null`, whatever `product_id` says: the spread
      undoes the `??`. */
  lemma NullProductIdIsKept(n: real)
    ensures Get(ItemPayload(Obj(map["productId" := Null, "product_id" := Num(n)])).fields, "productId") == Some(Null)
  {
  }

  /** `t.items.map(...)` */
  function ItemsPayload(es: seq<Value>): (r: seq<Value>)
    ensures |r| == |es| && forall k :: 0 <= k < |es| ==> r[k] == ItemPayload(es[k])
  {
    seq(|es|, k requires 0 <= k < |es| => ItemPayload(es[k]))
  }

  /** The checkout body around the mapped items. */
  function CheckoutBody(t: Object, items: seq<Value>): (r: Object)
    ensures Get(r, "items") == Some(Arr(items))
    ensures Get(r, "type") == Get(t, "type") && Get(r, "total") == Get(t, "total")
    ensures Get(r, "subtotal") == Coalesce(Get(t, "subtotal"), Coalesce(Get(t, "total"), NumV(0.0)))
    ensures Get(r, "discount") == Coalesce(Get(t, "discount"), NumV(0.0))
    ensures Get(r, "tax") == Coalesce(Get(t, "tax"), NumV(0.0))
    ensures Get(r, "payment_method") == Coalesce(Get(t, "paymentMethod"), Get(t, "payment_method"))
    ensures Get(r, "cashier_name") == Coalesce(Get(t, "cashierName"), Get(t, "cashier_name"))
    ensures Get(r, "customer_name") == Coalesce(Get(t, "customerName"), Get(t, "customer_name"))
    ensures Get(r, "notes") == (if Nullish(Get(t, "notes")) then None else Get(t, "notes"))
  {
    Defined(CheckoutFields(t, items))
  }

  /** The body's fields before the undefined ones are dropped. */
  function CheckoutFields(t: Object, items: seq<Value>): (m: map<string, Option<Value>>)
    ensures "items" in m && m["items"] == Some(Arr(items))
    ensures "type" in m && m["type"] == Get(t, "type") && "total" in m && m["total"] == Get(t, "total")
    ensures "subtotal" in m && m["subtotal"] == Coalesce(Get(t, "subtotal"), Coalesce(Get(t, "total"), NumV(0.0)))
    ensures "discount" in m && m["discount"] == Coalesce(Get(t, "discount"), NumV(0.0))
    ensures "tax" in m && m["tax"] == Coalesce(Get(t, "tax"), NumV(0.0))
    ensures "payment_method" in m && m["payment_method"] == Coalesce(Get(t, "paymentMethod"), Get(t, "payment_method"))
    ensures "cashier_name" in m && m["cashier_name"] == Coalesce(Get(t, "cashierName"), Get(t, "cashier_name"))
    ensures "customer_name" in m && m["customer_name"] == Coalesce(Get(t, "customerName"), Get(t, "customer_name"))
    ensures "notes" in m && m["notes"] == (if Nullish(Get(t, "notes")) then None else Get(t, "notes"))
  {
    map[
      "type" := Get(t, "type"),
      "items" := Some(Arr(items)),
      "subtotal" := Coalesce(Get(t, "subtotal"), Coalesce(Get(t, "total"), NumV(0.0))),
      "total" := Get(t, "total"),
      "discount" := Coalesce(Get(t, "discount"), NumV(0.0)),
      "tax" := Coalesce(Get(t, "tax"), NumV(0.0)),
      "payment_method" := Coalesce(Get(t, "paymentMethod"), Get(t, "payment_method")),
      "cashier_name" := Coalesce(Get(t, "cashierName"), Get(t, "cashier_name")),
      "customer_name" := Coalesce(Get(t, "customerName"), Get(t, "customer_name")),
      "notes" := if Nullish(Get(t, "notes")) then None else Get(t, "notes")]
  }

  /** The body `addTransaction` sends; `None` when building it throws (`t.items` is not
      an array, or one of its entries is `null`). */
  function AddTransactionPayload(t: Object): (r: Option<Object>)
    ensures r.Some? <==> Get(t, "items").Some? && Get(t, "items").value.Arr? &&
                         forall i :: 0 <= i < |Get(t, "items").value.elems| ==> !Get(t, "items").value.elems[i].Null?
    ensures r.Some? ==> r.value == CheckoutBody(t, ItemsPayload(Get(t, "items").value.elems))
  {
    match Get(t, "items")
    case Some(Arr(es)) =>
      if exists i :: 0 <= i < |es| && es[i].Null? then None
      else Some(CheckoutBody(t, ItemsPayload(es)))
    case _ => None
  }

  /** The body keeps the number and the order of the items. */
  lemma PayloadKeepsItems(t: Object)
    requires AddTransactionPayload(t).Some?
    ensures var items := Get(AddTransactionPayload(t).value, "items").value.elems;
      var es := Get(t, "items").value.elems;
      |items| == |es| && forall k :: 0 <= k < |es| && es[k].Obj? && "productId" in es[k].fields ==>
        Get(items[k].fields, "productId") == Some(es[k].fields["productId"])
  {
  }

  /** Payment method, cashier and customer come from the camel-case field when it is
      set, otherwise from the snake-case one. */
  lemma PayloadNames(t: Object)
    requires AddTransactionPayload(t).Some?
    ensures !Nullish(Get(t, "paymentMethod")) ==> Get(AddTransactionPayload(t).value, "payment_method") == Get(t, "paymentMethod")
    ensures Nullish(Get(t, "paymentMethod")) ==> Get(AddTransactionPayload(t).value, "payment_method") == Get(t, "payment_method")
    ensures !Nullish(Get(t, "cashierName")) ==> Get(AddTransactionPayload(t).value, "cashier_name") == Get(t, "cashierName")
    ensures Nullish(Get(t, "cashierName")) ==> Get(AddTransactionPayload(t).value, "cashier_name") == Get(t, "cashier_name")
    ensures !Nullish(Get(t, "customerName")) ==> Get(AddTransactionPayload(t).value, "customer_name") == Get(t, "customerName")
    ensures Nullish(Get(t, "customerName")) ==> Get(AddTransactionPayload(t).value, "customer_name") == Get(t, "customer_name")
  {
  }

  // ---------------------------------------------------------------------------
  // The point-of-sale page's payload through the store

  /** One item of the point-of-sale payload as a JSON object. */
  function PosItemObject(i: Pos.PayloadItem): Value {
    Obj(map["productId" := Str(i.productId), "productName" := Str(i.productName),
            "unitPrice" := Num(i.unitPrice), "quantity" := Num(i.quantity as real),
            "totalPrice" := Num(i.totalPrice)])
  }

  /** The point-of-sale payload as the object the page passes to `addTransaction`. */
  function PosPayloadObject(p: Pos.CheckoutPayload): Object {
    Defined(map[
      "type" := StrV("sale"),
      "items" := Some(Arr(seq(|p.items|, k requires 0 <= k < |p.items| => PosItemObject(p.items[k])))),
      "subtotal" := NumV(p.subtotal),
      "discount" := NumV(p.discount),
      "tax" := NumV(p.tax),
      "total" := NumV(p.total),
      "payment_method" := StrV(p.paymentMethod),
      "cashier_name" := StrV(p.cashierName),
      "customer_name" := if p.customerName.Some? then StrV(p.customerName.value) else None,
      "notes" := if p.notes.Some? then StrV(p.notes.value) else None])
  }

  /** The fields of the point-of-sale object the store reads. */
  lemma PosPayloadObjectFields(p: Pos.CheckoutPayload)
    ensures Get(PosPayloadObject(p), "items") ==
            Some(Arr(seq(|p.items|, k requires 0 <= k < |p.items| => PosItemObject(p.items[k]))))
    ensures Get(PosPayloadObject(p), "paymentMethod") == None && Get(PosPayloadObject(p), "cashierName") == None
    ensures Get(PosPayloadObject(p), "payment_method") == StrV(p.paymentMethod)
    ensures Get(PosPayloadObject(p), "cashier_name") == StrV(p.cashierName)
    ensures Get(PosPayloadObject(p), "subtotal") == NumV(p.subtotal) && Get(PosPayloadObject(p), "total") == NumV(p.total)
  {
  }

  /** A sale from the point-of-sale page is accepted by the store and reaches the
      checkout route with its cashier, payment method and amounts. */
  lemma PosSaleReachesCheckout(p: Pos.CheckoutPayload)
    ensures AddTransactionPayload(PosPayloadObject(p)).Some?
    ensures var body := AddTransactionPayload(PosPayloadObject(p)).value;
      Get(body, "payment_method") == StrV(p.paymentMethod) && Get(body, "cashier_name") == StrV(p.cashierName) &&
      Get(body, "subtotal") == NumV(p.subtotal) && Get(body, "total") == NumV(p.total)
  {
    PosPayloadObjectFields(p);
  }

  /** Each cart line reaches the checkout route, in order, with its product id and
      quantity. */
  lemma PosSaleItemsReachCheckout(p: Pos.CheckoutPayload)
    requires AddTransactionPayload(PosPayloadObject(p)).Some?
    ensures var items := Get(AddTransactionPayload(PosPayloadObject(p)).value, "items").value.elems;
      |items| == |p.items| &&
      forall k :: 0 <= k < |p.items| ==>
        Get(items[k].fields, "productId") == StrV(p.items[k].productId) &&
        Get(items[k].fields, "quantity") == NumV(p.items[k].quantity as real)
  {
    PosPayloadObjectFields(p);
    var es := seq(|p.items|, k requires 0 <= k < |p.items| => PosItemObject(p.items[k]));
    var items := Get(AddTransactionPayload(PosPayloadObject(p)).value, "items").value.elems;
    assert items == ItemsPayload(es);
    forall k | 0 <= k < |p.items|
      ensures Get(items[k].fields, "productId") == StrV(p.items[k].productId)
      ensures Get(items[k].fields, "quantity") == NumV(p.items[k].quantity as real)
    {
      assert items[k] == ItemPayload(es[k]);
      assert es[k] == PosItemObject(p.items[k]);
      PosItemReachesCheckout(p.items[k]);
    }
  }

  /** One cart line keeps its product id and quantity through the store's mapping. */
  lemma PosItemReachesCheckout(i: Pos.PayloadItem)
    ensures Get(ItemPayload(PosItemObject(i)).fields, "productId") == StrV(i.productId)
    ensures Get(ItemPayload(PosItemObject(i)).fields, "quantity") == NumV(i.quantity as real)
  {
    assert FieldsOf(PosItemObject(i)) == PosItemObject(i).fields;
  }
}
