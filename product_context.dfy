/** The product store of the newer client (Frontend/src/context/ProductContext.tsx):
    translation of API rows to client products and back, lookup by id, and the stock
    update that checks the cached product before sending the new stock. */
module ProductContext {
  import opened Js

  /** `ProductIngredient`: one unit of the product consumes `amount` of the raw
      material. */
  datatype Ingredient = Ingredient(rawMaterialId: string, amount: real)

  /** The client's `Product` record; its `image` is optional (the dates are not used
      by the pages). */
  datatype Product = Product(id: string, name: string, price: real, costPrice: real,
                             stock: real, category: string, image: Option<string>,
                             ingredients: seq<Ingredient>)

  /** `mapFromApi(p)`; `now` is `new Date().toISOString()`. A property set to
      `undefined` is left out of the object. */
  function MapFromApi(p: Object, now: string): (r: Object)
    ensures Get(r, "name") == Get(p, "name")
    ensures ("image" in r) <==> !Nullish(Get(p, "image"))
  {
    var image := if Nullish(Get(p, "image")) then None else Get(p, "image");
    PutDefined(PutDefined(FixedFields(p, now), "name", Get(p, "name")), "image", image)
  }

  /** The fields `mapFromApi` always sets, before `name` and `image`. */
  function FixedFields(p: Object, now: string): (m: Object)
    ensures m.Keys == {"id", "price", "costPrice", "stock", "category", "ingredients", "createdAt", "updatedAt"}
    ensures m["id"] == Str(ToStr(Get(p, "id")))
    ensures m["price"] == Num(ToNumber(Or(Get(p, "price"), NumV(0.0))))
    ensures m["costPrice"] == Num(ToNumber(Coalesce(Get(p, "cost_price"), Coalesce(Get(p, "costPrice"), NumV(0.0)))))
    ensures m["stock"] == Num(ToNumber(Or(Get(p, "stock"), NumV(0.0))))
    ensures m["category"] == Coalesce(Get(p, "category"), StrV("")).value
    ensures m["ingredients"] == Coalesce(Get(p, "ingredients"), Some(Arr([]))).value
    ensures m["createdAt"] == Coalesce(Get(p, "created_at"), Coalesce(Get(p, "createdAt"), StrV(now))).value
    ensures m["updatedAt"] == Coalesce(Get(p, "updated_at"), Coalesce(Get(p, "updatedAt"), StrV(now))).value
  {
    map[
      "id" := Str(ToStr(Get(p, "id"))),
      "price" := Num(ToNumber(Or(Get(p, "price"), NumV(0.0)))),
      "costPrice" := Num(ToNumber(Coalesce(Get(p, "cost_price"), Coalesce(Get(p, "costPrice"), NumV(0.0))))),
      "stock" := Num(ToNumber(Or(Get(p, "stock"), NumV(0.0)))),
      "category" := Coalesce(Get(p, "category"), StrV("")).value,
      "ingredients" := Coalesce(Get(p, "ingredients"), Some(Arr([]))).value,
      "createdAt" := Coalesce(Get(p, "created_at"), Coalesce(Get(p, "createdAt"), StrV(now))).value,
      "updatedAt" := Coalesce(Get(p, "updated_at"), Coalesce(Get(p, "updatedAt"), StrV(now))).value]
  }

  /** The id is stringified. */
  lemma MapFromApiId(p: Object, now: string)
    ensures Get(MapFromApi(p, now), "id") == Some(Str(ToStr(Get(p, "id"))))
  {
  }

  /** Price and stock fall back to 0 when the row's value is falsy. */
  lemma MapFromApiPriceAndStock(p: Object, now: string)
    ensures Get(MapFromApi(p, now), "price") == Some(Num(if Truthy(Get(p, "price")) then ToNumber(Get(p, "price")) else 0.0))
    ensures Get(MapFromApi(p, now), "stock") == Some(Num(if Truthy(Get(p, "stock")) then ToNumber(Get(p, "stock")) else 0.0))
  {
  }

  /** The cost price is read from `cost_price` first, then `costPrice`, then 0. */
  lemma MapFromApiCostPrice(p: Object, now: string)
    ensures !Nullish(Get(p, "cost_price")) ==> Get(MapFromApi(p, now), "costPrice") == Some(Num(ToNumber(Get(p, "cost_price"))))
    ensures Nullish(Get(p, "cost_price")) ==> Get(MapFromApi(p, now), "costPrice") == Some(Num(ToNumber(Get(p, "costPrice"))))
  {
  }

  /** A missing category becomes the empty text, and a present one is kept. */
  lemma MapFromApiCategory(p: Object, now: string)
    ensures Nullish(Get(p, "category")) ==> Get(MapFromApi(p, now), "category") == Some(Str(""))
    ensures !Nullish(Get(p, "category")) ==> Get(MapFromApi(p, now), "category") == Get(p, "category")
  {
  }

  /** A missing ingredient list becomes the empty list, and missing dates the current
      time. */
  lemma MapFromApiDefaults(p: Object, now: string)
    ensures Nullish(Get(p, "ingredients")) ==> Get(MapFromApi(p, now), "ingredients") == Some(Arr([]))
    ensures Nullish(Get(p, "created_at")) && Nullish(Get(p, "createdAt")) ==> Get(MapFromApi(p, now), "createdAt") == Some(Str(now))
  {
  }

  /** `{ raw_material_id: i.rawMaterialId, amount: i.amount }` */
  function IngredientToApi(i: Value): (r: Value)
    ensures r.Obj? && r.fields.Keys <= {"raw_material_id", "amount"}
    ensures i.Obj? ==> Get(r.fields, "raw_material_id") == Get(i.fields, "rawMaterialId") &&
                       Get(r.fields, "amount") == Get(i.fields, "amount")
  {
    match i
    case Obj(f) => Obj(PutDefined(PutDefined(map[], "raw_material_id", Get(f, "rawMaterialId")), "amount", Get(f, "amount")))
    case _ => Obj(map[])
  }

  /** `p.ingredients?.map(...)`: `undefined` when there is no list. */
  function IngredientsToApi(v: Option<Value>): Option<Value> {
    match v
    case Some(Arr(es)) => Some(Arr(seq(|es|, k requires 0 <= k < |es| => IngredientToApi(es[k]))))
    case _ => None
  }

  /** `mapToApi(p)` for a partial product: `costPrice` is sent as `cost_price`, the
      other scalar fields under their own names. */
  function MapToApi(p: Object): (r: Object)
    ensures Get(r, "cost_price") == Get(p, "costPrice") && "costPrice" !in r
  {
    var same := map k | k in {"name", "category", "price", "stock", "image"} && k in p :: p[k];
    PutDefined(PutDefined(same, "cost_price", Get(p, "costPrice")),
               "ingredients", IngredientsToApi(Get(p, "ingredients")))
  }

  /** The other scalar fields keep their names, and nothing else is sent. */
  lemma MapToApiFields(p: Object)
    ensures Get(MapToApi(p), "name") == Get(p, "name") && Get(MapToApi(p), "price") == Get(p, "price")
    ensures Get(MapToApi(p), "stock") == Get(p, "stock") && Get(MapToApi(p), "category") == Get(p, "category")
  {
  }

  lemma MapToApiKeys(p: Object)
    ensures MapToApi(p).Keys <= {"name", "category", "price", "cost_price", "stock", "image", "ingredients"}
  {
  }

  /** Each ingredient is renamed to `raw_material_id`/`amount`, in order, one for one. */
  lemma MapToApiIngredients(p: Object)
    requires Get(p, "ingredients").Some? && Get(p, "ingredients").value.Arr?
    ensures var es := Get(p, "ingredients").value.elems;
      var r := MapToApi(p);
      "ingredients" in r && r["ingredients"].Arr? && |r["ingredients"].elems| == |es| &&
      forall k :: 0 <= k < |es| && es[k].Obj? ==>
        Get(r["ingredients"].elems[k].fields, "raw_material_id") == Get(es[k].fields, "rawMaterialId") &&
        Get(r["ingredients"].elems[k].fields, "amount") == Get(es[k].fields, "amount")
  {
  }

  /** A cost price written with `mapToApi` is the one `mapFromApi` reads back: the
      rename to `cost_price` is undone by the `cost_price ?? costPrice` read. */
  lemma CostPriceRoundTrip(p: Object, c: real, now: string)
    requires Get(p, "costPrice") == Some(Num(c))
    ensures Get(MapFromApi(MapToApi(p), now), "costPrice") == Some(Num(c))
  {
    var q := MapToApi(p);
    assert Get(q, "cost_price") == Some(Num(c));
    MapFromApiCostPrice(q, now);
  }

  /** The stock update body `mapToApi({ stock })` carries the stock alone. */
  lemma StockUpdateSendsOnlyStock(s: real)
    ensures MapToApi(map["stock" := Num(s)]) == map["stock" := Num(s)]
  {
    var r := MapToApi(map["stock" := Num(s)]);
    assert r.Keys == {"stock"};
  }

  /** `products.find(product => product.id === id)` */
  function GetProduct(products: seq<Product>, id: string): (r: Option<Product>)
    ensures r.None? <==> forall i :: 0 <= i < |products| ==> products[i].id != id
    ensures r.Some? ==> r.value.id == id && r.value in products
  {
    if products == [] then None
    else if products[0].id == id then Some(products[0])
    else GetProduct(products[1..], id)
  }

  /** The product found is the first one with the id. */
  lemma {:induction false} GetProductIsFirst(products: seq<Product>, id: string)
    requires GetProduct(products, id).Some?
    ensures exists i :: 0 <= i < |products| && products[i] == GetProduct(products, id).value &&
                        forall j :: 0 <= j < i ==> products[j].id != id
  {
    if products[0].id != id {
      GetProductIsFirst(products[1..], id);
      var i :| 0 <= i < |products[1..]| && products[1..][i] == GetProduct(products[1..], id).value &&
               forall j :: 0 <= j < i ==> products[1..][j].id != id;
      assert products[i + 1] == GetProduct(products, id).value;
      assert forall j :: 0 <= j < i + 1 ==> products[j].id != id by {
        forall j | 0 < j < i + 1 ensures products[j].id != id {
          assert products[j] == products[1..][j - 1];
        }
      }
    } else {
      assert products[0] == GetProduct(products, id).value;
    }
  }

  /** A request the store sent: `PUT /products/<id>` with a JSON body. */
  datatype Request = Request(productId: string, body: Object)

  class ProductStore {
    var products: seq<Product>
    /** the context's `error` state */
    var error: Option<string>
    /** the update requests sent, oldest first */
    var sent: seq<Request>

    constructor (products: seq<Product>)
      ensures this.products == products && error == None && sent == []
    {
      this.products := products;
      error := None;
      sent := [];
    }

    /** `updateProductStock(id, quantity)`. `thrown` is how the `updateProduct` call
        ends: `None` when the PUT and the refetch succeed, `Some(m)` when it throws an
        error whose message is `m` (`None` for an error without one). The product list
        it refetches is the server's and is not modelled. */
    method UpdateProductStock(id: string, quantity: real, thrown: Option<Option<string>>) returns (err: Option<string>)
      modifies this`error, this`sent
      ensures GetProduct(products, id).None? ==>
        err == Some("Product not found") && error == err && sent == old(sent)
      ensures GetProduct(products, id).Some? && GetProduct(products, id).value.stock - quantity < 0.0 ==>
        err == Some("Insufficient stock") && error == err && sent == old(sent)
      ensures GetProduct(products, id).Some? && GetProduct(products, id).value.stock - quantity >= 0.0 ==>
        sent == old(sent) + [Request(id, map["stock" := Num(GetProduct(products, id).value.stock - quantity)])] &&
        error == err &&
        err == (if thrown.None? then None else Some(thrown.value.GetOr("Failed to update stock")))
    {
      var product := GetProduct(products, id);
      if product.None? {
        err := Some("Product not found");
        error := err;
        return;
      }
      var newStock := product.value.stock - quantity;
      if newStock < 0.0 {
        err := Some("Insufficient stock");
        error := err;
        return;
      }
      StockUpdateSendsOnlyStock(newStock);
      sent := sent + [Request(id, MapToApi(map["stock" := Num(newStock)]))];
      if thrown.Some? {
        // `updateProduct` sets its own message, then this catch replaces it and rethrows
        err := Some(thrown.value.GetOr("Failed to update stock"));
        error := err;
        return;
      }
      error := None;
      err := None;
    }
  }
}
