/** The raw material store of the newer client
    (Frontend/src/context/InventoryContext.tsx): translation of API rows to client
    records and back, and the update that merges a partial edit into the cached record
    before sending it. */
module InventoryContext {
  import opened Js

  /** The fields `mapFromApi` computes before the row is spread over them. A property
      set to `undefined` is left out of the object. */
  function Normalised(r: Object): Object {
    var normalised := map[
      "id" := Str(ToStr(Get(r, "id"))),
      "stock" := Num(ToNumber(Coalesce(Get(r, "stock"), NumV(0.0)))),
      "price" := Num(ToNumber(Coalesce(Get(r, "price"), Coalesce(Get(r, "unit_cost"), NumV(0.0))))),
      "unitCost" := Num(ToNumber(Coalesce(Get(r, "unit_cost"), Coalesce(Get(r, "unitCost"), Coalesce(Get(r, "price"), NumV(0.0)))))),
      "supplier" := Coalesce(Get(r, "supplier"), Coalesce(Get(r, "vendor"), StrV(""))).value];
    var created := Coalesce(Get(r, "created_at"), Get(r, "createdAt"));
    var updated := Coalesce(Get(r, "updated_at"), Get(r, "updatedAt"));
    var optional := PutDefined(PutDefined(PutDefined(PutDefined(map[], "name", Get(r, "name")), "unit", Get(r, "unit")),
                                          "createdAt", if Nullish(created) then None else created),
                               "updatedAt", if Nullish(updated) then None else updated);
    optional + normalised
  }

  /** `mapFromApi(r)`: every field of the row, spread last, overrides the normalised
      one. */
  function MapFromApi(r: Object): (res: Object)
    ensures forall k :: k in r ==> k in res && res[k] == r[k]
    ensures forall k :: k in Normalised(r) && k !in r ==> k in res && res[k] == Normalised(r)[k]
  {
    Normalised(r) + r
  }

  /** A row's own `id` wins over the stringified one: a numeric id stays a number. */
  lemma MapFromApiKeepsRowId(n: real)
    ensures Get(MapFromApi(map["id" := Num(n)]), "id") == Some(Num(n))
  {
  }

  /** Without an `id` in the row, the id is the text "undefined". */
  lemma MapFromApiMissingId(r: Object)
    requires "id" !in r
    ensures Get(MapFromApi(r), "id") == Some(Str("undefined"))
  {
  }

  /** A row without `unitCost` gets one from `unit_cost`, then `price`, then 0. */
  lemma MapFromApiUnitCost(r: Object)
    requires "unitCost" !in r
    ensures Get(MapFromApi(r), "unitCost") ==
            Some(Num(ToNumber(Coalesce(Get(r, "unit_cost"), Coalesce(Get(r, "price"), NumV(0.0))))))
  {
    assert Get(r, "unitCost") == None;
  }

  /** A row without `price` gets one from `unit_cost`, then 0. */
  lemma MapFromApiPrice(r: Object)
    requires "price" !in r
    ensures Get(MapFromApi(r), "price") == Some(Num(ToNumber(Coalesce(Get(r, "unit_cost"), NumV(0.0)))))
  {
    assert Get(r, "price") == None;
  }

  /** A row without `supplier` gets `vendor`, then the empty text. */
  lemma MapFromApiSupplier(r: Object)
    requires "supplier" !in r
    ensures Get(MapFromApi(r), "supplier") == Coalesce(Get(r, "vendor"), StrV(""))
  {
    assert Get(r, "supplier") == None;
  }

  /** `mapToApi(m)`: the cost is `unitCost` when defined, otherwise `price`; when either
      is defined it is sent both as `price` and as `unit_cost`. */
  function MapToApi(m: Object): (r: Object)
    ensures r.Keys <= {"name", "unit", "stock", "supplier", "price", "unit_cost"}
    ensures Get(r, "name") == Get(m, "name") && Get(r, "unit") == Get(m, "unit") && Get(r, "supplier") == Get(m, "supplier")
  {
    var price := if Get(m, "unitCost").Some? then NumV(ToNumber(Get(m, "unitCost")))
                 else if Get(m, "price").Some? then NumV(ToNumber(Get(m, "price")))
                 else None;
    var stock := if Get(m, "stock").Some? then NumV(ToNumber(Get(m, "stock"))) else None;
    var payload := PutDefined(PutDefined(PutDefined(PutDefined(map[], "name", Get(m, "name")),
                                                    "unit", Get(m, "unit")),
                                         "stock", stock),
                              "supplier", Get(m, "supplier"));
    PutDefined(PutDefined(payload, "price", price), "unit_cost", price)
  }

  /** The cost goes out under both names with the same value, `unitCost` first. */
  lemma MapToApiCost(m: Object)
    ensures Get(m, "unitCost").Some? ==>
      Get(MapToApi(m), "price") == Some(Num(ToNumber(Get(m, "unitCost")))) &&
      Get(MapToApi(m), "unit_cost") == Some(Num(ToNumber(Get(m, "unitCost"))))
    ensures Get(m, "unitCost").None? && Get(m, "price").Some? ==>
      Get(MapToApi(m), "price") == Some(Num(ToNumber(Get(m, "price")))) &&
      Get(MapToApi(m), "unit_cost") == Some(Num(ToNumber(Get(m, "price"))))
  {
  }

  /** With neither a unit cost nor a price, no cost is sent at all. */
  lemma MapToApiNoCost(m: Object)
    requires Get(m, "unitCost").None? && Get(m, "price").None?
    ensures "price" !in MapToApi(m) && "unit_cost" !in MapToApi(m)
  {
  }

  /** The stock is sent as a number when given, and not at all otherwise. */
  lemma MapToApiStock(m: Object)
    ensures Get(m, "stock").Some? ==> Get(MapToApi(m), "stock") == Some(Num(ToNumber(Get(m, "stock"))))
    ensures Get(m, "stock").None? ==> "stock" !in MapToApi(m)
  {
  }

  /** `rawMaterials.find(r => r.id === id)` */
  function FindById(materials: seq<Object>, id: Value): (r: Option<Object>)
    ensures r.None? <==> forall i :: 0 <= i < |materials| ==> Get(materials[i], "id") != Some(id)
    ensures r.Some? ==> r.value in materials && Get(r.value, "id") == Some(id)
  {
    if materials == [] then None
    else if Get(materials[0], "id") == Some(id) then Some(materials[0])
    else FindById(materials[1..], id)
  }

  /** `{ ...(existing ?? {}), ...m }` */
  function Merge(existing: Option<Object>, m: Object): (r: Object)
    ensures forall k :: k in m ==> k in r && r[k] == m[k]
    ensures existing.Some? ==> forall k :: k in existing.value && k !in m ==> k in r && r[k] == existing.value[k]
    ensures existing.None? ==> r == m
    ensures r.Keys == m.Keys + (if existing.Some? then existing.value.Keys else {})
  {
    (if existing.Some? then existing.value else map[]) + m
  }

  /** An edit that leaves out the cost sends the cached one, so a partial update does
      not clear it. */
  lemma PartialUpdateKeepsCost(existing: Object, m: Object)
    requires Get(existing, "unitCost").Some? && Get(m, "unitCost").None? && Get(m, "price").None?
    ensures Get(MapToApi(Merge(Some(existing), m)), "unit_cost") == Some(Num(ToNumber(Get(existing, "unitCost"))))
  {
    var merged := Merge(Some(existing), m);
    assert Get(merged, "unitCost") == Get(existing, "unitCost");
    MapToApiCost(merged);
  }

  /** A request the store sent: `PUT /raw-materials/<id>` with a JSON body. */
  datatype Request = Request(id: Value, body: Object)

  class InventoryStore {
    var rawMaterials: seq<Object>
    /** the update requests sent, oldest first */
    var sent: seq<Request>

    constructor ()
      ensures rawMaterials == [] && sent == []
    {
      rawMaterials := [];
      sent := [];
    }

    /** `fetchRawMaterials()` with the rows the server returned. */
    method Fetch(rows: seq<Object>)
      modifies this`rawMaterials
      ensures |rawMaterials| == |rows|
      ensures forall i :: 0 <= i < |rows| ==> rawMaterials[i] == MapFromApi(rows[i])
    {
      rawMaterials := seq(|rows|, i requires 0 <= i < |rows| => MapFromApi(rows[i]));
    }

    /** `updateRawMaterial(id, m)`: merges the edit into the cached record with that id
        (or into nothing) and sends the merged record. The refetch that follows is the
        server's and is not modelled. */
    method UpdateRawMaterial(id: Value, m: Object)
      modifies this`sent
      ensures sent == old(sent) + [Request(id, MapToApi(Merge(FindById(rawMaterials, id), m)))]
    {
      var existing := FindById(rawMaterials, id);
      var merged := Merge(existing, m);
      sent := sent + [Request(id, MapToApi(merged))];
    }
  }
}
