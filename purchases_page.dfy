/** The purchases page of the newer client (Frontend/src/pages/Purchases.tsx): the list
    of recorded purchases as loaded from the server, filtered by supplier and sorted;
    and the purchase form, whose item lines keep their totals and the purchase total
    in step, and whose submit posts the purchase to the handler of `POST /purchases`. */
module PurchasesPage {
  import opened Js
  import opened Sorting
  import SalesDb
  import opened PurchaseRoute

  // ---------------------------------------------------------------------------
  // Loaded purchases

  /** One line of a purchase (`PurchaseItem`). */
  datatype PurchaseItem = PurchaseItem(rawMaterialId: Option<Value>, quantity: real, unitCost: real, total: real)

  /** A purchase as the page lists it. Date, supplier and notes come from text
      columns. */
  datatype Purchase = Purchase(id: Option<Value>, date: string, supplier: string,
                               items: seq<PurchaseItem>, totalAmount: real, notes: string)

  /** `unit_cost ?? unitCost ?? 0`, the unit cost the missing-total fallback uses. */
  function FallbackUnitCost(it: Object): Option<Value> {
    Coalesce(Get(it, "unit_cost"), Coalesce(Get(it, "unitCost"), NumV(0.0)))
  }

  /** The mapping of one loaded line. */
  function LoadItem(it: Object): (r: PurchaseItem)
    ensures r.rawMaterialId == Coalesce(Get(it, "raw_material_id"), Coalesce(Get(it, "rawMaterialId"), Get(it, "id")))
    ensures r.quantity == ToNumber(Coalesce(Get(it, "quantity"), NumV(0.0)))
    ensures !Nullish(Get(it, "total")) ==> r.total == ToNumber(Get(it, "total"))
  {
    PurchaseItem(
      Coalesce(Get(it, "raw_material_id"), Coalesce(Get(it, "rawMaterialId"), Get(it, "id"))),
      ToNumber(Coalesce(Get(it, "quantity"), NumV(0.0))),
      ToNumber(Coalesce(Get(it, "unit_cost"), Coalesce(Get(it, "unitCost"), Coalesce(Get(it, "cost"), NumV(0.0))))),
      if Nullish(Get(it, "total")) then Mul(ToNumber(Get(it, "quantity")), ToNumber(FallbackUnitCost(it)))
      else ToNumber(Get(it, "total")))
  }

  /** A line stored without a total is listed at quantity times unit cost, when the
      unit cost is stored as `unit_cost` or `unitCost`. */
  lemma LoadItemMissingTotal(it: Object)
    requires Nullish(Get(it, "total")) && !Nullish(Get(it, "quantity"))
    requires !Nullish(Get(it, "unit_cost")) || !Nullish(Get(it, "unitCost"))
    ensures LoadItem(it).total == Mul(LoadItem(it).quantity, LoadItem(it).unitCost)
  {
  }

  /** A line whose cost is stored only as `cost` gets that unit cost, but the fallback
      total does not read `cost` and comes out 0. */
  lemma LoadItemCostOnly(q: real, c: real)
    ensures var it := map["quantity" := Num(q), "cost" := Num(c)];
      LoadItem(it).unitCost == c && LoadItem(it).total == 0.0
  {
    var it := map["quantity" := Num(q), "cost" := Num(c)];
    assert Get(it, "unit_cost") == None && Get(it, "unitCost") == None && Get(it, "total") == None;
    assert Mul(q, 0.0) == 0.0;
  }

  /** `Number(d.totalAmount ?? d.total ?? 0)`, the purchase total the page reads. */
  function LoadedTotalAsWritten(d: Object): real {
    ToNumber(Coalesce(Get(d, "totalAmount"), Coalesce(Get(d, "total"), NumV(0.0))))
  }

  /** The purchase total read from the `total_amount` column the handler stores it
      in, then from the other two names. */
  function LoadedTotal(d: Object): real {
    ToNumber(Coalesce(Get(d, "total_amount"), Coalesce(Get(d, "totalAmount"), Coalesce(Get(d, "total"), NumV(0.0)))))
  }

  /** A `purchases` row carries its total as `total_amount`, which the page never
      reads: every listed purchase shows a total of 0. */
  lemma StoredTotalListedAsZero(x: real)
    ensures LoadedTotalAsWritten(map["id" := Num(1.0), "supplier" := Str("Toko Susu"), "total_amount" := Num(x)]) == 0.0
  {
    var d := map["id" := Num(1.0), "supplier" := Str("Toko Susu"), "total_amount" := Num(x)];
    assert Get(d, "totalAmount") == None && Get(d, "total") == None;
  }

  /** Read from `total_amount`, the stored total is the one listed. */
  lemma LoadShowsStoredTotal(d: Object, x: real)
    requires Get(d, "total_amount") == Some(Num(x))
    ensures LoadedTotal(d) == x
  {
  }

  /** The mapping of one loaded purchase; `None` when it throws (the row is `null`, its
      item list is not an array, or a line is `null`). */
  function LoadPurchase(v: Value, now: string): (r: Option<Purchase>)
    ensures v.Null? ==> r.None?
    ensures r.Some? ==> r.value.totalAmount == LoadedTotal(FieldsOf(v)) && r.value.id == Get(FieldsOf(v), "id")
  {
    if v.Null? then None
    else
      var d := FieldsOf(v);
      var list := Or(Get(d, "items"), Or(Get(d, "line_items"), Some(Arr([])))).value;
      if !list.Arr? || exists k :: 0 <= k < |list.elems| && list.elems[k].Null? then None
      else
        var items := seq(|list.elems|, k requires 0 <= k < |list.elems| => LoadItem(FieldsOf(list.elems[k])));
        Some(Purchase(Get(d, "id"),
                      ToStr(Coalesce(Get(d, "date"), Coalesce(Get(d, "created_at"), StrV(now)))),
                      ToStr(Coalesce(Get(d, "supplier"), StrV(""))),
                      items, LoadedTotal(d),
                      ToStr(Coalesce(Get(d, "notes"), Coalesce(Get(d, "comment"), StrV(""))))))
  }

  /** `(data || []).map(...)`; `None` when the mapping throws. */
  function LoadPurchases(data: Option<Value>, now: string): (r: Option<seq<Purchase>>)
    ensures r.Some? ==> Or(data, Some(Arr([]))).value.Arr? && |r.value| == |Or(data, Some(Arr([]))).value.elems|
    ensures !Truthy(data) ==> r == Some([])
  {
    var list := Or(data, Some(Arr([]))).value;
    if !list.Arr? || exists k :: 0 <= k < |list.elems| && LoadPurchase(list.elems[k], now).None? then None
    else Some(seq(|list.elems|, k requires 0 <= k < |list.elems| => LoadPurchase(list.elems[k], now).value))
  }

  // ---------------------------------------------------------------------------
  // List

  /** `suppliers`: `'All'`, then each non-empty supplier once. */
  function Suppliers(purchases: seq<Purchase>): (r: seq<string>)
    ensures |r| >= 1 && r[0] == "All"
    ensures forall s :: s in r[1..] <==> s != "" && exists i :: 0 <= i < |purchases| && purchases[i].supplier == s
    ensures forall i, j :: 1 <= i < j < |r| ==> r[i] != r[j]
  {
    var names := seq(|purchases|, i requires 0 <= i < |purchases| => purchases[i].supplier);
    var named := Filter(names, (s: string) => s != "");
    var r := ["All"] + Distinct(named);
    assert r[1..] == Distinct(named);
    assert forall s :: s in named <==> s != "" && exists i :: 0 <= i < |purchases| && purchases[i].supplier == s by {
      forall s | s != "" && exists i :: 0 <= i < |purchases| && purchases[i].supplier == s
        ensures s in named
      {
        var i :| 0 <= i < |purchases| && purchases[i].supplier == s;
        assert names[i] == s;
      }
      forall s | s in named ensures exists i :: 0 <= i < |purchases| && purchases[i].supplier == s {
        var i :| 0 <= i < |names| && names[i] == s;
      }
    }
    r
  }

  /** The list filter: the supplier contains the search term, ignoring case, and no
      supplier (or `'All'`) or this one is selected. */
  predicate Matches(p: Purchase, search: string, selected: Option<string>) {
    Includes(Lower(p.supplier), Lower(search)) &&
    (selected.None? || selected.value == "All" || p.supplier == selected.value)
  }

  datatype SortField = ByDate | BySupplier | ByTotalAmount

  /** The comparator's field. `time` is `new Date(date).getTime()`; date parsing is not
      part of this model. */
  function SortKey(field: SortField, time: string -> real): Purchase -> Key {
    match field
    case ByDate => (p: Purchase) => Number(time(p.date))
    case BySupplier => (p: Purchase) => Text(p.supplier)
    case ByTotalAmount => (p: Purchase) => Number(p.totalAmount)
  }

  /** `getSortedPurchases()` */
  function SortedPurchases(purchases: seq<Purchase>, search: string, selected: Option<string>,
                           sort: SortState<SortField>, time: string -> real): (r: seq<Purchase>)
    ensures multiset(r) == multiset(Filter(purchases, (p: Purchase) => Matches(p, search, selected)))
    ensures Sorted(r, SortKey(sort.field, time), sort.direction)
  {
    SortBy(Filter(purchases, (p: Purchase) => Matches(p, search, selected)), SortKey(sort.field, time), sort.direction)
  }

  /** The list holds exactly the matching purchases. */
  lemma SortedPurchasesMatch(purchases: seq<Purchase>, search: string, selected: Option<string>,
                             sort: SortState<SortField>, time: string -> real, p: Purchase)
    ensures p in SortedPurchases(purchases, search, selected, sort, time) <==>
            p in purchases && Matches(p, search, selected)
  {
    var f := Filter(purchases, (q: Purchase) => Matches(q, search, selected));
    var r := SortedPurchases(purchases, search, selected, sort, time);
    assert p in r <==> p in multiset(r);
    assert p in f <==> p in multiset(f);
    if p in purchases && Matches(p, search, selected) {
      var i :| 0 <= i < |purchases| && purchases[i] == p;
    }
    if p in f {
      var i :| 0 <= i < |f| && f[i] == p;
    }
  }

  // ---------------------------------------------------------------------------
  // Form

  /** `formData` */
  datatype PurchaseForm = PurchaseForm(date: string, supplier: string, items: seq<PurchaseItem>,
                                       totalAmount: real, notes: string)

  function EmptyForm(today: string): PurchaseForm {
    PurchaseForm(today, "", [], 0.0, "")
  }

  /** The text inputs `handleFormChange` serves. */
  datatype FormField = DateField | SupplierField | NotesField

  /** `handleFormChange`: the field takes the text as typed; the lines and the purchase
      total are not touched. */
  function FormChange(form: PurchaseForm, field: FormField, value: string): (r: PurchaseForm)
    ensures r.items == form.items && r.totalAmount == form.totalAmount
    ensures field == DateField ==> r.date == value && r.supplier == form.supplier && r.notes == form.notes
    ensures field == SupplierField ==> r.supplier == value && r.date == form.date && r.notes == form.notes
    ensures field == NotesField ==> r.notes == value && r.date == form.date && r.supplier == form.supplier
  {
    match field
    case DateField => form.(date := value)
    case SupplierField => form.(supplier := value)
    case NotesField => form.(notes := value)
  }

  /** `reduce((sum, item) => sum + (item.total || 0), 0)` */
  function SumTotals(items: seq<PurchaseItem>): real {
    if items == [] then 0.0 else items[0].total + SumTotals(items[1..])
  }

  lemma {:induction false} SumTotalsAppend(a: seq<PurchaseItem>, b: seq<PurchaseItem>)
    ensures SumTotals(a + b) == SumTotals(a) + SumTotals(b)
  {
    if a != [] {
      assert (a + b)[1..] == a[1..] + b;
      SumTotalsAppend(a[1..], b);
    } else {
      assert a + b == b;
    }
  }

  /** Removing a line takes exactly its total off the sum. */
  lemma RemoveItemTotal(items: seq<PurchaseItem>, index: int)
    requires 0 <= index < |items|
    ensures SumTotals(RemoveAt(items, index)) == SumTotals(items) - items[index].total
  {
    SumTotalsSplit(items, index);
    SumTotalsAppend(items[..index], items[index + 1..]);
  }

  /** The sum is the lines before `index`, then line `index`, then the lines after. */
  lemma SumTotalsSplit(items: seq<PurchaseItem>, index: int)
    requires 0 <= index < |items|
    ensures SumTotals(items) == SumTotals(items[..index]) + items[index].total + SumTotals(items[index + 1..])
  {
    assert items == items[..index] + items[index..];
    SumTotalsAppend(items[..index], items[index..]);
    assert items[index..][1..] == items[index + 1..];
  }

  /** Replacing a line changes the sum by the difference of the two totals. */
  lemma ReplaceItemTotal(items: seq<PurchaseItem>, index: int, item: PurchaseItem)
    requires 0 <= index < |items|
    ensures SumTotals(items[index := item]) == SumTotals(items) - items[index].total + item.total
  {
    var after := items[index + 1..];
    assert items == items[..index] + ([items[index]] + after);
    assert items[index := item] == items[..index] + ([item] + after);
    SumTotalsAppend(items[..index], [items[index]] + after);
    SumTotalsAppend([items[index]], after);
    SumTotalsAppend(items[..index], [item] + after);
    SumTotalsAppend([item], after);
    assert [items[index]][1..] == [] && [item][1..] == [];
  }

  /** Every line's total is its quantity times its unit cost. */
  predicate LinesPriced(items: seq<PurchaseItem>) {
    forall i :: 0 <= i < |items| ==> items[i].total == Mul(items[i].quantity, items[i].unitCost)
  }

  /** The inputs of an item line. */
  datatype ItemField = RawMaterialField | QuantityField | UnitCostField

  /** The line `handleItemChange` builds: a new raw material leaves the numbers alone;
      a new quantity or unit cost (`parseFloat(value) || 0`) recomputes the total. */
  function ChangeItem(item: PurchaseItem, field: ItemField, value: string): (r: PurchaseItem)
    ensures field == RawMaterialField ==>
      r.rawMaterialId == Some(Str(value)) && r.quantity == item.quantity &&
      r.unitCost == item.unitCost && r.total == item.total
    ensures field == QuantityField ==>
      r.rawMaterialId == item.rawMaterialId && r.quantity == ParseFloatOrZero(value) &&
      r.unitCost == item.unitCost && r.total == Mul(ParseFloatOrZero(value), item.unitCost)
    ensures field == UnitCostField ==>
      r.rawMaterialId == item.rawMaterialId && r.quantity == item.quantity &&
      r.unitCost == ParseFloatOrZero(value) && r.total == Mul(item.quantity, ParseFloatOrZero(value))
  {
    match field
    case RawMaterialField => item.(rawMaterialId := Some(Str(value)))
    case QuantityField =>
      var num := ParseFloatOrZero(value);
      item.(quantity := num, total := Mul(num, item.unitCost))
    case UnitCostField =>
      var num := ParseFloatOrZero(value);
      item.(unitCost := num, total := Mul(item.quantity, num))
  }

  /** The first failing line check of `handleSubmit`'s loop, if any. */
  function ItemsError(items: seq<PurchaseItem>): (r: Option<string>)
    ensures r.None? <==> forall i :: 0 <= i < |items| ==> items[i].quantity > 0.0 && items[i].unitCost > 0.0
    ensures r == Some("Quantity must be > 0") ==> exists i :: 0 <= i < |items| && items[i].quantity <= 0.0
    ensures r.Some? && r != Some("Quantity must be > 0") ==>
      r == Some("Unit cost must be > 0") && exists i :: 0 <= i < |items| && items[i].unitCost <= 0.0
  {
    if items == [] then None
    else if items[0].quantity <= 0.0 then Some("Quantity must be > 0")
    else if items[0].unitCost <= 0.0 then Some("Unit cost must be > 0")
    else
      var rest := ItemsError(items[1..]);
      assert forall i :: 1 <= i < |items| ==> items[i] == items[1..][i - 1];
      rest
  }

  /** `handleSubmit`'s checks, in order: a supplier, at least one line, then each line
      in turn with a positive quantity and a positive unit cost. */
  function Validate(form: PurchaseForm): (r: Option<string>)
    ensures r.None? <==>
      !Blank(form.supplier) && form.items != [] &&
      forall i :: 0 <= i < |form.items| ==> form.items[i].quantity > 0.0 && form.items[i].unitCost > 0.0
    ensures Blank(form.supplier) ==> r == Some("Supplier is required")
    ensures !Blank(form.supplier) && form.items == [] ==> r == Some("At least one item is required")
  {
    if Blank(form.supplier) then Some("Supplier is required")
    else if form.items == [] then Some("At least one item is required")
    else ItemsError(form.items)
  }

  /** One line of the request body. */
  function ItemPayload(item: PurchaseItem): (r: Value)
    ensures r.Obj? && Get(r.fields, "raw_material_id") == item.rawMaterialId
    ensures Get(r.fields, "quantity") == Some(Num(item.quantity)) && Get(r.fields, "unit_cost") == Some(Num(item.unitCost))
    ensures Get(r.fields, "total") == Some(Num(item.total))
    ensures "rawMaterialId" !in r.fields && "unitCost" !in r.fields
  {
    Obj(PutDefined(map["quantity" := Num(item.quantity), "unit_cost" := Num(item.unitCost), "total" := Num(item.total)],
                   "raw_material_id", item.rawMaterialId))
  }

  /** The request body of `POST /purchases`; empty notes are left out. */
  function Payload(form: PurchaseForm): (r: Object)
    ensures Get(r, "totalAmount") == Some(Num(form.totalAmount)) && "total_amount" !in r
    ensures Get(r, "items") == Some(Arr(seq(|form.items|, k requires 0 <= k < |form.items| => ItemPayload(form.items[k]))))
    ensures ("notes" in r) <==> form.notes != ""
  {
    var items := seq(|form.items|, k requires 0 <= k < |form.items| => ItemPayload(form.items[k]));
    PutDefined(map["date" := Str(form.date), "supplier" := Str(form.supplier), "items" := Arr(items),
                   "totalAmount" := Num(form.totalAmount)],
               "notes", if form.notes == "" then None else StrV(form.notes))
  }

  /** The line the handler reads, under the names the page sends. */
  function Delivered(item: PurchaseItem): ItemBody {
    ItemBody(item.rawMaterialId, Some(Num(item.quantity)), Some(Num(item.unitCost)), Some(Num(item.total)))
  }

  function DeliveredAll(items: seq<PurchaseItem>): (r: seq<ItemBody>)
    ensures |r| == |items| && forall k :: 0 <= k < |items| ==> r[k] == Delivered(items[k])
  {
    seq(|items|, k requires 0 <= k < |items| => Delivered(items[k]))
  }

  /** Units of raw material `m` the form's lines deliver. */
  function Ordered(items: seq<PurchaseItem>, m: int): real {
    if items == [] then 0.0
    else (if SqlId(items[0].rawMaterialId) == Some(m) then items[0].quantity else 0.0) + Ordered(items[1..], m)
  }

  lemma {:induction false} ReceivedOrdered(items: seq<PurchaseItem>, m: int)
    ensures Received(DeliveredAll(items), m) == Ordered(items, m)
  {
    if items != [] {
      assert DeliveredAll(items)[1..] == DeliveredAll(items[1..]);
      ReceivedOrdered(items[1..], m);
    }
  }

  /** As the handler reads the page's body, the header total is NULL and no line names
      a raw material, so a submitted purchase restocks nothing. */
  lemma SubmissionAsWrittenRestocksNothing(form: PurchaseForm, raw: map<int, real>)
    ensures ReadBodyAsWritten(Payload(form)).totalAmount.None?
    ensures ReadBodyAsWritten(Payload(form)).items.Some?
    ensures ReceiveAll(raw, ReadBodyAsWritten(Payload(form)).items.value) == Some(raw)
  {
    var p := Payload(form);
    var es := Get(p, "items").value.elems;
    var items := ReadItemsWith(HandlerKeys, Get(p, "items")).value;
    assert forall k :: 0 <= k < |items| ==> items[k] == ReadItemWith(HandlerKeys, es[k]);
    assert forall k :: 0 <= k < |items| ==> items[k].rawMaterialId.None?;
    UnmatchedItemsReceiveNothing(raw, items);
  }

  /** Read under the names the page sends, the body carries the purchase total, and
      each raw material is restocked by exactly the quantities its lines order. */
  lemma SubmissionRestocksOrdered(form: PurchaseForm, raw: map<int, real>, m: int)
    requires m in raw
    ensures ReadBody(Payload(form)).totalAmount == Some(Num(form.totalAmount))
    ensures ReadBody(Payload(form)).items.Some?
    ensures ReceiveAll(raw, ReadBody(Payload(form)).items.value).Some?
    ensures ReceiveAll(raw, ReadBody(Payload(form)).items.value).value[m] == raw[m] + Ordered(form.items, m)
  {
    var p := Payload(form);
    var es := Get(p, "items").value.elems;
    var items := ReadItemsWith(PageKeys, Get(p, "items")).value;
    assert forall k :: 0 <= k < |items| ==> items[k] == ReadItemWith(PageKeys, es[k]) == Delivered(form.items[k]);
    assert items == DeliveredAll(form.items);
    assert ReadBody(p).items.value == items;
    ReceiveAllExact(raw, items);
    assert forall k :: 0 <= k < |items| ==> !Refuses(raw, items[k]);
    assert ReceiveAll(raw, items).value[m] == raw[m] + Received(items, m);
    ReceivedOrdered(form.items, m);
  }

  // ---------------------------------------------------------------------------
  // Page state

  class PurchasesPage {
    var purchases: seq<Purchase>
    var sort: SortState<SortField>
    var form: PurchaseForm
    /** the request bodies posted, oldest first */
    var sent: seq<Object>

    /** The form's purchase total is the sum of its line totals, and each line total
        is its quantity times its unit cost. */
    predicate Valid()
      reads this
    {
      form.totalAmount == SumTotals(form.items) && LinesPriced(form.items)
    }

    constructor (today: string)
      ensures purchases == [] && sort == SortState(ByDate, Desc) && form == EmptyForm(today) && sent == []
      ensures Valid()
    {
      purchases := [];
      sort := SortState(ByDate, Desc);
      form := EmptyForm(today);
      sent := [];
    }

    /** The load effect: the list is replaced by the mapped rows, or kept when the
        mapping throws. */
    method Load(data: Option<Value>, now: string) returns (ok: bool)
      modifies this`purchases
      ensures ok <==> LoadPurchases(data, now).Some?
      ensures ok ==> purchases == LoadPurchases(data, now).value
      ensures !ok ==> purchases == old(purchases)
    {
      var loaded := LoadPurchases(data, now);
      if loaded.None? {
        return false;
      }
      purchases := loaded.value;
      ok := true;
    }

    /** `handleSort(field)`: the current field flips direction, a new one starts
        descending. */
    method HandleSort(field: SortField)
      modifies this`sort
      ensures sort == Toggle(old(sort), field, Desc)
    {
      if sort.field == field {
        sort := sort.(direction := Flip(sort.direction));
      } else {
        sort := SortState(field, Desc);
      }
    }

    /** `handleAddPurchase()` */
    method HandleAddPurchase(today: string)
      modifies this`form
      ensures form == EmptyForm(today) && Valid()
    {
      form := EmptyForm(today);
    }

    /** `handleFormChange(e)` */
    method HandleFormChange(field: FormField, value: string)
      requires Valid()
      modifies this`form
      ensures form == FormChange(old(form), field, value)
      ensures Valid()
    {
      form := FormChange(form, field, value);
    }

    /** `handleAddItem()`: a line for the first raw material (or `''` when there is
        none), quantity 1, unit cost 0, total 0; the purchase total is not touched. */
    method HandleAddItem(materials: seq<Object>)
      requires Valid()
      modifies this`form
      ensures form.items == old(form.items) +
        [PurchaseItem(if |materials| > 0 then Get(materials[0], "id") else StrV(""), 1.0, 0.0, 0.0)]
      ensures form == old(form).(items := form.items)
      ensures Valid()
    {
      var defaultMaterialId := if |materials| > 0 then Get(materials[0], "id") else StrV("");
      var newItem := PurchaseItem(defaultMaterialId, 1.0, 0.0, 0.0);
      SumTotalsAppend(form.items, [newItem]);
      assert Mul(1.0, 0.0) == 0.0;
      form := form.(items := form.items + [newItem]);
    }

    /** `handleRemoveItem(index)` */
    method HandleRemoveItem(index: int)
      requires Valid()
      modifies this`form
      ensures form.items == RemoveAt(old(form.items), index)
      ensures form == old(form).(items := form.items, totalAmount := form.totalAmount)
      ensures 0 <= index < |old(form.items)| ==> form.totalAmount == old(form.totalAmount) - old(form.items)[index].total
      ensures Valid()
    {
      var newItems := RemoveAt(form.items, index);
      if 0 <= index < |form.items| {
        RemoveItemTotal(form.items, index);
      }
      form := form.(items := newItems, totalAmount := SumTotals(newItems));
    }

    /** `handleItemChange(index, field, value)`: copies the lines, rebuilds the one at
        `index`, writes it back and sums the line totals again. */
    method HandleItemChange(index: nat, field: ItemField, value: string)
      requires index < |form.items| && Valid()
      modifies this`form
      ensures form.items == old(form.items)[index := ChangeItem(old(form.items)[index], field, value)]
      ensures form == old(form).(items := form.items, totalAmount := form.totalAmount)
      ensures form.totalAmount == old(form.totalAmount) - old(form.items)[index].total + form.items[index].total
      ensures Valid()
    {
      var newItems := form.items;
      var item := newItems[index];
      if field == RawMaterialField {
        item := item.(rawMaterialId := Some(Str(value)));
      } else {
        var num := ParseFloatOrZero(value);
        if field == QuantityField {
          item := item.(quantity := num);
        } else {
          item := item.(unitCost := num);
        }
        item := item.(total := Mul(item.quantity, item.unitCost));
      }
      newItems := newItems[index := item];
      ReplaceItemTotal(form.items, index, item);
      form := form.(items := newItems, totalAmount := SumTotals(newItems));
    }

    /** `handleSubmit`: the checks, line by line, then the body is posted. */
    method HandleSubmit() returns (err: Option<string>)
      modifies this`sent
      ensures err == Validate(form)
      ensures err.None? ==> sent == old(sent) + [Payload(form)]
      ensures err.Some? ==> sent == old(sent)
    {
      if Blank(form.supplier) {
        return Some("Supplier is required");
      }
      if form.items == [] {
        return Some("At least one item is required");
      }
      var i := 0;
      while i < |form.items|
        invariant 0 <= i <= |form.items|
        invariant ItemsError(form.items) == ItemsError(form.items[i..])
      {
        assert form.items[i..][1..] == form.items[i + 1..];
        if form.items[i].quantity <= 0.0 {
          return Some("Quantity must be > 0");
        }
        if form.items[i].unitCost <= 0.0 {
          return Some("Unit cost must be > 0");
        }
        i := i + 1;
      }
      sent := sent + [Payload(form)];
      err := None;
    }
  }
}
