/** The raw materials page of the newer client (Frontend/src/pages/RawMaterials.tsx):
    the searchable, supplier-filtered and sorted list, the material form and its submit
    checks, and the inventory figures. */
module RawMaterialsPage {
  import opened Js
  import opened Sorting

  /** A raw material as the inventory store hands it to the page. `id` is whatever the
      server sent, the store's record being spread over its own fields. */
  datatype Material = Material(id: Value, name: string, unit: string, stock: real,
                               unitCost: real, supplier: string)

  // ---------------------------------------------------------------------------
  // List

  /** `suppliers`: `'All'`, then each supplier once. */
  function Suppliers(materials: seq<Material>): (r: seq<string>)
    ensures |r| >= 1 && r[0] == "All"
    ensures forall s :: s in r[1..] <==> exists i :: 0 <= i < |materials| && materials[i].supplier == s
    ensures forall i, j :: 1 <= i < j < |r| ==> r[i] != r[j]
  {
    var names := seq(|materials|, i requires 0 <= i < |materials| => materials[i].supplier);
    assert forall s :: s in names <==> exists i :: 0 <= i < |materials| && materials[i].supplier == s by {
      forall s | s in names ensures exists i :: 0 <= i < |materials| && materials[i].supplier == s {
        var i :| 0 <= i < |names| && names[i] == s;
      }
      forall s | exists i :: 0 <= i < |materials| && materials[i].supplier == s ensures s in names {
        var i :| 0 <= i < |materials| && materials[i].supplier == s;
        assert names[i] == s;
      }
    }
    var r := ["All"] + Distinct(names);
    assert r[1..] == Distinct(names);
    r
  }

  /** The list filter: the name contains the search term, ignoring case, and no
      supplier (or `'All'`) or this one is selected. */
  predicate Matches(m: Material, search: string, selected: Option<string>) {
    Includes(Lower(m.name), Lower(search)) &&
    (selected.None? || selected.value == "All" || m.supplier == selected.value)
  }

  datatype SortField = ByName | ByStock | ByUnitCost | BySupplier

  /** The comparator's field; the direction is applied as a multiplier of 1 or -1. */
  function SortKey(field: SortField): Material -> Key {
    match field
    case ByName => (m: Material) => Text(m.name)
    case ByStock => (m: Material) => Number(m.stock)
    case ByUnitCost => (m: Material) => Number(m.unitCost)
    case BySupplier => (m: Material) => Text(m.supplier)
  }

  /** `getSortedMaterials()` */
  function SortedMaterials(materials: seq<Material>, search: string, selected: Option<string>,
                           sort: SortState<SortField>): (r: seq<Material>)
    ensures multiset(r) == multiset(Filter(materials, (m: Material) => Matches(m, search, selected)))
    ensures Sorted(r, SortKey(sort.field), sort.direction)
  {
    SortBy(Filter(materials, (m: Material) => Matches(m, search, selected)), SortKey(sort.field), sort.direction)
  }

  /** The list holds exactly the matching materials. */
  lemma SortedMaterialsMatch(materials: seq<Material>, search: string, selected: Option<string>,
                             sort: SortState<SortField>, m: Material)
    ensures m in SortedMaterials(materials, search, selected, sort) <==>
            m in materials && Matches(m, search, selected)
  {
    var f := Filter(materials, (x: Material) => Matches(x, search, selected));
    var r := SortedMaterials(materials, search, selected, sort);
    assert m in r <==> m in multiset(r);
    assert m in f <==> m in multiset(f);
    if m in materials && Matches(m, search, selected) {
      var i :| 0 <= i < |materials| && materials[i] == m;
    }
    if m in f {
      var i :| 0 <= i < |f| && f[i] == m;
    }
  }

  // ---------------------------------------------------------------------------
  // Form

  /** `formData` */
  datatype MaterialForm = MaterialForm(name: string, unit: string, stock: real, unitCost: real, supplier: string)

  const EmptyForm := MaterialForm("", "", 0.0, 0.0, "")

  function EditForm(m: Material): (r: MaterialForm)
    ensures r.name == m.name && r.unit == m.unit && r.stock == m.stock
    ensures r.unitCost == m.unitCost && r.supplier == m.supplier
  {
    MaterialForm(m.name, m.unit, m.stock, m.unitCost, m.supplier)
  }

  datatype FormField = NameField | UnitField | StockField | UnitCostField | SupplierField

  /** `handleFormChange`: unit cost and stock take `parseFloat(value) || 0`, the other
      fields the text as typed. */
  function FormChange(form: MaterialForm, field: FormField, value: string): (r: MaterialForm)
    ensures field == StockField ==> r == form.(stock := ParseFloatOrZero(value))
    ensures field == UnitCostField ==> r == form.(unitCost := ParseFloatOrZero(value))
    ensures field == NameField ==> r == form.(name := value)
    ensures field == UnitField ==> r == form.(unit := value)
    ensures field == SupplierField ==> r == form.(supplier := value)
  {
    match field
    case NameField => form.(name := value)
    case UnitField => form.(unit := value)
    case StockField => form.(stock := ParseFloatOrZero(value))
    case UnitCostField => form.(unitCost := ParseFloatOrZero(value))
    case SupplierField => form.(supplier := value)
  }

  /** `handleSubmit`'s checks, in order; the message of the first that fails. */
  function Validate(form: MaterialForm): (r: Option<string>)
    ensures r.None? <==>
      !Blank(form.name) && !Blank(form.unit) && form.stock >= 0.0 && form.unitCost > 0.0 && !Blank(form.supplier)
    ensures Blank(form.name) ==> r == Some("Material name is required")
    ensures !Blank(form.name) && Blank(form.unit) ==> r == Some("Unit is required")
    ensures !Blank(form.name) && !Blank(form.unit) && form.stock < 0.0 ==> r == Some("Stock cannot be negative")
    ensures !Blank(form.name) && !Blank(form.unit) && form.stock >= 0.0 && form.unitCost <= 0.0 ==>
              r == Some("Unit cost must be > 0")
    ensures !Blank(form.name) && !Blank(form.unit) && form.stock >= 0.0 && form.unitCost > 0.0 && Blank(form.supplier) ==>
              r == Some("Supplier is required")
  {
    if Blank(form.name) then Some("Material name is required")
    else if Blank(form.unit) then Some("Unit is required")
    else if form.stock < 0.0 then Some("Stock cannot be negative")
    else if form.unitCost <= 0.0 then Some("Unit cost must be > 0")
    else if Blank(form.supplier) then Some("Supplier is required")
    else None
  }

  /** A unit cost left unreadable reads as 0 and is refused. */
  lemma UnreadableUnitCostRefused(form: MaterialForm)
    requires !Blank(form.name) && !Blank(form.unit) && form.stock >= 0.0
    ensures Validate(FormChange(form, UnitCostField, "abc")) == Some("Unit cost must be > 0")
  {
    assert TrimStart("abc") == "abc";
    assert DigitPrefix("abc") == "";
    assert ParseFloatOrZero("abc") == 0.0;
    assert FormChange(form, UnitCostField, "abc") == form.(unitCost := 0.0);
  }

  datatype FormMode = AddMode | EditMode

  /** What a submit does: refuse with a message, add the material, update the material
      being edited, or (editing with none chosen) only close the form. */
  datatype SubmitOutcome = Refused(message: string) | AddMaterial(form: MaterialForm)
                         | UpdateMaterial(id: Value, form: MaterialForm) | Closed

  function Submit(form: MaterialForm, mode: FormMode, current: Option<Material>): (r: SubmitOutcome)
    ensures Validate(form).Some? ==> r == Refused(Validate(form).value)
    ensures Validate(form).None? && mode == AddMode ==> r == AddMaterial(form)
    ensures Validate(form).None? && mode == EditMode && current.Some? ==> r == UpdateMaterial(current.value.id, form)
    ensures Validate(form).None? && mode == EditMode && current.None? ==> r == Closed
  {
    match Validate(form)
    case Some(m) => Refused(m)
    case None =>
      if mode == AddMode then AddMaterial(form)
      else if current.Some? then UpdateMaterial(current.value.id, form)
      else Closed
  }

  // ---------------------------------------------------------------------------
  // Figures

  /** `reduce((acc, curr) => acc + curr.stock * curr.unitCost, 0)` */
  function InventoryValue(materials: seq<Material>): real {
    if materials == [] then 0.0
    else Mul(materials[0].stock, materials[0].unitCost) + InventoryValue(materials[1..])
  }

  lemma {:induction false} InventoryValueAppend(a: seq<Material>, b: seq<Material>)
    ensures InventoryValue(a + b) == InventoryValue(a) + InventoryValue(b)
  {
    if a != [] {
      assert (a + b)[1..] == a[1..] + b;
      InventoryValueAppend(a[1..], b);
    } else {
      assert a + b == b;
    }
  }

  /** Materials in stock at a non-negative cost are worth a non-negative amount. */
  lemma {:induction false} InventoryValueNonNegative(materials: seq<Material>)
    requires forall i :: 0 <= i < |materials| ==> materials[i].stock >= 0.0 && materials[i].unitCost >= 0.0
    ensures InventoryValue(materials) >= 0.0
  {
    if materials != [] {
      InventoryValueNonNegative(materials[1..]);
    }
  }

  datatype Stats = Stats(totalItems: nat, totalValue: real, lowStockCount: nat)

  /** The figures above the list; a material is low below 100 units. */
  function ComputeStats(materials: seq<Material>): (r: Stats)
    ensures r.totalItems == |materials| && r.totalValue == InventoryValue(materials)
    ensures r.lowStockCount == |Filter(materials, (m: Material) => m.stock < 100.0)| <= r.totalItems
  {
    Stats(|materials|, InventoryValue(materials), |Filter(materials, (m: Material) => m.stock < 100.0)|)
  }

  /** Every material below the threshold is counted, and only those. */
  lemma LowStockCountsLow(materials: seq<Material>, m: Material)
    ensures m in Filter(materials, (x: Material) => x.stock < 100.0) <==> m in materials && m.stock < 100.0
  {
    if m in materials && m.stock < 100.0 {
      var i :| 0 <= i < |materials| && materials[i] == m;
    }
    var f := Filter(materials, (x: Material) => x.stock < 100.0);
    if m in f {
      var i :| 0 <= i < |f| && f[i] == m;
    }
  }

  // ---------------------------------------------------------------------------
  // Page state

  class RawMaterialsPage {
    var sort: SortState<SortField>
    var form: MaterialForm
    var mode: FormMode
    var current: Option<Material>

    constructor ()
      ensures sort == SortState(ByName, Asc) && form == EmptyForm && mode == AddMode && current.None?
    {
      sort := SortState(ByName, Asc);
      form := EmptyForm;
      mode := AddMode;
      current := None;
    }

    /** `handleSort(field)`: the current field flips direction, a new one starts
        ascending. */
    method HandleSort(field: SortField)
      modifies this`sort
      ensures sort == Toggle(old(sort), field, Asc)
    {
      if sort.field == field {
        sort := sort.(direction := Flip(sort.direction));
      } else {
        sort := SortState(field, Asc);
      }
    }

    /** `handleAddMaterial()` */
    method HandleAddMaterial()
      modifies this`form, this`mode, this`current
      ensures form == EmptyForm && mode == AddMode && current.None?
    {
      mode := AddMode;
      current := None;
      form := EmptyForm;
    }

    /** `handleEditMaterial(material)` */
    method HandleEditMaterial(material: Material)
      modifies this`form, this`mode, this`current
      ensures form == EditForm(material) && mode == EditMode && current == Some(material)
    {
      mode := EditMode;
      current := Some(material);
      form := EditForm(material);
    }

    /** `handleFormChange(e)` */
    method HandleFormChange(field: FormField, value: string)
      modifies this`form
      ensures form == FormChange(old(form), field, value)
    {
      form := FormChange(form, field, value);
    }
  }
}
