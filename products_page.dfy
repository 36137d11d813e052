/** The product management page of the newer client (Frontend/src/pages/Products.tsx):
    the sortable, filtered product list, the product form with its recipe editor, the
    cost roll-up from the recipe, the submit checks and the stock figures. */
module ProductsPage {
  import opened Js
  import opened Sorting
  import opened ProductContext
  import Pos

  // ---------------------------------------------------------------------------
  // List

  datatype SortField = ByName | ByPrice | ByStock | ByCategory

  /** The comparator's field: names and categories through `localeCompare`, price and
      stock by subtraction. */
  function SortKey(field: SortField): Product -> Key {
    match field
    case ByName => (p: Product) => Text(p.name)
    case ByPrice => (p: Product) => Number(p.price)
    case ByStock => (p: Product) => Number(p.stock)
    case ByCategory => (p: Product) => Text(p.category)
  }

  /** `getSortedProducts()`: the products the search and category select, in the
      order of the chosen field, reversed for `'desc'`. */
  function SortedProducts(products: seq<Product>, search: string, selected: Option<string>,
                          sort: SortState<SortField>): (r: seq<Product>)
    ensures multiset(r) == multiset(Pos.FilterProducts(products, search, selected))
    ensures Sorted(r, SortKey(sort.field), sort.direction)
  {
    SortBy(Pos.FilterProducts(products, search, selected), SortKey(sort.field), sort.direction)
  }

  /** The list holds exactly the matching products. */
  lemma SortedProductsMatch(products: seq<Product>, search: string, selected: Option<string>,
                            sort: SortState<SortField>, p: Product)
    ensures p in SortedProducts(products, search, selected, sort) <==>
            p in products && Pos.Matches(p.name, Some(p.category), search, selected)
  {
    var f := Pos.FilterProducts(products, search, selected);
    var r := SortedProducts(products, search, selected, sort);
    assert p in r <==> p in multiset(r);
    assert p in f <==> p in multiset(f);
    if p in products && Pos.Matches(p.name, Some(p.category), search, selected) {
      var i :| 0 <= i < |products| && products[i] == p;
    }
    if p in f {
      var i :| 0 <= i < |f| && f[i] == p;
    }
  }

  // ---------------------------------------------------------------------------
  // Form

  /** `formData` */
  datatype ProductForm = ProductForm(name: string, price: real, costPrice: real, stock: real,
                                     category: string, image: string, ingredients: seq<Ingredient>)

  const EmptyForm := ProductForm("", 0.0, 0.0, 0.0, "", "", [])

  /** The inputs `handleFormChange` serves. */
  datatype FormField = NameField | PriceField | CostPriceField | StockField | CategoryField | ImageField

  /** `handleFormChange`: price, cost price and stock take `parseFloat(value) || 0`, the
      others the text as typed. */
  function FormChange(form: ProductForm, field: FormField, value: string): (r: ProductForm)
    ensures field == PriceField ==> r == form.(price := ParseFloatOrZero(value))
    ensures field == CostPriceField ==> r == form.(costPrice := ParseFloatOrZero(value))
    ensures field == StockField ==> r == form.(stock := ParseFloatOrZero(value))
    ensures field == NameField ==> r == form.(name := value)
    ensures field == CategoryField ==> r == form.(category := value)
    ensures field == ImageField ==> r == form.(image := value)
  {
    match field
    case NameField => form.(name := value)
    case PriceField => form.(price := ParseFloatOrZero(value))
    case CostPriceField => form.(costPrice := ParseFloatOrZero(value))
    case StockField => form.(stock := ParseFloatOrZero(value))
    case CategoryField => form.(category := value)
    case ImageField => form.(image := value)
  }

  /** The fields of an ingredient `handleIngredientChange` edits. */
  datatype IngredientField = RawMaterialField | AmountField

  /** `{ ...ingredient, [field]: field === 'amount' ? Number(value) || 0 : String(value) }` */
  function ChangeIngredient(ing: Ingredient, field: IngredientField, value: Value): (r: Ingredient)
    ensures field == AmountField ==> r == ing.(amount := ToNumber(Some(value)))
    ensures field == RawMaterialField ==> r == ing.(rawMaterialId := ToStr(Some(value)))
  {
    match field
    case AmountField => ing.(amount := ToNumber(Some(value)))
    case RawMaterialField => ing.(rawMaterialId := ToStr(Some(value)))
  }

  // ---------------------------------------------------------------------------
  // Cost roll-up

  /** `rawMaterials.find(r => String(r.id) === id)` */
  function FindMaterial(materials: seq<Object>, id: string): (r: Option<Object>)
    ensures r.None? <==> forall i :: 0 <= i < |materials| ==> ToStr(Get(materials[i], "id")) != id
    ensures r.Some? ==> r.value in materials && ToStr(Get(r.value, "id")) == id
  {
    if materials == [] then None
    else if ToStr(Get(materials[0], "id")) == id then Some(materials[0])
    else FindMaterial(materials[1..], id)
  }

  /** `Number(rm?.unitCost ?? rm?.price ?? 0)`: an unknown material costs 0. */
  function UnitCost(materials: seq<Object>, id: string): real {
    match FindMaterial(materials, id)
    case None => 0.0
    case Some(m) => ToNumber(Coalesce(Get(m, "unitCost"), Coalesce(Get(m, "price"), NumV(0.0))))
  }

  /** The cost one ingredient adds: `unitCost * Number(ing.amount || 0)`. */
  function IngredientCost(materials: seq<Object>, ing: Ingredient): real {
    Mul(UnitCost(materials, ing.rawMaterialId), ing.amount)
  }

  /** The recipe total of the roll-up's `reduce`. */
  function RecipeCost(materials: seq<Object>, ings: seq<Ingredient>): real {
    if ings == [] then 0.0 else IngredientCost(materials, ings[0]) + RecipeCost(materials, ings[1..])
  }

  lemma {:induction false} RecipeCostAppend(materials: seq<Object>, a: seq<Ingredient>, b: seq<Ingredient>)
    ensures RecipeCost(materials, a + b) == RecipeCost(materials, a) + RecipeCost(materials, b)
  {
    if a != [] {
      assert (a + b)[1..] == a[1..] + b;
      RecipeCostAppend(materials, a[1..], b);
    } else {
      assert a + b == b;
    }
  }

  /** Removing an ingredient takes exactly its cost off the recipe total. */
  lemma RemoveAtCost(materials: seq<Object>, ings: seq<Ingredient>, index: int)
    requires 0 <= index < |ings|
    ensures RecipeCost(materials, RemoveAt(ings, index)) ==
            RecipeCost(materials, ings) - IngredientCost(materials, ings[index])
  {
    assert ings == ings[..index] + ([ings[index]] + ings[index + 1..]);
    RecipeCostAppend(materials, ings[..index], [ings[index]] + ings[index + 1..]);
    RecipeCostAppend(materials, [ings[index]], ings[index + 1..]);
    RecipeCostAppend(materials, ings[..index], ings[index + 1..]);
    assert [ings[index]][1..] == [];
  }

  /** Ingredients naming no known material add nothing. */
  lemma {:induction false} UnknownMaterialsCostNothing(materials: seq<Object>, ings: seq<Ingredient>)
    requires forall k :: 0 <= k < |ings| ==> FindMaterial(materials, ings[k].rawMaterialId).None?
    ensures RecipeCost(materials, ings) == 0.0
  {
    if ings != [] {
      UnknownMaterialsCostNothing(materials, ings[1..]);
    }
  }

  /** `Number(total.toFixed(2))`, rounding half away from zero for the non-negative
      totals the roll-up replaces the cost with. */
  function Round2(x: real): (r: real)
    ensures x >= 0.0 ==> r - x <= 0.005 && x - r < 0.005
  {
    ((x * 100.0 + 0.5).Floor as real) / 100.0
  }

  /** The roll-up effect: the cost price becomes the rounded recipe total when that is
      positive, and is left as entered otherwise. */
  function RollUp(form: ProductForm, materials: seq<Object>): (r: ProductForm)
    ensures RecipeCost(materials, form.ingredients) > 0.0 ==>
      r == form.(costPrice := Round2(RecipeCost(materials, form.ingredients)))
    ensures RecipeCost(materials, form.ingredients) <= 0.0 ==> r == form
  {
    var total := RecipeCost(materials, form.ingredients);
    if total > 0.0 then form.(costPrice := Round2(total)) else form
  }

  /** A recipe of unknown materials leaves the entered cost price alone. */
  lemma RollUpKeepsManualCost(form: ProductForm, materials: seq<Object>)
    requires forall k :: 0 <= k < |form.ingredients| ==> FindMaterial(materials, form.ingredients[k].rawMaterialId).None?
    ensures RollUp(form, materials) == form
  {
    UnknownMaterialsCostNothing(materials, form.ingredients);
  }

  // ---------------------------------------------------------------------------
  // Submit and figures

  /** `handleSubmit`'s checks, in order; the message of the first that fails. */
  function Validate(form: ProductForm): (r: Option<string>)
    ensures r.None? <==> !Blank(form.name) && form.price > 0.0 && form.stock >= 0.0 && !Blank(form.category)
    ensures Blank(form.name) ==> r == Some("Product name is required")
    ensures !Blank(form.name) && form.price <= 0.0 ==> r == Some("Price must be greater than 0")
    ensures !Blank(form.name) && form.price > 0.0 && form.stock < 0.0 ==> r == Some("Stock cannot be negative")
    ensures !Blank(form.name) && form.price > 0.0 && form.stock >= 0.0 && Blank(form.category) ==>
              r == Some("Category is required")
  {
    if Blank(form.name) then Some("Product name is required")
    else if form.price <= 0.0 then Some("Price must be greater than 0")
    else if form.stock < 0.0 then Some("Stock cannot be negative")
    else if Blank(form.category) then Some("Category is required")
    else None
  }

  datatype FormMode = AddMode | EditMode

  /** The form `handleEditProduct` fills from a product: its own figures, its image
      (`product.image || ''`) and a copy of its recipe. */
  function EditForm(p: Product): (r: ProductForm)
    ensures r.name == p.name && r.price == p.price && r.costPrice == p.costPrice && r.stock == p.stock
    ensures r.category == p.category && r.ingredients == p.ingredients
    // the product's image when it has one, otherwise the empty text
    ensures p.image.Some? ==> r.image == p.image.value
    ensures p.image.None? ==> r.image == ""
  {
    var image := if p.image.Some? && p.image.value != "" then p.image.value else "";
    ProductForm(p.name, p.price, p.costPrice, p.stock, p.category, image, p.ingredients)
  }

  /** What a submit does: refuse with a message, add the product, update the product
      being edited, or (editing with no product chosen) only close the form. */
  datatype SubmitOutcome = Refused(message: string) | AddProduct(form: ProductForm)
                         | UpdateProduct(id: string, form: ProductForm) | Closed

  function Submit(form: ProductForm, mode: FormMode, current: Option<Product>): (r: SubmitOutcome)
    ensures Validate(form).Some? ==> r == Refused(Validate(form).value)
    ensures Validate(form).None? && mode == AddMode ==> r == AddProduct(form)
    ensures Validate(form).None? && mode == EditMode && current.Some? ==> r == UpdateProduct(current.value.id, form)
    ensures Validate(form).None? && mode == EditMode && current.None? ==> r == Closed
  {
    match Validate(form)
    case Some(m) => Refused(m)
    case None =>
      if mode == AddMode then AddProduct(form)
      else if current.Some? then UpdateProduct(current.value.id, form)
      else Closed
  }

  /** The stock figures above the list. */
  datatype Stats = Stats(totalProducts: nat, lowStockCount: nat, outOfStockCount: nat, potentialRevenue: real)

  function PotentialRevenue(products: seq<Product>): real {
    if products == [] then 0.0 else Mul(products[0].price, products[0].stock) + PotentialRevenue(products[1..])
  }

  function ComputeStats(products: seq<Product>): (r: Stats)
    ensures r.lowStockCount == |Filter(products, (p: Product) => p.stock <= 5.0)|
    ensures r.outOfStockCount == |Filter(products, (p: Product) => p.stock == 0.0)|
    ensures r.outOfStockCount <= r.lowStockCount <= r.totalProducts == |products|
    ensures r.potentialRevenue == PotentialRevenue(products)
  {
    FilterLengthMonotone(products, (p: Product) => p.stock == 0.0, (p: Product) => p.stock <= 5.0);
    Stats(|products|, |Filter(products, (p: Product) => p.stock <= 5.0)|,
          |Filter(products, (p: Product) => p.stock == 0.0)|, PotentialRevenue(products))
  }

  /** Stocked products of positive price make the potential revenue non-negative. */
  lemma {:induction false} PotentialRevenueNonNegative(products: seq<Product>)
    requires forall i :: 0 <= i < |products| ==> products[i].price >= 0.0 && products[i].stock >= 0.0
    ensures PotentialRevenue(products) >= 0.0
  {
    if products != [] {
      PotentialRevenueNonNegative(products[1..]);
    }
  }

  // ---------------------------------------------------------------------------
  // Page state

  class ProductsPage {
    var sort: SortState<SortField>
    var form: ProductForm
    var mode: FormMode
    /** `currentProduct` */
    var current: Option<Product>

    constructor ()
      ensures sort == SortState(ByName, Asc) && form == EmptyForm && mode == AddMode && current.None?
    {
      sort := SortState(ByName, Asc);
      form := EmptyForm;
      mode := AddMode;
      current := None;
    }

    /** `handleAddProduct()`: an empty form in add mode. */
    method HandleAddProduct()
      modifies this`form, this`mode, this`current
      ensures form == EmptyForm && mode == AddMode && current.None?
    {
      mode := AddMode;
      current := None;
      form := EmptyForm;
    }

    /** `handleEditProduct(product)`: the product's form in edit mode. */
    method HandleEditProduct(product: Product)
      modifies this`form, this`mode, this`current
      ensures form == EditForm(product) && mode == EditMode && current == Some(product)
      ensures form.image == if product.image.Some? then product.image.value else ""
    {
      mode := EditMode;
      current := Some(product);
      form := EditForm(product);
    }

    /** `handleFormChange(e)` */
    method HandleFormChange(field: FormField, value: string)
      modifies this`form
      ensures form == FormChange(old(form), field, value)
    {
      form := FormChange(form, field, value);
    }

    /** `handleSort(field)`: the current field flips direction, a new one starts
        ascending. */
    method HandleSort(field: SortField)
      modifies this`sort
      ensures sort == Toggle(old(sort), field, Asc)
    {
      if sort.field == field {
        sort := sort.(direction := Flip(sort.direction));
      } else {
        sort := SortState(field, Asc);
      }
    }

    /** `handleAddIngredient()`: appends the first raw material with amount 1, or
        refuses when there is no material (or its id is falsy). */
    method HandleAddIngredient(materials: seq<Object>) returns (err: Option<string>)
      modifies this`form
      ensures materials == [] || !Truthy(Get(materials[0], "id")) ==>
        err == Some("No raw materials available") && form == old(form)
      ensures materials != [] && Truthy(Get(materials[0], "id")) ==>
        err.None? &&
        form == old(form).(ingredients := old(form).ingredients + [Ingredient(ToStr(Get(materials[0], "id")), 1.0)])
    {
      if materials == [] || !Truthy(Get(materials[0], "id")) {
        return Some("No raw materials available");
      }
      form := form.(ingredients := form.ingredients + [Ingredient(ToStr(Get(materials[0], "id")), 1.0)]);
      err := None;
    }

    /** `handleRemoveIngredient(index)` */
    method HandleRemoveIngredient(index: int)
      modifies this`form
      ensures form == old(form).(ingredients := RemoveAt(old(form).ingredients, index))
    {
      form := form.(ingredients := RemoveAt(form.ingredients, index));
    }

    /** `handleIngredientChange(index, field, value)`: copies the list, then replaces
        the entry at `index`. */
    method HandleIngredientChange(index: nat, field: IngredientField, value: Value)
      requires index < |form.ingredients|
      modifies this`form
      ensures |form.ingredients| == |old(form).ingredients|
      ensures form.ingredients[index] == ChangeIngredient(old(form).ingredients[index], field, value)
      ensures forall i :: 0 <= i < |form.ingredients| && i != index ==> form.ingredients[i] == old(form).ingredients[i]
      ensures form == old(form).(ingredients := form.ingredients)
    {
      var newIngredients := form.ingredients;
      newIngredients := newIngredients[index := ChangeIngredient(newIngredients[index], field, value)];
      form := form.(ingredients := newIngredients);
    }

    /** The effect that reruns when the recipe or the materials change. */
    method RollUpCost(materials: seq<Object>)
      modifies this`form
      ensures form == RollUp(old(form), materials)
    {
      var total := RecipeCost(materials, form.ingredients);
      if total > 0.0 {
        form := form.(costPrice := Round2(total));
      }
    }
  }
}
