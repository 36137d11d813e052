/** The product management page of the older client
    (TokoKami/Frontend/src/pages/Products.tsx): the category options, the sortable,
    filtered list, the product form and what its submit sends. Ingredients have no
    endpoint on this client and their handlers do nothing. */
module LegacyProductsPage {
  import opened Js
  import opened Sorting
  import Pos
  import opened LegacyPos

  // ---------------------------------------------------------------------------
  // Categories and list

  /** `product.category || 'Uncategorized'`: a missing or empty category is shown under
      that label. */
  function CategoryLabel(p: Product): (r: string)
    ensures r != ""
    ensures p.category.Some? && p.category.value != "" ==> r == p.category.value
  {
    if p.category.None? || p.category.value == "" then "Uncategorized" else p.category.value
  }

  function Labels(products: seq<Product>): (r: seq<string>)
    ensures |r| == |products|
    ensures forall i :: 0 <= i < |products| ==> r[i] == CategoryLabel(products[i])
  {
    seq(|products|, i requires 0 <= i < |products| => CategoryLabel(products[i]))
  }

  /** `['All', ...Array.from(new Set(products.map(...)))]` */
  function Categories(products: seq<Product>): (r: seq<string>)
    ensures |r| >= 1 && r[0] == "All"
    ensures forall c :: c in r[1..] <==> exists i :: 0 <= i < |products| && CategoryLabel(products[i]) == c
    ensures forall i, j :: 1 <= i < j < |r| ==> r[i] != r[j]
  {
    var labels := Labels(products);
    var r := ["All"] + Distinct(labels);
    assert r[1..] == Distinct(labels);
    assert forall c :: c in labels <==> exists i :: 0 <= i < |products| && CategoryLabel(products[i]) == c by {
      forall c | c in labels ensures exists i :: 0 <= i < |products| && CategoryLabel(products[i]) == c {
        var i :| 0 <= i < |labels| && labels[i] == c;
      }
    }
    r
  }

  /** The `'Uncategorized'` option is offered for products without a category, but
      choosing it shows none of them: the filter compares the product's own (missing)
      category with the option's text. */
  lemma UncategorizedOptionHidesUncategorised(products: seq<Product>, search: string)
    ensures forall i :: 0 <= i < |products| && products[i].category.None? ==>
              products[i] !in FilterProducts(products, search, Some("Uncategorized"))
  {
  }

  datatype SortField = ByName | ByPrice | ByStock

  /** The comparator's field: the name through `localeCompare`, price and stock by
      subtraction. */
  function SortKey(field: SortField): Product -> Key {
    match field
    case ByName => (p: Product) => Text(p.name)
    case ByPrice => (p: Product) => Number(p.price)
    case ByStock => (p: Product) => Number(p.stock)
  }

  /** `getSortedProducts()`: the products the search and category select, ordered by
      the chosen field, reversed for `'desc'`. */
  function SortedProducts(products: seq<Product>, search: string, selected: Option<string>,
                          sort: SortState<SortField>): (r: seq<Product>)
    ensures multiset(r) == multiset(FilterProducts(products, search, selected))
    ensures Sorted(r, SortKey(sort.field), sort.direction)
  {
    SortBy(FilterProducts(products, search, selected), SortKey(sort.field), sort.direction)
  }

  /** The list holds exactly the matching products. */
  lemma SortedProductsMatch(products: seq<Product>, search: string, selected: Option<string>,
                            sort: SortState<SortField>, p: Product)
    ensures p in SortedProducts(products, search, selected, sort) <==>
            p in products && Pos.Matches(p.name, p.category, search, selected)
  {
    var f := FilterProducts(products, search, selected);
    var r := SortedProducts(products, search, selected, sort);
    assert p in r <==> p in multiset(r);
    assert p in f <==> p in multiset(f);
    if p in products && Pos.Matches(p.name, p.category, search, selected) {
      var i :| 0 <= i < |products| && products[i] == p;
    }
    if p in f {
      var i :| 0 <= i < |f| && f[i] == p;
    }
  }

  // ---------------------------------------------------------------------------
  // Form

  /** `ProductFormData` */
  datatype ProductForm = ProductForm(name: string, price: real, cost: real, stock: real,
                                     sku: string, category: string, image: string)

  const EmptyForm := ProductForm("", 0.0, 0.0, 0.0, "", "", "")

  /** The form `handleEditProduct` opens for a product; the product record carries no
      image, so the image field starts empty. */
  function EditForm(p: Product): (r: ProductForm)
    ensures r.name == p.name && r.price == p.price && r.cost == p.cost && r.stock == p.stock
    ensures r.sku == p.sku
    ensures p.category.Some? ==> r.category == p.category.value
    ensures p.category.None? ==> r.category == ""
  {
    ProductForm(p.name, p.price, p.cost, p.stock, p.sku,
                if p.category.Some? then p.category.value else "", "")
  }

  datatype FormField = NameField | PriceField | CostField | StockField | SkuField | CategoryField | ImageField

  /** `handleFormChange`: price, cost and stock take `parseFloat(value) || 0`, the other
      fields the text as typed. */
  function FormChange(form: ProductForm, field: FormField, value: string): (r: ProductForm)
    ensures field == PriceField ==> r == form.(price := ParseFloatOrZero(value))
    ensures field == CostField ==> r == form.(cost := ParseFloatOrZero(value))
    ensures field == StockField ==> r == form.(stock := ParseFloatOrZero(value))
    ensures field == NameField ==> r == form.(name := value)
    ensures field == SkuField ==> r == form.(sku := value)
    ensures field == CategoryField ==> r == form.(category := value)
    ensures field == ImageField ==> r == form.(image := value)
  {
    match field
    case NameField => form.(name := value)
    case PriceField => form.(price := ParseFloatOrZero(value))
    case CostField => form.(cost := ParseFloatOrZero(value))
    case StockField => form.(stock := ParseFloatOrZero(value))
    case SkuField => form.(sku := value)
    case CategoryField => form.(category := value)
    case ImageField => form.(image := value)
  }

  /** A numeric field typed as an unreadable text holds 0. */
  lemma UnreadableNumberIsZero(form: ProductForm)
    ensures FormChange(form, PriceField, "abc").price == 0.0
    ensures FormChange(form, StockField, "").stock == 0.0
  {
    assert TrimStart("abc") == "abc";
    assert DigitPrefix("abc") == "";
    assert TrimStart("") == "";
  }

  // ---------------------------------------------------------------------------
  // Submit

  /** `dataToSend`: the fields the products table has. */
  datatype ProductPayload = ProductPayload(name: string, price: real, cost: real, stock: real, sku: string)

  function PayloadOf(form: ProductForm): (r: ProductPayload)
    ensures r.name == form.name && r.price == form.price && r.cost == form.cost
    ensures r.stock == form.stock && r.sku == form.sku
  {
    ProductPayload(form.name, form.price, form.cost, form.stock, form.sku)
  }

  /** Category and image never reach the server: two forms that differ only there send
      the same payload. */
  lemma PayloadDropsCategoryAndImage(form: ProductForm, category: string, image: string)
    ensures PayloadOf(form.(category := category, image := image)) == PayloadOf(form)
  {
  }

  const InvalidMessage := "Please fill out all required fields correctly."

  /** The submit check: a non-blank name, a positive price and a stock that is not
      negative; category is not required. */
  function Validate(p: ProductPayload): (r: Option<string>)
    ensures r.None? <==> !Blank(p.name) && p.price > 0.0 && p.stock >= 0.0
    ensures r.Some? ==> r.value == InvalidMessage
  {
    if Blank(p.name) || p.price <= 0.0 || p.stock < 0.0 then Some(InvalidMessage) else None
  }

  /** A form with no category passes the check when name, price and stock do. */
  lemma CategoryNotRequired(form: ProductForm)
    requires !Blank(form.name) && form.price > 0.0 && form.stock >= 0.0
    ensures Validate(PayloadOf(form.(category := ""))).None?
  {
  }

  datatype FormMode = AddMode | EditMode

  /** What a submit does: refuse with the message, add a product, update the product
      being edited, or (editing with no product chosen) only close the form. */
  datatype SubmitOutcome = Refused(message: string) | AddProduct(payload: ProductPayload)
                         | UpdateProduct(id: int, payload: ProductPayload) | Closed

  function Submit(form: ProductForm, mode: FormMode, current: Option<Product>): (r: SubmitOutcome)
    ensures Validate(PayloadOf(form)).Some? ==> r == Refused(InvalidMessage)
    ensures Validate(PayloadOf(form)).None? && mode == AddMode ==> r == AddProduct(PayloadOf(form))
    ensures Validate(PayloadOf(form)).None? && mode == EditMode && current.Some? ==>
              r == UpdateProduct(current.value.id, PayloadOf(form))
    ensures Validate(PayloadOf(form)).None? && mode == EditMode && current.None? ==> r == Closed
  {
    var payload := PayloadOf(form);
    match Validate(payload)
    case Some(m) => Refused(m)
    case None =>
      if mode == AddMode then AddProduct(payload)
      else if current.Some? then UpdateProduct(current.value.id, payload)
      else Closed
  }

  // ---------------------------------------------------------------------------
  // Page state

  class LegacyProductsPage {
    var sort: SortState<SortField>
    var form: ProductForm
    var mode: FormMode
    var current: Option<Product>

    constructor ()
      ensures sort == SortState(ByName, Asc) && form == EmptyForm && mode == AddMode && current.None?
    {
      sort := SortState(ByName, Asc);
      form := EmptyForm;
      mode := AddMode;
      current := None;
    }

    /** `handleSort(field)`: the current field flips direction, a new one starts
        ascending. */
    method HandleSort(field: SortField)
      modifies this`sort
      ensures sort == Toggle(old(sort), field, Asc)
    {
      if sort.field == field {
        sort := sort.(direction := Flip(sort.direction));
      } else {
        sort := SortState(field, Asc);
      }
    }

    /** `handleAddProduct()` */
    method HandleAddProduct()
      modifies this`form, this`mode, this`current
      ensures form == EmptyForm && mode == AddMode && current.None?
    {
      mode := AddMode;
      current := None;
      form := EmptyForm;
    }

    /** `handleEditProduct(product)` */
    method HandleEditProduct(product: Product)
      modifies this`form, this`mode, this`current
      ensures form == EditForm(product) && mode == EditMode && current == Some(product)
    {
      mode := EditMode;
      current := Some(product);
      form := EditForm(product);
    }

    /** `handleFormChange(e)` */
    method HandleFormChange(field: FormField, value: string)
      modifies this`form
      ensures form == FormChange(old(form), field, value)
    {
      form := FormChange(form, field, value);
    }
  }
}
