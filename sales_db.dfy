/** The tables of the MySQL backend that the checkout and purchase routes write, one
    field per table. Only the columns those routes read or write are kept. */
module SalesDb {
  import opened Js

  /** A `products` row: name, sale price, cost price and units in stock. */
  datatype Product = Product(name: string, price: real, costPrice: real, stock: int)

  /** A `product_ingredients` row of one product: the raw material and the amount of it
      that one unit of the product consumes. */
  datatype Ingredient = Ingredient(rawMaterialId: int, amount: real)

  /** A `transactions` row written by checkout (its NOW() date is not modelled). */
  datatype TransactionRow = TransactionRow(
    id: int, subtotal: real, discount: real, tax: real, total: real, profit: real,
    paymentMethod: string, cashierName: string,
    customerName: Option<string>, notes: Option<string>)

  /** A `transaction_items` row: a snapshot of the product at the time of sale. */
  datatype TransactionItemRow = TransactionItemRow(
    transactionId: int, productId: int, productName: string, quantity: int,
    unitPrice: real, costPrice: real, totalPrice: real, profit: real)

  /** A `purchases` row; every column holds what the request carried, `None` being SQL
      NULL. */
  datatype PurchaseRow = PurchaseRow(
    id: int, date: Option<Value>, supplier: Option<Value>,
    totalAmount: Option<Value>, notes: Option<Value>)

  /** A `purchase_items` row, columns as sent. */
  datatype PurchaseItemRow = PurchaseItemRow(
    purchaseId: int, rawMaterialId: Option<Value>, quantity: Option<Value>,
    unitCost: Option<Value>, total: Option<Value>)

  class Store {
    /** `products` by id */
    var products: map<int, Product>
    /** `raw_materials.stock` by id */
    var rawStock: map<int, real>
    /** `product_ingredients` grouped by product id, in row order */
    var recipes: map<int, seq<Ingredient>>
    var transactions: seq<TransactionRow>
    var transactionItems: seq<TransactionItemRow>
    var purchases: seq<PurchaseRow>
    var purchaseItems: seq<PurchaseItemRow>
    /** The AUTO_INCREMENT counters that `insertId` reports. */
    var nextTransactionId: int
    var nextPurchaseId: int

    constructor (products: map<int, Product>, rawStock: map<int, real>,
                 recipes: map<int, seq<Ingredient>>)
      ensures this.products == products && this.rawStock == rawStock
      ensures this.recipes == recipes
      ensures transactions == [] && transactionItems == []
      ensures purchases == [] && purchaseItems == []
      ensures nextTransactionId == 1 && nextPurchaseId == 1
    {
      this.products := products;
      this.rawStock := rawStock;
      this.recipes := recipes;
      transactions := [];
      transactionItems := [];
      purchases := [];
      purchaseItems := [];
      nextTransactionId := 1;
      nextPurchaseId := 1;
    }
  }
}
