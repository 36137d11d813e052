# Brew Manager / TokoKami point of sale — a verified model

This project models, in Dafny, the business logic of a café point-of-sale and
inventory application. The application has two generations: the current one
(`Backend/`, `Frontend/`) and the older TokoKami one (`TokoKami/`). Each core source
file becomes one module. The model keeps what the code computes and what it changes,
and leaves out rendering, HTTP and SQL plumbing.

- **Checkout engine** (`Transactions`, over the tables of `SalesDb`). This is the
  `/checkout` route: validation, a stock check per line against stock that earlier
  lines have already decremented, subtotal and profit accumulation, and product and
  ingredient decrements. It then snapshots the line items and either commits or
  rolls back to exactly the state it started from.
  The route never checks that a line's quantity is positive. The model follows the
  code, so a negative quantity adds stock (`Transactions.NegativeQuantityRestocks`).
- **Purchase receiving** (`PurchaseRoute`): one header, one row per item, and an
  additive raw-material restock, all or nothing.
- **Older server** (`LegacyServer`): the unchecked sale handler, the trend format
  switch and the inventory and financial details.
- **Page state** (`Pos`, `LegacyPos`, `ProductsPage`, `LegacyProductsPage`,
  `PurchasesPage`, `RawMaterialsPage`): each React page is a class whose fields are its
  state hooks. Its handlers are methods that update those fields: the cart, the
  recipe cost roll-up, the purchase lines with their running total, the sort toggles,
  the form validators and the payloads.
- **Client stores** (`ProductContext`, `InventoryContext`, `TransactionContext`,
  `Auth`): record mapping to and from the server, stock updates, the update merge, and
  the token storage rules.
- **Request helper, permissions and route guard** (`Api`, `Permissions`,
  `ProtectedRoute`).
- **Reports and overview** (`Reports`, `Dashboard`, `LegacyDashboardData`,
  `Settings`): per-product tallies, top-N lists, sales per day, inventory value,
  financials, percentage change, low-stock lists and avatar initials.

Three modules are shared helpers:

- `Js` gives the JavaScript value semantics the code relies on: `??`, `||`,
  truthiness, `Number`, `parseFloat`/`parseInt`, `String` of a number, `trim`, case
  mapping and `includes`.
- `Dict` models an object used as a dictionary.
- `Sorting` models comparator sorts, `filter`, `slice` and the header-click toggle.

Quantities are integers, and money and ingredient amounts are reals. Dates are
abstract: a transaction's date is read through a function passed in as a parameter.

## Model

| member | source | states |
|---|---|---|
| Transactions.OrNull | Backend/routes/transactions.js:81 | `customer_name \|\| null`: a missing or empty text is stored as NULL, any other text as itself |
| Transactions.Validate | Backend/routes/transactions.js:32-37 | the request passes exactly when it has a non-empty item list and a non-empty payment method and cashier name; otherwise the first failing check's 400 message |
| Transactions.ItemRows | Backend/routes/transactions.js:86-101 | one `transaction_items` row per cart line |
| Transactions.ConsumeIngredients | Backend/routes/transactions.js:68-74 | the ingredient loop leaves raw stock as the recipe consumption of one line dictates |
| Transactions.PostCart | Backend/routes/transactions.js:41-75 | the first loop fails exactly when the line-by-line posting fails, with the same error; on success products, raw stock, subtotal and profit are the posting's |
| Transactions.Checkout | Backend/routes/transactions.js:17-117 | a 400 or a failed line leaves every table unchanged; success updates products and raw stock as posted, appends one transaction row and one item row per line, and returns the new id |
| Transactions.LineCheckShift | Backend/routes/transactions.js:45-61 | checking the later lines after posting the first equals checking them against the original stock and the whole cart |
| Transactions.PostLinesOutcome | Backend/routes/transactions.js:45-56 | posting succeeds iff every line fits the stock the earlier lines leave; a failure reports the first line that does not fit (unknown product, or product, stock available and quantity asked) |
| Transactions.PostedKeepsCatalog | Backend/routes/transactions.js:61 | after a successful posting every product's stock has fallen by exactly the units the cart asks for, and nothing else about any product changed |
| Transactions.ConsumeAllEffect | Backend/routes/transactions.js:68-74 | one line takes amount × quantity of each ingredient's material, summed over the recipe, from the materials that exist |
| Transactions.PostedConsumesRecipes | Backend/routes/transactions.js:63-74 | after a successful posting each raw material has fallen by exactly what the cart's recipes consume, with no floor at zero |
| Transactions.ValuesIgnoreStock | Backend/routes/transactions.js:58-59 | the sale's value and profit depend on prices and costs only, not on stock |
| Transactions.PostedTotals | Backend/routes/transactions.js:41-59 | subtotal = Σ price × quantity and profit = Σ (price − cost) × quantity at the prices before the sale |
| Transactions.ItemRowsAddUp | Backend/routes/transactions.js:86-101 | the item rows' totals sum to the subtotal and their profits to the profit |
| Transactions.CommittedSale | Backend/routes/transactions.js:77-101 | the recorded total is subtotal − discount + tax, and the item rows add up to the recorded subtotal and profit |
| Transactions.TwoCupsOfCoffee | Backend/routes/transactions.js:45-77 | a worked checkout: stock 50 → 48, a material 100 → 80, subtotal 50000, profit 20000 |
| Transactions.RepeatedLineSeesEarlierLines | Backend/routes/transactions.js:54-61 | two lines of one product are checked cumulatively: the second finds only what the first left |
| Transactions.RawStockMayGoNegative | Backend/routes/transactions.js:68-74 | no check guards raw stock: it may go below zero |
| Transactions.NegativeQuantityRestocks | Backend/routes/transactions.js:54-61 | no check guards the quantity: a negative quantity passes and raises stock |
| PurchaseRoute.ReadItemWith | Backend/routes/purchases.js:36 | an item's fields are read under the given key names; a non-object item reads as all `undefined` |
| PurchaseRoute.ReadItemsWith | Backend/routes/purchases.js:33-37 | the loop can walk `items` exactly when it is a text or an array with no `null` entry: an array gives one item per entry in order, a text one item with every field missing per character |
| PurchaseRoute.SqlId | Backend/routes/purchases.js:39-42 | the id a `WHERE id = ?` parameter matches under MySQL's numeric comparison: an integral number, a boolean as 1 or 0, or a text that reads in full as an integral number (`"12"`, `" 12"`, `"12.0"`); NULL and fractional values match no row |
| PurchaseRoute.SqlAmount | Backend/routes/purchases.js:39-42 | the amount `stock + ?` adds: a number, a boolean as 1 or 0, or a wholly numeric text; NULL (a missing or `null` quantity), arrays and objects are refused |
| PurchaseRoute.SqlIdOfDecimalText | Backend/routes/purchases.js:39-42 | the decimal text of an id matches that id |
| PurchaseRoute.Receive | Backend/routes/purchases.js:39-42 | one restock fails exactly when it matches a material and its amount is refused (`stock + NULL`); otherwise it creates or removes no material |
| PurchaseRoute.ReceiveAll | Backend/routes/purchases.js:33-43 | the restock loop, when it succeeds, creates or removes no material |
| PurchaseRoute.RecordPurchase | Backend/routes/purchases.js:21-53 | a body whose items cannot be walked, a refused INSERT or UPDATE, or a refused stock amount rolls every table back and answers 500 (the id counter still advances); otherwise one header row as sent, one item row per item, and raw stock restocked |
| PurchaseRoute.ReceiveAllExact | Backend/routes/purchases.js:39-42 | the restock fails iff some item matching a material carries a refused amount; otherwise each raw material rises by exactly the quantities delivered to it |
| PurchaseRoute.MissingQuantityFailsPurchase | Backend/routes/purchases.js:39-49 | material 1 at stock 10 and `items: [{rawMaterialId: 1}]`: the purchase does not commit |
| PurchaseRoute.UnmatchedItemsReceiveNothing | Backend/routes/purchases.js:39-42 | items naming no matchable material leave raw stock unchanged |
| PurchaseRoute.NothingReceived | Backend/routes/purchases.js:39-42 | such items deliver nothing to any material |
| PurchaseRoute.TextItemsCommit | Backend/routes/purchases.js:33-46 | a text `items` gives one item per character, none of which matches a raw material, so the purchase commits with stock unchanged (`items: ""` records the header alone) |
| PurchaseRoute.HeaderTotalIsNotChecked | Backend/routes/purchases.js:24-30 | the header total is stored as the client sent it, unrelated to the items |
| LegacyServer.Store.constructor | TokoKami/Backend/server.js:31-75 | a fresh database holds the given products and users, no sales, and starts the id sequence at 1 |
| LegacyServer.PgInt | TokoKami/Backend/migrate.js:59-65 | an INT parameter accepts an integral number as itself and otherwise only a text; anything else is refused |
| LegacyServer.PgNumeric | TokoKami/Backend/migrate.js:48-54 | a NUMERIC parameter accepts a number as itself and otherwise only a text |
| LegacyServer.Header | TokoKami/Backend/server.js:43-48 | a stored header has the sequence id, type 'sale', a cashier who is a user, a method of `payment_method_type`, and the client's total as NUMERIC reads it |
| LegacyServer.ParseItem | TokoKami/Backend/migrate.js:59-65 | an item row can only be inserted for a product that exists |
| LegacyServer.InsertItems | TokoKami/Backend/server.js:51-63 | the item loop succeeds iff every item parses, and then writes the item rows and stock updates the parse-then-sell reading gives |
| LegacyServer.RecordSale | TokoKami/Backend/server.js:31-75 | an incomplete body gives 400 and a refused header or item gives 500, both with the database unchanged; otherwise 201 with the new id, one header row, one item row per item, each product's stock decremented, and the sequence advanced |
| LegacyServer.InsertSale | TokoKami/Backend/server.js:37-75 | a refused header or item rolls back to the state before BEGIN; otherwise the header and one row per item are written, each product's stock is decremented, and the sequence advances |
| LegacyServer.ParseAll | TokoKami/Backend/server.js:51-56 | all items parse iff each does, giving one line per item in order |
| LegacyServer.PostItemsStep | TokoKami/Backend/server.js:51-62 | one turn of the item loop: a refused item stops it, otherwise its row is written and its product's stock decremented |
| LegacyServer.RowsOf | TokoKami/Backend/server.js:53-56 | one item row per line |
| LegacyServer.ParseAllKeysOnly | TokoKami/Backend/server.js:53-56 | whether an item parses depends only on which products exist, so earlier stock updates never change it |
| LegacyServer.PostItemsParsesThenSells | TokoKami/Backend/server.js:51-63 | the interleaved insert-and-update loop equals parsing every item first and then applying every update |
| LegacyServer.SellAllExact | TokoKami/Backend/server.js:59-62 | each product's stock falls by exactly the units sold and nothing else changes, with no floor at zero |
| LegacyServer.StoredTotalIsClientTotal | TokoKami/Backend/server.js:44-47 | the stored total is the client's `totalAmount`, never recomputed from the items |
| LegacyServer.ZeroTotalIsRefused | TokoKami/Backend/server.js:33-35 | a total of 0 is falsy, so the sale is refused with 400 |
| LegacyServer.StockMayGoNegative | TokoKami/Backend/server.js:59-62 | selling 5 of a product with 2 in stock is accepted and leaves −3 |
| LegacyServer.TrendFormat | TokoKami/Backend/server.js:110-123 | 'YYYY-MM' exactly for the range 'year'; 'YYYY-MM-DD' for every other range and for a missing one |
| LegacyServer.ReportDetails | TokoKami/Backend/server.js:185-202 | revenue and expenses are the parsed sums or 0, profit their difference, one stock level per row with `isLow` iff stock < 10, the inventory value Σ stock × cost, and the low count the number of low rows |
| LegacyServer.LowLevelsCounted | TokoKami/Backend/server.js:202 | filtering the levels on `isLow` counts exactly the rows under the threshold |
| Pos.FilterProducts | Frontend/src/pages/POS.tsx:48-52 | a product is shown iff its name contains the search text, ignoring case, and its category is the selected one (none selected or 'All' admits every category) |
| Pos.EmptyFilterShowsAll | Frontend/src/pages/POS.tsx:48-52 | with no search text and no category selected every product is shown, in order |
| Pos.Bump | Frontend/src/pages/POS.tsx:57 | only the entries of the given product change, by the added quantity; order and products are kept |
| Pos.AddToCart | Frontend/src/pages/POS.tsx:54-60 | a product already in the cart has its quantity raised in place; a new one is appended with the given quantity |
| Pos.SetQuantity | Frontend/src/pages/POS.tsx:65 | the given product's quantity becomes `max(0, quantity)`; every other entry is unchanged |
| Pos.FilterKeepsUnique | Frontend/src/pages/POS.tsx:62-65 | dropping entries never lists a product twice |
| Pos.AddToCartKeepsUnique | Frontend/src/pages/POS.tsx:54-60 | adding keeps each product on at most one cart line |
| Pos.RemoveFromCartKeepsUnique | Frontend/src/pages/POS.tsx:62 | removing keeps each product on at most one cart line |
| Pos.UpdateQuantityKeepsUnique | Frontend/src/pages/POS.tsx:64-66 | updating a quantity keeps each product on at most one cart line |
| Pos.RemoveFromCartEffect | Frontend/src/pages/POS.tsx:62 | the product is gone, every other line stays, and removal works line by line |
| Pos.UpdateQuantityEffect | Frontend/src/pages/POS.tsx:64-66 | every remaining line has a positive quantity, the product's line has the new quantity, and it stays iff it was there and the quantity is positive; other positive lines stay |
| Pos.CartSubtotalAppend | Frontend/src/pages/POS.tsx:68 | the subtotal of two carts put together is the sum of their subtotals |
| Pos.BumpSubtotal | Frontend/src/pages/POS.tsx:57-68 | raising a product's quantity by q raises the subtotal by its price × q |
| Pos.AddToCartSubtotal | Frontend/src/pages/POS.tsx:54-68 | adding q of a product raises the subtotal by q × its price, the cart's price when it is already there |
| Pos.CalculateChange | Frontend/src/pages/POS.tsx:75-80 | the change is never negative; it is positive iff cash was typed and reads above the amount due, and then cash = due + change |
| Pos.NonEmpty | Frontend/src/pages/POS.tsx:104-105 | `x \|\| undefined`: an empty text is left out, any other is sent as itself |
| Pos.Payload | Frontend/src/pages/POS.tsx:89-106 | one item per cart line with its id, quantity, unit price and line total; subtotal is the cart's, total = subtotal + tax − discount; the cashier is the user's name, or a non-empty fallback |
| Pos.PayloadItemsAddUp | Frontend/src/pages/POS.tsx:89-101 | the items' line totals add up to the payload's subtotal |
| Pos.MaxId | Frontend/src/pages/POS.tsx:113 | the largest of the transactions' numeric ids, attained by one of them |
| Pos.PredictedIdIsFresh | Frontend/src/pages/POS.tsx:110-115 | over transactions with decimal ids the predicted receipt number exceeds every one of them |
| Pos.ReceiptIdAsWritten | Frontend/src/pages/POS.tsx:131 | the receipt shows the result's `id` when truthy, otherwise the predicted number |
| Pos.ReceiptIgnoresAssignedId | Frontend/src/pages/POS.tsx:131 | the checkout answer carries `transactionId`, not `id`, so the receipt always shows the predicted number |
| Pos.ReceiptId | Frontend/src/pages/POS.tsx:131 | the corrected receipt number: the server's `transactionId` when given, the prediction only without an answer |
| Pos.ReceiptShowsAssignedId | Frontend/src/pages/POS.tsx:131 | with the correction the receipt shows the id the server assigned |
| Pos.PosPage.constructor | Frontend/src/pages/POS.tsx:27-43 | the page starts with an empty cart, zero discount and tax, cash payment, empty fields and both dialogs closed |
| Pos.PosPage.ResetForm | Frontend/src/pages/POS.tsx:140-141 | the cart and the checkout form return to their initial values |
| Pos.PosPage.HandleCheckout | Frontend/src/pages/POS.tsx:83-150 | an empty cart changes nothing; otherwise the payload is sent; a failure changes nothing else (cart, form, both modals and the receipt stay); success empties the cart, resets the form, closes checkout, opens the receipt and records it with its id and date |
| LegacyPos.FilterProducts | TokoKami/Frontend/src/pages/POS.tsx:45-50 | the newer page's filter rule, over products whose category may be missing |
| LegacyPos.UncategorisedHiddenUnderCategory | TokoKami/Frontend/src/pages/POS.tsx:48 | under a chosen category other than 'All' only products of exactly that category show |
| LegacyPos.UnreadableCashIsNotRefused | TokoKami/Frontend/src/pages/POS.tsx:68 | an empty or non-numeric cash amount reads as NaN and passes the cash check whatever is due |
| LegacyPos.CalculateChange | TokoKami/Frontend/src/pages/POS.tsx:114-119 | the change is never negative; it is positive iff the cash reads as a number above the amount due, and then cash = due + change |
| LegacyPos.ChangeAgreesWithNewerPage | TokoKami/Frontend/src/pages/POS.tsx:114-119 | for a readable, non-zero cash amount both pages give the same change |
| LegacyPos.ChangeDiffersOnUnreadableCash | TokoKami/Frontend/src/pages/POS.tsx:116 | unreadable cash gives no change here but is read as 0 by the newer page |
| LegacyPos.MakePayload | TokoKami/Frontend/src/pages/POS.tsx:77-86 | the cashier is the user's id or 1, the total is the amount due, and an empty customer name is left out |
| LegacyPos.LegacyPosPage.constructor | TokoKami/Frontend/src/pages/POS.tsx:30-39 | the page starts with zero discount and tax, cash payment, empty fields and both dialogs closed |
| LegacyPos.LegacyPosPage.ResetCheckoutForm | TokoKami/Frontend/src/pages/POS.tsx:105-112 | the checkout form returns to its initial values |
| LegacyPos.LegacyPosPage.HandleCheckout | TokoKami/Frontend/src/pages/POS.tsx:59-103 | an empty cart or short cash changes nothing; otherwise the payload is sent; a failure changes nothing else (form, both modals and the transaction stay); success records the transaction, closes checkout, opens the receipt and resets the form |
| ProductsPage.SortedProducts | Frontend/src/pages/Products.tsx:67-82 | the list is a permutation of the products the search and category admit, ordered by the chosen field, reversed for 'desc' |
| ProductsPage.SortedProductsMatch | Frontend/src/pages/Products.tsx:69-73 | a product is listed iff it exists and matches the search and the category |
| ProductsPage.FormChange | Frontend/src/pages/Products.tsx:118-124 | price, cost price and stock take the typed number, or 0 when it does not read as one; the other fields take the text as typed; no other field changes |
| ProductsPage.ChangeIngredient | Frontend/src/pages/Products.tsx:146-149 | an amount becomes `Number(value) \|\| 0`, a material id `String(value)`; the other field is kept |
| ProductsPage.FindMaterial | Frontend/src/pages/Products.tsx:157 | the first raw material whose id reads as the same text, or none iff no material has it |
| ProductsPage.RecipeCostAppend | Frontend/src/pages/Products.tsx:156-160 | the recipe cost of two ingredient lists together is the sum of their costs |
| ProductsPage.RemoveAtCost | Frontend/src/pages/Products.tsx:136-160 | removing an ingredient lowers the recipe cost by exactly that ingredient's cost |
| ProductsPage.UnknownMaterialsCostNothing | Frontend/src/pages/Products.tsx:157-159 | ingredients whose material is unknown contribute 0 |
| ProductsPage.Round2 | Frontend/src/pages/Products.tsx:162 | `Number(x.toFixed(2))` lies within half a cent of x |
| ProductsPage.RollUp | Frontend/src/pages/Products.tsx:155-163 | the cost price becomes the recipe cost rounded to cents when that cost is positive; otherwise the form is untouched |
| ProductsPage.RollUpKeepsManualCost | Frontend/src/pages/Products.tsx:162 | a recipe of unknown materials leaves a typed cost price in place |
| ProductsPage.Validate | Frontend/src/pages/Products.tsx:169-172 | the form passes iff the name and category are not blank, price > 0 and stock ≥ 0; otherwise the first failing check's message, in the page's order |
| ProductsPage.EditForm | Frontend/src/pages/Products.tsx:95-103 | the edit form carries the product's name, figures, category and recipe, and its image or '' when it has none |
| ProductsPage.Submit | Frontend/src/pages/Products.tsx:165-187 | an invalid form is refused with its message; a valid one is added in add mode, updates the edited product in edit mode, or only closes the form when no product is being edited |
| ProductsPage.ComputeStats | Frontend/src/pages/Products.tsx:190-193 | low stock counts stock ≤ 5, out of stock counts stock = 0 (so never more than low stock), and potential revenue is Σ price × stock |
| ProductsPage.PotentialRevenueNonNegative | Frontend/src/pages/Products.tsx:193 | non-negative prices and stock give a non-negative potential revenue |
| ProductsPage.ProductsPage.constructor | Frontend/src/pages/Products.tsx:35-53 | the page starts sorted by name ascending, with an empty form in add mode |
| ProductsPage.ProductsPage.HandleAddProduct | Frontend/src/pages/Products.tsx:85-90 | an empty form in add mode with no product chosen |
| ProductsPage.ProductsPage.HandleEditProduct | Frontend/src/pages/Products.tsx:92-105 | the product's form (its image included) in edit mode, that product chosen |
| ProductsPage.ProductsPage.HandleFormChange | Frontend/src/pages/Products.tsx:118-124 | the form changes as FormChange says |
| ProductsPage.ProductsPage.HandleSort | Frontend/src/pages/Products.tsx:58-65 | the current field flips direction; another field becomes current, ascending |
| ProductsPage.ProductsPage.HandleAddIngredient | Frontend/src/pages/Products.tsx:127-134 | the first raw material is appended with amount 1; with no material (or a falsy id) the form is unchanged and an error is reported |
| ProductsPage.ProductsPage.HandleRemoveIngredient | Frontend/src/pages/Products.tsx:136-141 | only the ingredient at the index is removed |
| ProductsPage.ProductsPage.HandleIngredientChange | Frontend/src/pages/Products.tsx:143-152 | only the entry at the index changes, as ChangeIngredient says; the rest of the form is kept |
| ProductsPage.ProductsPage.RollUpCost | Frontend/src/pages/Products.tsx:155-163 | the form becomes its roll-up |
| LegacyProductsPage.CategoryLabel | TokoKami/Frontend/src/pages/Products.tsx:66 | a product's own non-empty category, otherwise 'Uncategorized'; never empty |
| LegacyProductsPage.Labels | TokoKami/Frontend/src/pages/Products.tsx:66 | one label per product, in order |
| LegacyProductsPage.Categories | TokoKami/Frontend/src/pages/Products.tsx:66 | 'All' first, then each product label exactly once and nothing else |
| LegacyProductsPage.UncategorizedOptionHidesUncategorised | TokoKami/Frontend/src/pages/Products.tsx:66-83 | choosing the offered 'Uncategorized' option never shows a product that has no category |
| LegacyProductsPage.SortedProducts | TokoKami/Frontend/src/pages/Products.tsx:78-102 | a permutation of the matching products ordered by name, price or stock, reversed for 'desc' |
| LegacyProductsPage.SortedProductsMatch | TokoKami/Frontend/src/pages/Products.tsx:80-85 | a product is listed iff it exists and matches the search and the category |
| LegacyProductsPage.EditForm | TokoKami/Frontend/src/pages/Products.tsx:123-133 | the edit form carries the product's figures and sku, and its category or '' |
| LegacyProductsPage.FormChange | TokoKami/Frontend/src/pages/Products.tsx:149-157 | price, cost and stock take the typed number or 0; the other fields the text as typed |
| LegacyProductsPage.UnreadableNumberIsZero | TokoKami/Frontend/src/pages/Products.tsx:154 | a non-numeric price and an empty stock both become 0 |
| LegacyProductsPage.PayloadOf | TokoKami/Frontend/src/pages/Products.tsx:170-178 | the payload carries exactly the form's name, price, cost, stock and sku |
| LegacyProductsPage.PayloadDropsCategoryAndImage | TokoKami/Frontend/src/pages/Products.tsx:170-178 | category and image never reach the payload |
| LegacyProductsPage.Validate | TokoKami/Frontend/src/pages/Products.tsx:181-183 | the payload passes iff the name is not blank, price > 0 and stock ≥ 0; otherwise one fixed message |
| LegacyProductsPage.CategoryNotRequired | TokoKami/Frontend/src/pages/Products.tsx:181 | a form with no category still passes |
| LegacyProductsPage.Submit | TokoKami/Frontend/src/pages/Products.tsx:164-205 | an invalid payload is refused; a valid one is added, updates the edited product, or only closes the form |
| LegacyProductsPage.LegacyProductsPage.constructor | TokoKami/Frontend/src/pages/Products.tsx:42-63 | the page starts sorted by name ascending, with an empty form in add mode |
| LegacyProductsPage.LegacyProductsPage.HandleSort | TokoKami/Frontend/src/pages/Products.tsx:68-75 | the current field flips direction; another field becomes current, ascending |
| LegacyProductsPage.LegacyProductsPage.HandleAddProduct | TokoKami/Frontend/src/pages/Products.tsx:104-118 | an empty form in add mode with no product chosen |
| LegacyProductsPage.LegacyProductsPage.HandleEditProduct | TokoKami/Frontend/src/pages/Products.tsx:120-135 | the product's form in edit mode, that product chosen |
| LegacyProductsPage.LegacyProductsPage.HandleFormChange | TokoKami/Frontend/src/pages/Products.tsx:149-157 | the form changes as FormChange says |
| PurchasesPage.LoadItem | Frontend/src/pages/Purchases.tsx:59-64 | the material id is the first present of `raw_material_id`, `rawMaterialId`, `id`; the quantity is `quantity` as a number, else 0; a present `total` is read as a number |
| PurchasesPage.LoadItemMissingTotal | Frontend/src/pages/Purchases.tsx:63 | without a stored total the line total is quantity × unit cost |
| PurchasesPage.LoadItemCostOnly | Frontend/src/pages/Purchases.tsx:62-63 | a line with only `cost` gets that unit cost but a total of 0, since the total's fallback does not read `cost` |
| PurchasesPage.StoredTotalListedAsZero | Frontend/src/pages/Purchases.tsx:66 | the server's `total_amount` column is never read, so every stored purchase is listed with total 0 |
| PurchasesPage.LoadShowsStoredTotal | Frontend/src/pages/Purchases.tsx:66 | the corrected mapping lists the stored `total_amount` |
| PurchasesPage.LoadPurchase | Frontend/src/pages/Purchases.tsx:55-68 | a `null` row makes the mapping throw; a mapped row keeps its id and carries the loaded total |
| PurchasesPage.LoadPurchases | Frontend/src/pages/Purchases.tsx:54-68 | missing data gives an empty list; otherwise one purchase per row of the array |
| PurchasesPage.Suppliers | Frontend/src/pages/Purchases.tsx:79 | 'All' first, then each non-empty supplier once and nothing else |
| PurchasesPage.SortedPurchases | Frontend/src/pages/Purchases.tsx:231-254 | a permutation of the matching purchases ordered by date, supplier or total, reversed for 'desc' |
| PurchasesPage.SortedPurchasesMatch | Frontend/src/pages/Purchases.tsx:233-237 | a purchase is listed iff it exists and its supplier contains the search and equals the chosen supplier |
| PurchasesPage.SumTotalsAppend | Frontend/src/pages/Purchases.tsx:112-149 | the lines' total of two lists together is the sum of their totals |
| PurchasesPage.RemoveItemTotal | Frontend/src/pages/Purchases.tsx:109-118 | removing a line lowers the purchase total by that line's total |
| PurchasesPage.ReplaceItemTotal | Frontend/src/pages/Purchases.tsx:146-149 | replacing a line moves the purchase total by the difference of the two line totals |
| PurchasesPage.ChangeItem | Frontend/src/pages/Purchases.tsx:122-144 | a material change keeps the figures; a quantity or unit cost change takes the typed number (or 0) and recomputes the line total as quantity × unit cost |
| PurchasesPage.ItemsError | Frontend/src/pages/Purchases.tsx:170-173 | no error iff every line has quantity > 0 and unit cost > 0; the message names a failing check of some line |
| PurchasesPage.Validate | Frontend/src/pages/Purchases.tsx:168-173 | the form passes iff the supplier is not blank, there is a line, and every line has positive quantity and unit cost; the supplier check comes first, then the empty list |
| PurchasesPage.FormChange | Frontend/src/pages/Purchases.tsx:92-95 | only the typed text field changes; lines and total are kept |
| PurchasesPage.ItemPayload | Frontend/src/pages/Purchases.tsx:179-184 | each line is sent under `raw_material_id`, `quantity`, `unit_cost`, `total`, never under the camel-case names |
| PurchasesPage.Payload | Frontend/src/pages/Purchases.tsx:176-188 | the total is sent as `totalAmount`, not `total_amount`; one item per line; notes only when not empty |
| PurchasesPage.DeliveredAll | Frontend/src/pages/Purchases.tsx:179-184 | one delivered item per line, in order |
| PurchasesPage.ReceivedOrdered | Frontend/src/pages/Purchases.tsx:179-184 | what the delivered items add to a material is what the lines order of it |
| PurchasesPage.SubmissionAsWrittenRestocksNothing | Frontend/src/pages/Purchases.tsx:176-188 | read by the server's field names the header total is missing and the items name no material, so the purchase restocks nothing |
| PurchasesPage.SubmissionRestocksOrdered | Frontend/src/pages/Purchases.tsx:176-188 | with matching field names every material rises by exactly what the form ordered of it |
| PurchasesPage.PurchasesPage.constructor | Frontend/src/pages/Purchases.tsx:31-48 | an empty list sorted by date descending and an empty form dated today, whose total agrees with its lines |
| PurchasesPage.PurchasesPage.Load | Frontend/src/pages/Purchases.tsx:50-77 | the list becomes the mapped rows, or is kept when the mapping throws |
| PurchasesPage.PurchasesPage.HandleSort | Frontend/src/pages/Purchases.tsx:222-229 | the current field flips direction; another field becomes current, descending |
| PurchasesPage.PurchasesPage.HandleAddPurchase | Frontend/src/pages/Purchases.tsx:81-90 | an empty form dated today |
| PurchasesPage.PurchasesPage.HandleFormChange | Frontend/src/pages/Purchases.tsx:92-95 | the form changes as FormChange says and its total still agrees with its lines |
| PurchasesPage.PurchasesPage.HandleAddItem | Frontend/src/pages/Purchases.tsx:97-107 | a line for the first material (or '') with quantity 1 and cost 0 is appended; the total still agrees with the lines |
| PurchasesPage.PurchasesPage.HandleRemoveItem | Frontend/src/pages/Purchases.tsx:109-119 | only the line at the index is removed and the total falls by its line total |
| PurchasesPage.PurchasesPage.HandleItemChange | Frontend/src/pages/Purchases.tsx:122-158 | only the line at the index changes, as ChangeItem says, and the total moves by the change of its line total |
| PurchasesPage.PurchasesPage.HandleSubmit | Frontend/src/pages/Purchases.tsx:163-219 | an invalid form is refused with its message and nothing is sent; a valid one sends its payload |
| RawMaterialsPage.Suppliers | Frontend/src/pages/RawMaterials.tsx:51 | 'All' first, then exactly the materials' suppliers, each once |
| RawMaterialsPage.SortedMaterials | Frontend/src/pages/RawMaterials.tsx:64-79 | a permutation of the matching materials ordered by name, stock, unit cost or supplier, reversed for 'desc' |
| RawMaterialsPage.SortedMaterialsMatch | Frontend/src/pages/RawMaterials.tsx:66-70 | a material is listed iff it exists and matches the search and the supplier |
| RawMaterialsPage.EditForm | Frontend/src/pages/RawMaterials.tsx:92-98 | the edit form carries the material's name, unit, stock, unit cost and supplier |
| RawMaterialsPage.FormChange | Frontend/src/pages/RawMaterials.tsx:114-120 | stock and unit cost take the typed number or 0; the other fields the text as typed |
| RawMaterialsPage.Validate | Frontend/src/pages/RawMaterials.tsx:127-131 | the form passes iff name, unit and supplier are not blank, stock ≥ 0 and unit cost > 0; otherwise the first failing check's message, in the page's order |
| RawMaterialsPage.UnreadableUnitCostRefused | Frontend/src/pages/RawMaterials.tsx:118-130 | a non-numeric unit cost becomes 0 and is refused as not positive |
| RawMaterialsPage.Submit | Frontend/src/pages/RawMaterials.tsx:122-146 | an invalid form is refused with its message; a valid one is added, updates the edited material, or only closes the form |
| RawMaterialsPage.InventoryValueAppend | Frontend/src/pages/RawMaterials.tsx:150 | the inventory value of two lists together is the sum of their values |
| RawMaterialsPage.InventoryValueNonNegative | Frontend/src/pages/RawMaterials.tsx:150 | non-negative stock and costs give a non-negative value |
| RawMaterialsPage.ComputeStats | Frontend/src/pages/RawMaterials.tsx:149-151 | the count of materials, the value Σ stock × unit cost, and the number under 100 in stock, never more than the count |
| RawMaterialsPage.LowStockCountsLow | Frontend/src/pages/RawMaterials.tsx:151 | a material is counted low iff its stock is under 100 |
| RawMaterialsPage.RawMaterialsPage.constructor | Frontend/src/pages/RawMaterials.tsx:33-48 | the page starts sorted by name ascending with an empty form in add mode |
| RawMaterialsPage.RawMaterialsPage.HandleSort | Frontend/src/pages/RawMaterials.tsx:55-62 | the current field flips direction; another field becomes current, ascending |
| RawMaterialsPage.RawMaterialsPage.HandleAddMaterial | Frontend/src/pages/RawMaterials.tsx:82-87 | an empty form in add mode with no material chosen |
| RawMaterialsPage.RawMaterialsPage.HandleEditMaterial | Frontend/src/pages/RawMaterials.tsx:89-100 | the material's form in edit mode, that material chosen |
| RawMaterialsPage.RawMaterialsPage.HandleFormChange | Frontend/src/pages/RawMaterials.tsx:114-120 | the form changes as FormChange says |
| TransactionContext.MapFromApi | Frontend/src/context/TransactionContext.tsx:28-35 | every field of the row is kept as sent, because the row is spread last; the defaults fill only the fields the row lacks |
| TransactionContext.MapFromApiDefaults | Frontend/src/context/TransactionContext.tsx:29-33 | a row without `items` takes `line_items` or [], without `total` gets 0, without `id` gets the text "undefined" |
| TransactionContext.MapFromApiKeepsNullTotal | Frontend/src/context/TransactionContext.tsx:32-34 | a `null` total survives, since the spread overwrites the 0 default |
| TransactionContext.ItemPayload | Frontend/src/context/TransactionContext.tsx:57-62 | an item keeps all its own fields; only a missing `productId` is filled from `product_id` or `id` |
| TransactionContext.NullProductIdIsKept | Frontend/src/context/TransactionContext.tsx:58-61 | a `null` productId is sent as `null` even when `product_id` is set |
| TransactionContext.ItemsPayload | Frontend/src/context/TransactionContext.tsx:57-62 | one item payload per item, in order |
| TransactionContext.CheckoutBody | Frontend/src/context/TransactionContext.tsx:55-71 | the checkout body: subtotal falls back to the total then 0, discount and tax to 0, and each snake-case field takes the camel-case field when present, else the snake-case one |
| TransactionContext.AddTransactionPayload | Frontend/src/context/TransactionContext.tsx:51-71 | the body is built iff `items` is an array with no `null` entry (otherwise the mapping throws), and then it is the checkout body of the mapped items |
| TransactionContext.PayloadKeepsItems | Frontend/src/context/TransactionContext.tsx:57-62 | the body has one item per cart item, each with the productId it was given |
| TransactionContext.PayloadNames | Frontend/src/context/TransactionContext.tsx:67-69 | payment method, cashier and customer are sent under the server's names, from either spelling |
| TransactionContext.PosPayloadObjectFields | Frontend/src/pages/POS.tsx:89-106 | the point-of-sale payload as an object carries its items, snake-case method and cashier, subtotal and total |
| TransactionContext.PosSaleReachesCheckout | Frontend/src/context/TransactionContext.tsx:55-71 | a point-of-sale payload always yields a body, with the method, cashier, subtotal and total it was given |
| TransactionContext.PosSaleItemsReachCheckout | Frontend/src/context/TransactionContext.tsx:57-62 | each cart line reaches the checkout route with its product id and quantity |
| ProductContext.MapFromApi | Frontend/src/context/ProductContext.tsx:47-58 | the name is kept, and an image is present iff the row has a non-null one |
| ProductContext.MapFromApiId | Frontend/src/context/ProductContext.tsx:48 | the id becomes `String(p.id)` |
| ProductContext.MapFromApiPriceAndStock | Frontend/src/context/ProductContext.tsx:50-52 | price and stock are the row's values as numbers, or 0 when falsy |
| ProductContext.MapFromApiCostPrice | Frontend/src/context/ProductContext.tsx:51 | the cost price is `cost_price`, else `costPrice`, as a number |
| ProductContext.MapFromApiCategory | Frontend/src/context/ProductContext.tsx:53 | a missing category becomes '' |
| ProductContext.MapFromApiDefaults | Frontend/src/context/ProductContext.tsx:55-56 | missing ingredients become [] and a missing creation date the current time |
| ProductContext.IngredientToApi | Frontend/src/context/ProductContext.tsx:68-71 | an ingredient is sent as `raw_material_id` and `amount` only |
| ProductContext.MapToApi | Frontend/src/context/ProductContext.tsx:60-72 | the cost price is sent as `cost_price`, never as `costPrice` |
| ProductContext.MapToApiFields | Frontend/src/context/ProductContext.tsx:61-65 | name, price, stock and category are sent unchanged |
| ProductContext.MapToApiKeys | Frontend/src/context/ProductContext.tsx:60-72 | only the seven server fields can be sent |
| ProductContext.MapToApiIngredients | Frontend/src/context/ProductContext.tsx:68-71 | one server ingredient per recipe entry, with its material and amount |
| ProductContext.CostPriceRoundTrip | Frontend/src/context/ProductContext.tsx:51-64 | a cost price sent and read back is the same number |
| ProductContext.StockUpdateSendsOnlyStock | Frontend/src/context/ProductContext.tsx:158 | a stock update sends the stock field alone |
| ProductContext.GetProduct | Frontend/src/context/ProductContext.tsx:148-150 | a product with the id from the list, or none iff no product has it |
| ProductContext.GetProductIsFirst | Frontend/src/context/ProductContext.tsx:149 | the product found is the first with that id |
| ProductContext.ProductStore.constructor | Frontend/src/context/ProductContext.tsx:75-77 | the store holds the given products, no error and no requests |
| ProductContext.ProductStore.UpdateProductStock | Frontend/src/context/ProductContext.tsx:152-163 | an unknown product or stock that would go below 0 sets the error and sends nothing; otherwise one PUT of the product with its new stock, after which the error is cleared, or, when the update throws, set to its message or "Failed to update stock" |
| InventoryContext.MapFromApi | Frontend/src/context/InventoryContext.tsx:40-54 | every field of the row is kept as sent; the defaults fill only the fields it lacks |
| InventoryContext.MapFromApiKeepsRowId | Frontend/src/context/InventoryContext.tsx:43-52 | a numeric id stays a number, since the spread overwrites `String(r.id)` |
| InventoryContext.MapFromApiMissingId | Frontend/src/context/InventoryContext.tsx:43 | a row without id gets the text "undefined" |
| InventoryContext.MapFromApiUnitCost | Frontend/src/context/InventoryContext.tsx:48 | the unit cost falls back to `unit_cost`, then `price`, then 0 |
| InventoryContext.MapFromApiPrice | Frontend/src/context/InventoryContext.tsx:41-47 | without `price` the price is `unit_cost`, else 0 |
| InventoryContext.MapFromApiSupplier | Frontend/src/context/InventoryContext.tsx:49 | without `supplier` it is `vendor`, else '' |
| InventoryContext.MapToApi | Frontend/src/context/InventoryContext.tsx:56-69 | only the six server fields are sent; name, unit and supplier unchanged |
| InventoryContext.MapToApiCost | Frontend/src/context/InventoryContext.tsx:57-67 | the unit cost (else the price) is sent as a number under both `price` and `unit_cost` |
| InventoryContext.MapToApiNoCost | Frontend/src/context/InventoryContext.tsx:64-67 | without either cost neither cost field is sent |
| InventoryContext.MapToApiStock | Frontend/src/context/InventoryContext.tsx:61 | stock is sent as a number when given and left out otherwise |
| InventoryContext.FindById | Frontend/src/context/InventoryContext.tsx:104 | a material with that id from the list, or none iff none has it |
| InventoryContext.Merge | Frontend/src/context/InventoryContext.tsx:104-105 | the update's fields win; the existing material's other fields are kept |
| InventoryContext.PartialUpdateKeepsCost | Frontend/src/context/InventoryContext.tsx:100-106 | an update that does not name a cost keeps the stored unit cost |
| InventoryContext.InventoryStore.constructor | Frontend/src/context/InventoryContext.tsx:36 | the store starts with no materials and no requests |
| InventoryContext.InventoryStore.Fetch | Frontend/src/context/InventoryContext.tsx:71-83 | the list becomes the mapped rows, one per row, in order |
| InventoryContext.InventoryStore.UpdateRawMaterial | Frontend/src/context/InventoryContext.tsx:100-116 | one PUT of the merged material in server form |
| Api.ApiBase | Frontend/src/api.ts:1 | the configured address when it is set and not empty, otherwise the local default |
| Api.NormalizeToken | Frontend/src/api.ts:3-7 | a token is only found in a stored text, is never empty and is never longer than that text |
| Api.NormalizeTokenNone | Frontend/src/api.ts:3-7 | no token iff nothing is stored or the trimmed text is empty, `"` or `""` |
| Api.StripQuotesEmpty | Frontend/src/api.ts:6 | removing one leading and one trailing quote leaves nothing exactly from the empty text, a lone quote and a pair of quotes |
| Api.PlainTokenUnchanged | Frontend/src/api.ts:3-7 | a token without surrounding spaces or quotes is returned as it is |
| Api.QuotedTokenUnwrapped | Frontend/src/api.ts:3-7 | a token stored in quotes, or with surrounding white space, is recovered |
| Api.NormalizeTokenNotIdempotent | Frontend/src/api.ts:5-6 | trimming happens before unquoting, so normalising twice can differ from normalising once |
| Api.StoredToken | Frontend/src/api.ts:10-12 | the remembered token when there is one, else the session token; none iff neither store holds one |
| Api.ErrorMessage | Frontend/src/api.ts:34-48 | a JSON error shows its truthy `message`, else the status text; any other error shows its body unless empty or markup, else status and status text |
| Api.MarkupNeverShown | Frontend/src/api.ts:44-45 | without a JSON body, the error message never looks like markup: a markup or empty body is replaced by the status line, which starts with the status code |
| Api.Call | Frontend/src/api.ts:9-53 | the URL is base + path; JSON content type by default with the caller's headers winning; the bearer token is added exactly when there is one and none was supplied; an object body is serialised; a failed response throws its message, an OK one yields its JSON or null |
| Auth.RoleOf | Frontend/src/context/AuthContext.tsx:58-59 | no user has no role |
| Auth.RolesExclusive | Frontend/src/context/AuthContext.tsx:58-59 | no user is both admin and cashier, and nobody signed out is either |
| Auth.ReceivedToken | Frontend/src/context/AuthContext.tsx:80 | a missing, falsy or empty token gives none; a text token is normalised |
| Auth.LoggedInUser | Frontend/src/context/AuthContext.tsx:97-98 | the answer's `user` when truthy, else the whole answer when truthy, else nobody |
| Auth.AuthState.constructor | Frontend/src/context/AuthContext.tsx:41-54 | the token starts as the stored one, with no user, no error and not loading |
| Auth.AuthState.Login | Frontend/src/context/AuthContext.tsx:76-107 | a failure sets the error and changes neither user, token nor storage; success clears the error, takes the user and token, and stores the token in exactly the store `rememberMe` picks, clearing the other (both when there is no token) |
| Auth.AuthState.Logout | Frontend/src/context/AuthContext.tsx:109-124 | user, token and both stores are cleared, whatever the server answers |
| Auth.AuthState.FetchCurrentUser | Frontend/src/context/AuthContext.tsx:61-74 | the answer becomes the user, or nobody with the session-expired error when the call fails |
| Auth.ReloadAfterLogin | Frontend/src/context/AuthContext.tsx:42-90 | a token stored by login is found again on the next load |
| Auth.RememberedTokenWins | Frontend/src/context/AuthContext.tsx:45-46 | the remembered token wins over a session token |
| Permissions.RolePermissions | Frontend/src/utils/permissions.ts:5-21 | only 'admin' and 'cashier' have a route list |
| Permissions.AccessIsExactListing | Frontend/src/utils/permissions.ts:24-32 | no role reaches nothing; admin and cashier reach exactly their listed paths, with no prefix matching; any other role reaches nothing |
| Permissions.CashierRoutesAreAdminRoutes | Frontend/src/utils/permissions.ts:5-21 | every page a cashier may open an admin may open too |
| Permissions.CashierBarred | Frontend/src/utils/permissions.ts:15-20 | a cashier cannot open reports, raw materials or purchases; an admin can open reports |
| Permissions.Labels | Frontend/src/utils/permissions.ts:49 | the labels of the routes, dropping unlabelled ones, one per route when all have labels |
| Permissions.UnknownRoleNavItemsThrow | Frontend/src/utils/permissions.ts:48-49 | for a role outside the table the page throws instead of listing nothing |
| Permissions.AllowedNavItems | Frontend/src/utils/permissions.ts:35-50 | the corrected navigation agrees with the source wherever the source does not throw |
| Permissions.NavItemsFollowPermissions | Frontend/src/utils/permissions.ts:35-50 | no role or an unknown role lists nothing; a known role lists one label per permitted route, in order, each of a route it can open |
| ProtectedRoute.RoleName | Frontend/src/components/ProtectedRoute.tsx:29 | a text role is used as itself; anything else counts as no role |
| ProtectedRoute.Guard | Frontend/src/components/ProtectedRoute.tsx:11-44 | loading shows the spinner; no user goes to login; with an explicit role list the page shows iff the user's role is listed; otherwise iff the permission table admits the path; every other case goes to the dashboard |
| ProtectedRoute.NoRoleNoPage | Frontend/src/components/ProtectedRoute.tsx:29-41 | a user without a role never sees a guarded page |
| ProtectedRoute.ReportsGuarded | Frontend/src/components/ProtectedRoute.tsx:36-41 | a cashier opening reports goes to the dashboard; an admin sees reports |
| Reports.InPeriod | Frontend/src/hooks/useReports.tsx:53-57 | a transaction is kept iff its date reads as a valid instant on or after the start of the range |
| Reports.PutLookup | Frontend/src/hooks/useReports.tsx:74 | after adding to a product's tally, that product reads the new count and every other product reads as before |
| Reports.PutSum | Frontend/src/hooks/useReports.tsx:74 | replacing one count changes the sum of all counts by exactly the difference |
| Reports.PutPositive | Frontend/src/hooks/useReports.tsx:73-74 | only positive counts are ever stored |
| Reports.LookupNonNegative | Frontend/src/hooks/useReports.tsx:73-74 | every count is non-negative, and a product is listed iff its count is positive |
| Reports.CountItemsSpec | Frontend/src/hooks/useReports.tsx:69-76 | one transaction's items add to each product's count exactly its quantities in those items, keys staying distinct |
| Reports.TallyIsQuantity | Frontend/src/hooks/useReports.tsx:62-77 | each product's count is its total quantity over all transactions, and a product is listed iff that total is positive |
| Reports.ProductSales | Frontend/src/hooks/useReports.tsx:60-77 | the nested loops build exactly the tally |
| Reports.ProductName | Frontend/src/hooks/useReports.tsx:81 | the first product whose id reads as the id gives its name when that is truthy, and otherwise, or when no product matches, "Product " + id |
| Reports.Named | Frontend/src/hooks/useReports.tsx:79-83 | one named entry per tallied product with its count |
| Reports.TopProducts | Frontend/src/hooks/useReports.tsx:79-85 | at most four entries, best sellers first, each a tallied product listed no more often than it is tallied, and nothing left out sold more than anything listed |
| Reports.ByValueDescending | Frontend/src/hooks/useReports.tsx:84 | the comparator's order is descending quantity |
| Reports.TotalSalesConcat | Frontend/src/hooks/useReports.tsx:110 | the sales of two transaction lists together are the sum of their sales |
| Reports.SalesByDayIsDayTotal | Frontend/src/hooks/useReports.tsx:90-96 | each day appears once, with the sum of that day's totals, and the days add up to the total sales |
| Reports.SalesTrend | Frontend/src/hooks/useReports.tsx:90-104 | the per-day sums, oldest day first |
| Reports.ComputeSummary | Frontend/src/hooks/useReports.tsx:110-118 | total sales, the number of orders, and the average order, which times the orders gives the sales (0 without orders) |
| Reports.ProductCostReadAsZero | Frontend/src/hooks/useReports.tsx:128 | products loaded by the client carry `costPrice`, not `cost` or `unitCost`, so every product's cost is read as 0 |
| Reports.ProductsValuedAtZero | Frontend/src/hooks/useReports.tsx:124-145 | so the products add nothing to the inventory value |
| Reports.ProductCostReadFromCostPrice | Frontend/src/hooks/useReports.tsx:128 | the corrected reading takes the product's cost price from the server row |
| Reports.ProductItems | Frontend/src/hooks/useReports.tsx:125-129 | one inventory item per product |
| Reports.MaterialItems | Frontend/src/hooks/useReports.tsx:130-134 | one inventory item per raw material |
| Reports.Levels | Frontend/src/hooks/useReports.tsx:137-141 | one level per item, keeping name and stock, low iff stock < 10 |
| Reports.StockValueAppend | Frontend/src/hooks/useReports.tsx:143-145 | the value of two item lists together is the sum of their values |
| Reports.ComputeInventory | Frontend/src/hooks/useReports.tsx:120-153 | products then materials (named with " (Raw)"), low iff stock < 10, the low count, and the value Σ stock × cost of both |
| Reports.ProfitIsIncome | Frontend/src/hooks/useReports.tsx:156-174 | revenue minus expenses is the sum over the transactions that are not expenses |
| Reports.RecentOf | Frontend/src/hooks/useReports.tsx:164-169 | the type is kept when truthy, otherwise 'income' |
| Reports.RecentOfAll | Frontend/src/hooks/useReports.tsx:164-169 | one recent entry per transaction |
| Reports.RecentTransactions | Frontend/src/hooks/useReports.tsx:161-169 | at most three, newest first, each the entry of one of the transactions given and listed no more often than it occurs; a transaction left out is no newer than any listed |
| Reports.ComputeFinancials | Frontend/src/hooks/useReports.tsx:155-176 | revenue is the total sales, expenses the totals of 'expense' transactions, profit the totals of all other transactions, and the three most recent |
| Reports.BuildReport | Frontend/src/hooks/useReports.tsx:39-178 | the report is the trend, top products, summary, inventory and financials of the transactions in the period |
| Dashboard.ChangePercentageAsWritten | Frontend/src/pages/Dashboard.tsx:19-30 | from 0 the change is 100% up when the value grew, else 0% down; otherwise the percentage is \|current − previous\| / \|previous\| × 100, and over a negative previous value "up" means the value fell |
| Dashboard.ChangePercentage | Frontend/src/pages/Dashboard.tsx:19-30 | the corrected change: the same percentage, shown as a rise iff the value did not fall |
| Dashboard.ChangeAgreesForNonNegativePrevious | Frontend/src/pages/Dashboard.tsx:19-30 | both agree whenever the previous value is not negative (every count and sum of sales) |
| Dashboard.RecoveredProfitShownAsFall | Frontend/src/pages/Dashboard.tsx:23-28 | a profit from −10 to 10 is shown as a 200% fall; the correction shows a 200% rise |
| Dashboard.Window | Frontend/src/pages/Dashboard.tsx:105-113 | a transaction is kept iff its date reads as an instant in [start, end) |
| Dashboard.TotalProfitConcat | Frontend/src/pages/Dashboard.tsx:121 | the profit of two lists together is the sum of their profits |
| Dashboard.AdjacentWindows | Frontend/src/pages/Dashboard.tsx:115-117 | the previous and current periods never share a transaction, together they make up the whole span, and counts, sales and profit add up |
| Dashboard.ComputeStats | Frontend/src/pages/Dashboard.tsx:120-125 | sales, profit and orders of the period, and the average order, which times the orders gives the sales (0 without orders) |
| Dashboard.TallySales | Frontend/src/pages/Dashboard.tsx:142-156 | the nested loops build exactly the per-product tally |
| Dashboard.PutKeyed | Frontend/src/pages/Dashboard.tsx:150-151 | every entry stays filed under the text of its own id |
| Dashboard.RecordItemSpec | Frontend/src/pages/Dashboard.tsx:145-154 | one item adds its quantity and total to its own product's entry only, keys staying distinct |
| Dashboard.ItemsMentionLast | Frontend/src/pages/Dashboard.tsx:144-145 | a product is mentioned by a list iff by its front or by its last item |
| Dashboard.RecordItemsSpec | Frontend/src/pages/Dashboard.tsx:144-155 | one transaction's items add to each product exactly its quantities and totals in those items |
| Dashboard.FindKeyed | Frontend/src/pages/Dashboard.tsx:150-151 | the entry found under a key carries that key's id |
| Dashboard.SaleTallyIsSum | Frontend/src/pages/Dashboard.tsx:142-156 | a product has an entry iff some item names it, with its total quantity and revenue over the period |
| Dashboard.TopSelling | Frontend/src/pages/Dashboard.tsx:158-160 | at most five entries, highest quantity first, each a tallied product listed no more often than it is tallied, and nothing left out sold more than anything listed |
| Dashboard.QuantityDescending | Frontend/src/pages/Dashboard.tsx:159 | the comparator's order is descending quantity |
| Dashboard.TopSellingAreSums | Frontend/src/pages/Dashboard.tsx:142-160 | each listed product shows its total quantity and revenue over the period |
| Dashboard.FindDistinct | Frontend/src/pages/Dashboard.tsx:150-154 | with distinct keys each entry is the one found under its key |
| Dashboard.HasKeyAt | Frontend/src/pages/Dashboard.tsx:150 | every listed entry's key is present |
| Dashboard.LowStock | Frontend/src/pages/Dashboard.tsx:166-171 | at most five products, each with stock under 10 and listed no more often than it occurs, least stock first, none left out with less stock than one listed, and all of them when there are at most five |
| Dashboard.StockAscending | Frontend/src/pages/Dashboard.tsx:169 | the comparator's order is ascending stock |
| Dashboard.Refresh | Frontend/src/pages/Dashboard.tsx:78-163 | the overview is the stats of the current period, their change from the previous period, and the top sellers of the current period |
| LegacyDashboardData.Detail | TokoKami/Frontend/src/hooks/useDashboardData.tsx:64-70 | the row is kept; stock is the parsed integer or 0; a numeric price or cost is taken as it is |
| LegacyDashboardData.LowStock | TokoKami/Frontend/src/hooks/useDashboardData.tsx:78-80 | exactly the products with stock under 10, each once as often as given, least stock first, none cut off |
| LegacyDashboardData.FirstNamed | TokoKami/Frontend/src/hooks/useDashboardData.tsx:84 | the first product whose name is strictly equal, or none iff no product has it |
| LegacyDashboardData.Revenue | TokoKami/Frontend/src/hooks/useDashboardData.tsx:84-85 | 0 when no product has that name; otherwise the quantity times the price of the product with that name that no earlier product shares |
| LegacyDashboardData.TopEntries | TokoKami/Frontend/src/hooks/useDashboardData.tsx:83-91 | the server's best sellers in order, each keeping name and quantity, with its revenue at the first same-named product's price or 0 |
| LegacyDashboardData.OrdersOf | TokoKami/Frontend/src/hooks/useDashboardData.tsx:63 | the server's order count when truthy, else 0 |
| LegacyDashboardData.ProfitOf | TokoKami/Frontend/src/hooks/useDashboardData.tsx:73 | the financials' profit when truthy, else 0 |
| LegacyDashboardData.ComputeStats | TokoKami/Frontend/src/hooks/useDashboardData.tsx:62-102 | sales parsed from the summary or 0, the orders and profit, and the average order, which times the orders gives the sales (0 without orders) |
| LegacyDashboardData.Average | TokoKami/Frontend/src/hooks/useDashboardData.tsx:101 | total over count for a positive count, else 0 |
| LegacyDashboardData.Rows | TokoKami/Frontend/src/hooks/useDashboardData.tsx:64-83 | an answer can be mapped iff it is an array with no `null` entry |
| LegacyDashboardData.Load | TokoKami/Frontend/src/hooks/useDashboardData.tsx:55-105 | the figures load iff no property read throws (summary and details not null, financials present, both lists mappable), and then are the parsed products, their low-stock list, the revenue-valued best sellers and the stats |
| LegacyDashboardData.TextPriceIsParsed | TokoKami/Frontend/src/hooks/useDashboardData.tsx:67 | a price the server sends as the text "12" is read as 12 |
| Settings.Initials | Frontend/src/pages/Settings.tsx:14-18 | an empty name shows "U"; otherwise at most two characters |
| Settings.FirstsAreWordStarts | Frontend/src/pages/Settings.tsx:15-16 | splitting on spaces and taking first characters gives exactly the characters that start a word |
| Settings.InitialsAreWordStarts | Frontend/src/pages/Settings.tsx:14-18 | a non-empty name shows its first two word starts, upper-cased |
| Settings.DoubleSpaceSkipped | Frontend/src/pages/Settings.tsx:15-16 | "jo  an" shows "JA": the empty word between two spaces adds nothing |
| Settings.BlankNameHasNoInitials | Frontend/src/pages/Settings.tsx:14-18 | a name of spaces shows nothing rather than "U" |
| Sorting.Toggle | Frontend/src/pages/Products.tsx:58-65 | a header click makes its column current; the current column flips its direction, another starts at the page's initial direction |
| Sorting.SortBy | Frontend/src/pages/Dashboard.tsx:159 | the sorted list is a permutation of the input, in order of the compared field |
| Sorting.Filter | Frontend/src/pages/Dashboard.tsx:168 | never longer than the input; every element kept passes the test and comes from the input, and every element that passes is kept |
| Sorting.FilterCount | Frontend/src/pages/Dashboard.tsx:168 | each element that passes the test is kept exactly as often as it occurs, and no other element is kept |
| Sorting.Distinct | Frontend/src/pages/RawMaterials.tsx:51 | each value of the input exactly once |
| Sorting.DistinctFirstOrder | Frontend/src/pages/RawMaterials.tsx:51 | the values are listed in the order of their first occurrences |
| Sorting.RemoveAt | Frontend/src/pages/Products.tsx:139 | the entry at the index goes and the others keep their order; an index outside the list removes nothing |
| Sorting.Take | Frontend/src/pages/Dashboard.tsx:160 | the first n elements, or all of them when there are fewer |
| Sorting.TopN | Frontend/src/pages/Dashboard.tsx:158-160 | the first n in sorted order, each from the input and kept no more often than it occurs there, every one left out coming after every one kept, and all of them when there are at most n |

## Left out

- Rendering is not modelled: JSX, styling, icons, charts, modals, toasts and the confirmation dialogs before a delete. The model keeps the state these read, not how it is shown.
- Network and database plumbing is not modelled: fetch/axios calls, Express wiring, connection pools, SQL text, the schema and the seeding script. Table updates are modelled as changes to the `SalesDb.Store` and `LegacyServer.Store` fields. Every request a page makes is assumed to reach the server, and its answer is a parameter.
- Password hashing and JWT signing are not modelled. They are calls into libraries.
- Concurrent checkouts and database isolation are not modelled. One request runs at a time.
- Dates are not modelled. A transaction's date is read through a function passed in as a parameter, and the current time and the period boundaries (Frontend/src/pages/Dashboard.tsx:78-103, Frontend/src/hooks/useReports.tsx:40-50) are parameters too. The ISO day key of a date is an abstract function.
- JavaScript numbers are unbounded reals. Float rounding, `Infinity`, exponent notation in parsed text, and `-0` are not modelled. `NaN` is read as 0 everywhere `Js.ToNumber` is used, whether or not the code follows it with `|| 0`. Where the code does not, the model differs from JavaScript on unparsable text: in `ProductsPage.UnitCost` (Frontend/src/pages/Products.tsx:158) a text unit cost makes the JavaScript sum NaN, so no roll-up happens, where the model rolls up the other ingredients; in `Dashboard.StockOf` (Frontend/src/pages/Dashboard.tsx:168) a stock of "abc" is not low in JavaScript but is low in the model. The one exception is the older POS cash check, which reads an unparsable amount as no number, so its comparison is false.
- Js.ToNumber: an array reads as 0 (JavaScript reads a one-element array such as `[5]` or `["7"]` as its element's number), and hexadecimal, octal and binary texts such as `"0x1A"` read as 0 (JavaScript reads 26). Neither reading is modelled.
- `String(n)` (`Js.ToStr`) is exact for integral numbers only. Any other number becomes the fixed text "NaN", an array the empty text, and an object "[object Object]". Ids in this system are integers or strings.
- Case mapping (`toLowerCase`, `toUpperCase`) covers ASCII letters only.
- `localeCompare` is modelled as code-point lexicographic order.
- `Array.prototype.sort` is modelled as a stable insertion sort. The order among equal keys may differ from the engine's.
- Object key order: `Object.entries` and `Object.values` list keys in the order they were first set. JavaScript's rule that integer-like keys come first is not modelled. It changes only the order among entries with equal counts.
- ProductsPage.Round2: `toFixed(2)` is modelled as rounding half away from zero on the exact value. The binary float representation is not modelled.
- The PostgreSQL and MySQL drivers' conversion of NUMERIC columns to text is modelled by passing rows as JSON values. NUMERIC(10,2) rounding on insert is not modelled, and neither are the `NOW()` timestamps of new rows. Ids come from counters that never reuse a value. A sequence gap after a rollback is not modelled.
- The older server's `/api/reports/summary`, `/api/reports/top-products` and recent-transactions queries, and the trend aggregation, are SQL. Only the range-to-format switch and the details computation are modelled. The older client takes their answers as parameters.
- Transactions.Checkout and LegacyServer.RecordSale: a failed write, a lost connection or a constraint the model does not list are not modelled. The failures modelled are the ones the code and the schema's foreign keys and enums raise.
- PurchaseRoute.RecordPurchase: any statement's failure is modelled through the `refused` parameter, which names the first statement the database refuses. The MySQL schema is not part of this model, so which column constraints refuse which values is not derived from it. A header insert that fails still takes an AUTO_INCREMENT id.
- PurchaseRoute.Receive: assumes MySQL strict mode and a NOT NULL `stock` column. A NULL or unreadable amount is then refused and the purchase rolls back. In non-strict mode MySQL would instead store 0 (or the truncated number) with a warning, and that path is not modelled.
- PurchaseRoute.SqlId: a text with trailing characters after a number (`'12abc'`) is modelled as matching no row. MySQL compares it as the number 12: in non-strict mode it matches row 12, and in strict mode the UPDATE raises error 1292 and the purchase rolls back. Exponent notation in id texts is not modelled either.
- LegacyServer.PgInt and LegacyServer.PgNumeric accept any integral or real value. INT and NUMERIC overflow are not modelled, and neither is PostgreSQL's exact INT text syntax (such as `'+5'` or `' 5 '`).
- Js.IsSpace lists the white space of `String.prototype.trim` by code point: the ASCII spaces, the line terminators, the no-break and byte-order marks, and the Unicode space separators.
- ProductContext: the store's refetch after a write is not modelled. `fetchProducts`, `addProduct` and `deleteProduct` only issue a request and set the list from its answer. `updateProductStock` is modelled through the request it sends.
- InventoryContext: `deleteRawMaterial` only issues a request and is not modelled.
- TransactionContext: `fetchTransactions` only issues a request and is not modelled.
- ProductsPage.ProductsPage.HandleIngredientChange requires an index inside the list. The page only calls it from a rendered row, so the out-of-range case (where JavaScript would write `undefined` fields past the end) cannot arise there.
- PurchasesPage.PurchasesPage.HandleItemChange requires an index inside the list, for the same reason.
- PurchasesPage.PurchasesPage.Load: the reload after a successful submission is modelled as a separate call to `Load`.
- Pos: the fields that the server's result adds to the receipt by spreading are not modelled. Only the id and the date are kept.
- A `null` element where an object is expected is read as an object with no fields. The model reports the throw only in PurchaseRoute.ReadItemsWith, LegacyServer's item parsing, PurchasesPage.LoadPurchase, TransactionContext.AddTransactionPayload and LegacyDashboardData.Load. In three places JavaScript throws on such an element and the model goes on with an empty object: the item ids in Reports (Frontend/src/hooks/useReports.tsx:70), Dashboard.SaleId (Frontend/src/pages/Dashboard.tsx:145) and ProductContext.IngredientToApi (Frontend/src/context/ProductContext.tsx:68-71).
- Auth: exceptions raised by browser storage, and the effect that re-reads the token when it changes, are not modelled. A role that is not a text counts as no role.
- Api.Call: headers passed as a `Headers` instance, and header-name case, are not modelled. Headers are a map from exact names.
- Permissions: roles named like `Object.prototype` properties (`constructor`, `toString`) are treated as unknown roles.
- Reports: the early return while a list is still loading is not modelled. The report is built from loaded lists.
- Dashboard: an `items` value that is truthy but not an array would throw. It is modelled as an empty list.
- LegacyDashboardData.FirstNamed: strict equality (`===`) on product names is modelled as structural equality of values.
- Dashboard: a product id is stored as the raw value the item carried.
- Dashboard.Refresh uses the corrected `Dashboard.ChangePercentage`. The two agree whenever the previous value is not negative (`Dashboard.ChangeAgreesForNonNegativePrevious`).
- Pos.PosPage.HandleCheckout uses the corrected `Pos.ReceiptId`, so its receipt shows the id the server assigned. As written (Frontend/src/pages/POS.tsx:131) the receipt shows the predicted id, because the answer carries `transactionId` and not `id` (`Pos.ReceiptIgnoresAssignedId`).
- PurchasesPage.LoadPurchase uses the corrected `PurchasesPage.LoadedTotal`, which reads `total_amount` first. As written (Frontend/src/pages/Purchases.tsx:66) a stored row is listed with total 0 (`PurchasesPage.StoredTotalListedAsZero`).
- PurchasesPage.LoadPurchases maps every row with the corrected `PurchasesPage.LoadPurchase`, so it lists stored totals where the page as written lists 0.
- PurchasesPage.PurchasesPage.Load sets the list from the corrected `PurchasesPage.LoadPurchases`, with the same difference.
- Reports.ProductItems uses the corrected `Reports.ProductItem`, which reads the product's `costPrice`. As written (Frontend/src/hooks/useReports.tsx:128) every client product is valued at cost 0 (`Reports.ProductsValuedAtZero`).
- Reports.ComputeInventory builds on the corrected `Reports.ProductItems`, so products add their stock × cost price to the inventory value where the hook as written adds nothing.
- Reports.BuildReport builds its inventory with the corrected `Reports.ComputeInventory`, with the same difference.
- LegacyDashboardData.Load: the hook keeps the previous figures on an error and has `isLoading`/`isError` flags. Neither is modelled. `Load` says only whether the figures load and what they are.
- Settings.Initials: `substring(0, 2)` counts UTF-16 code units. The model counts characters.
- The mocked CRUD context, mock report data and random percentages of the older client are not modelled. None of them is logic of the system.

## Findings

| source | as written | input that shows it | evidently intended | confidence | as-written member | corrected member |
|---|---|---|---|---|---|---|
| Frontend/src/pages/Purchases.tsx:176-188 | The page sends `raw_material_id`, `unit_cost` and `totalAmount`. The purchase route reads `rawMaterialId`, `unitCost` and `total_amount` (Backend/routes/purchases.js:24,36). | Any submitted purchase: the header total is NULL and every restock matches no row. | The route reads the names the page sends, and each raw material is restocked by the quantities ordered. | high (not executed) | PurchasesPage.SubmissionAsWrittenRestocksNothing | PurchasesPage.SubmissionRestocksOrdered |
| Frontend/src/pages/POS.tsx:131 | The receipt id is `transactionResult?.id || predictedId`. The store resolves to nothing, and the route's answer carries `transactionId`, not `id`. | A checkout the server numbers 42: the receipt shows the predicted id instead. | The receipt shows the id the server assigned. | high (not executed) | Pos.ReceiptIgnoresAssignedId | Pos.ReceiptShowsAssignedId |
| Frontend/src/pages/Purchases.tsx:66 | A loaded purchase's total is read from `totalAmount` or `total`. The row stores it as `total_amount`. | A row `{id: 1, supplier: "Toko Susu", total_amount: x}` is listed with total 0. | The listed total is the stored `total_amount`. | high (not executed) | PurchasesPage.StoredTotalListedAsZero | PurchasesPage.LoadShowsStoredTotal |
| Frontend/src/hooks/useReports.tsx:128 | A product's cost is read from `cost` or `unitCost`. Products loaded by the client carry `costPrice`. | Any product list: every product's cost is 0, so products add nothing to the inventory value. | The cost is the product's cost price. | high (not executed) | Reports.ProductsValuedAtZero | Reports.ProductCostReadFromCostPrice |
| Frontend/src/utils/permissions.ts:48-49 | The role table is indexed without a check, then mapped. | A stored role "manager": `getAllowedNavItems` throws, where `canAccessRoute` only refuses. | A role outside the table is offered no navigation items. | medium (not executed) | Permissions.UnknownRoleNavItemsThrow | Permissions.NavItemsFollowPermissions |
| Frontend/src/pages/Dashboard.tsx:23-28 | The change is divided by the signed previous value, and its sign decides "up". | A profit that goes from −10 to 10 is shown as a 200% fall. | The change is measured against the size of the previous value, and a rise is shown as a rise. | high (not executed) | Dashboard.RecoveredProfitShownAsFall | Dashboard.ChangePercentage |
