/** The point-of-sale page of the older client (TokoKami/Frontend/src/pages/POS.tsx). Its
    cart and subtotal live in a transaction store that is not part of this model, so
    they are inputs here; the page adds the amount due, the cash check, the change, the
    product filter and the checkout that resets the form. */
module LegacyPos {
  import opened Js
  import Sorting
  import Pos

  /** The older client's product; `category` is read through `as any` and may be
      missing. */
  datatype Product = Product(id: int, name: string, price: real, cost: real, stock: real,
                             sku: string, category: Option<string>)

  /** `products.filter(...)`: the same rule as the newer page, and a product without a
      category shows only under no category or `'All'`. */
  function FilterProducts(products: seq<Product>, search: string, selected: Option<string>): (r: seq<Product>)
    ensures forall i :: 0 <= i < |r| ==> r[i] in products && Pos.Matches(r[i].name, r[i].category, search, selected)
    ensures forall i :: 0 <= i < |products| && Pos.Matches(products[i].name, products[i].category, search, selected) ==>
              products[i] in r
  {
    Sorting.Filter(products, (p: Product) => Pos.Matches(p.name, p.category, search, selected))
  }

  /** A product without a category is hidden as soon as a real category is chosen. */
  lemma UncategorisedHiddenUnderCategory(products: seq<Product>, search: string, c: string)
    requires c != "All"
    ensures forall i :: 0 <= i < |FilterProducts(products, search, Some(c))| ==>
              FilterProducts(products, search, Some(c))[i].category == Some(c)
  {
  }

  /** `calculateTotalDue()` */
  function TotalDue(subtotal: real, tax: real, discount: real): real {
    subtotal + tax - discount
  }

  /** The cash check of `handleCheckout`: `paymentMethod === 'cash' &&
      parseFloat(cashAmount) < totalDue`. A NaN amount compares false, so it is not
      refused. */
  predicate CashShort(paymentMethod: string, cashAmount: string, due: real) {
    paymentMethod == "cash" && ParseFloat(cashAmount).Some? && ParseFloat(cashAmount).value < due
  }

  /** An empty or unreadable cash amount passes the check, whatever is due. */
  lemma UnreadableCashIsNotRefused(due: real)
    ensures !CashShort("cash", "", due)
    ensures !CashShort("cash", "abc", due)
  {
    assert TrimStart("") == "";
    assert TrimStart("abc") == "abc";
    assert DigitPrefix("abc") == "";
  }

  /** `calculateChange()`: nothing while the field is empty or its number is NaN;
      otherwise the cash above the amount due, or 0. */
  function CalculateChange(cashAmount: string, subtotal: real, tax: real, discount: real): (r: real)
    ensures r >= 0.0
    ensures r > 0.0 <==> cashAmount != "" && ParseFloat(cashAmount).Some? &&
                         ParseFloat(cashAmount).value > TotalDue(subtotal, tax, discount)
    ensures r > 0.0 ==> ParseFloat(cashAmount).value == TotalDue(subtotal, tax, discount) + r
  {
    if cashAmount == "" then 0.0
    else
      var due := TotalDue(subtotal, tax, discount);
      match ParseFloat(cashAmount)
      case Some(cash) => if cash > due then cash - due else 0.0
      case None => 0.0
  }

  /** The two pages give the same change for every amount that reads as a number
      other than 0; they differ only in what an unreadable amount counts as. */
  lemma ChangeAgreesWithNewerPage(cashAmount: string, subtotal: real, tax: real, discount: real)
    requires ParseFloat(cashAmount).Some? && ParseFloat(cashAmount).value != 0.0
    ensures CalculateChange(cashAmount, subtotal, tax, discount) == Pos.CalculateChange(cashAmount, subtotal, tax, discount)
  {
  }

  /** An unreadable amount counts as no cash here, but as 0 on the newer page, which
      then pays out a discount larger than the bill as change. */
  lemma ChangeDiffersOnUnreadableCash()
    ensures CalculateChange("abc", 10.0, 0.0, 15.0) == 0.0
    ensures Pos.CalculateChange("abc", 10.0, 0.0, 15.0) == 5.0
  {
    assert TrimStart("abc") == "abc";
    assert DigitPrefix("abc") == "";
  }

  /** The payload handed to the transaction store's `checkout`. */
  datatype Payload = Payload(cashierId: Value, discount: real, tax: real, paymentMethod: string,
                             customerName: Option<string>, notes: Option<string>, total: real)

  /** `user?.id || 1` for the cashier, and the amount due as the total. */
  function MakePayload(userId: Option<Value>, discount: real, tax: real, paymentMethod: string,
                       customerName: string, notes: string, subtotal: real): (r: Payload)
    ensures Truthy(userId) ==> Some(r.cashierId) == userId
    ensures !Truthy(userId) ==> r.cashierId == Num(1.0)
    ensures r.total == TotalDue(subtotal, tax, discount)
    ensures r.customerName.None? <==> customerName == ""
  {
    Payload(Or(userId, NumV(1.0)).value, discount, tax, paymentMethod,
            Pos.NonEmpty(customerName), Pos.NonEmpty(notes), TotalDue(subtotal, tax, discount))
  }

  class LegacyPosPage {
    var discount: real
    var tax: real
    var paymentMethod: string
    var customerName: string
    var notes: string
    var cashAmount: string
    var checkoutModalOpen: bool
    var receiptModalOpen: bool
    var currentTransaction: Option<Value>
    /** the payloads handed to `checkout`, oldest first */
    var sent: seq<Payload>

    constructor ()
      ensures discount == 0.0 && tax == 0.0 && paymentMethod == "cash"
      ensures customerName == "" && notes == "" && cashAmount == ""
      ensures !checkoutModalOpen && !receiptModalOpen && currentTransaction.None? && sent == []
    {
      discount, tax := 0.0, 0.0;
      paymentMethod := "cash";
      customerName, notes, cashAmount := "", "", "";
      checkoutModalOpen, receiptModalOpen := false, false;
      currentTransaction := None;
      sent := [];
    }

    /** `resetCheckoutForm()` */
    method ResetCheckoutForm()
      modifies this`discount, this`tax, this`paymentMethod, this`customerName, this`notes, this`cashAmount
      ensures discount == 0.0 && tax == 0.0 && paymentMethod == "cash"
      ensures customerName == "" && notes == "" && cashAmount == ""
    {
      discount, tax := 0.0, 0.0;
      paymentMethod := "cash";
      customerName, notes, cashAmount := "", "", "";
    }

    /** `handleCheckout()` for a cart of `cartSize` entries worth `subtotal`.
        `result` is what `checkout` resolved to, `None` when it threw. */
    method HandleCheckout(cartSize: nat, subtotal: real, userId: Option<Value>, result: Option<Value>)
      returns (done: bool)
      modifies this
      // an empty cart or short cash changes nothing
      ensures cartSize == 0 || old(CashShort(paymentMethod, cashAmount, TotalDue(subtotal, tax, discount))) ==>
        !done && unchanged(this)
      ensures cartSize > 0 && !old(CashShort(paymentMethod, cashAmount, TotalDue(subtotal, tax, discount))) ==>
        sent == old(sent) + [MakePayload(userId, old(discount), old(tax), old(paymentMethod),
                                         old(customerName), old(notes), subtotal)]
      // a failed send changes nothing but the record of what was sent
      ensures cartSize > 0 && !old(CashShort(paymentMethod, cashAmount, TotalDue(subtotal, tax, discount))) && result.None? ==>
        !done && discount == old(discount) && tax == old(tax) && paymentMethod == old(paymentMethod) &&
        customerName == old(customerName) && notes == old(notes) && cashAmount == old(cashAmount) &&
        checkoutModalOpen == old(checkoutModalOpen) && receiptModalOpen == old(receiptModalOpen) &&
        currentTransaction == old(currentTransaction)
      ensures cartSize > 0 && !old(CashShort(paymentMethod, cashAmount, TotalDue(subtotal, tax, discount))) && result.Some? ==>
        done && currentTransaction == result && !checkoutModalOpen && receiptModalOpen &&
        discount == 0.0 && tax == 0.0 && paymentMethod == "cash" &&
        customerName == "" && notes == "" && cashAmount == ""
    {
      if cartSize == 0 {
        return false;
      }
      var totalDue := TotalDue(subtotal, tax, discount);
      if CashShort(paymentMethod, cashAmount, totalDue) {
        return false;
      }
      sent := sent + [MakePayload(userId, discount, tax, paymentMethod, customerName, notes, subtotal)];
      if result.None? {
        return false;
      }
      currentTransaction := result;
      checkoutModalOpen := false;
      receiptModalOpen := true;
      ResetCheckoutForm();
      done := true;
    }
  }
}
