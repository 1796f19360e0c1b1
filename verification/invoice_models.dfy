/**
 * The validated invoice input records of `invoices/models.py`. Validation
 * follows the record parser's order: fields are checked in declaration
 * order, a field's own bounds are checked before its validator, and a
 * validator sees only the earlier fields that passed. A failed record is
 * the list of the fields that failed, in declaration order.
 */
module InvoiceModels {
  import opened Wrappers
  import opened Calendar
  import Folds

  const DefaultItemTaxRate: real := 0.18

  /** The fields of an `InvoiceItem` as supplied; `None` is a field left out. */
  datatype ItemInput = ItemInput(
    name: string,
    description: Option<string>,
    quantity: real,
    unitPrice: real,
    totalPrice: Option<real>,
    taxRate: Option<real>,
    taxAmount: Option<real>)

  /** A validated item, with its computed total and tax. */
  datatype InvoiceItem = InvoiceItem(
    name: string,
    description: Option<string>,
    quantity: real,
    unitPrice: real,
    totalPrice: real,
    taxRate: real,
    taxAmount: real)

  function ItemTotal(item: InvoiceItem): real {
    item.totalPrice
  }

  function ItemTax(item: InvoiceItem): real {
    item.taxAmount
  }

  /** The fields of an item input that fail their declared bounds, in declaration order. */
  function ItemErrors(input: ItemInput): (r: seq<string>)
    ensures r == [] <==>
      1 <= |input.name| <= 200
      && (input.description.Some? ==> |input.description.value| <= 500)
      && input.quantity > 0.0
      && input.unitPrice >= 0.0
      && input.totalPrice.Some? && input.totalPrice.value >= 0.0
      && (input.taxRate.Some? ==> 0.0 <= input.taxRate.value <= 1.0)
      && (input.taxAmount.Some? ==> input.taxAmount.value >= 0.0)
  {
    (if 1 <= |input.name| <= 200 then [] else ["name"])
    + (if input.description.Some? && |input.description.value| > 500 then ["description"] else [])
    + (if input.quantity > 0.0 then [] else ["quantity"])
    + (if input.unitPrice >= 0.0 then [] else ["unit_price"])
    + (if input.totalPrice.Some? && input.totalPrice.value >= 0.0 then [] else ["total_price"])
    + (if input.taxRate.Some? && !(0.0 <= input.taxRate.value <= 1.0) then ["tax_rate"] else [])
    + (if input.taxAmount.Some? && input.taxAmount.value < 0.0 then ["tax_amount"] else [])
  }

  /**
   * `InvoiceItem(...)`: the supplied total and tax are replaced by
   * quantity × unit price and total × tax rate (0.18 when no rate is given).
   */
  function ValidateItem(input: ItemInput): (r: Result<InvoiceItem, seq<string>>)
    ensures r.Err? <==> ItemErrors(input) != []
    ensures r.Err? ==> r.error == ItemErrors(input)
    ensures r.Ok? ==>
      r.value.totalPrice == input.quantity * input.unitPrice
      && r.value.taxRate == input.taxRate.GetOr(DefaultItemTaxRate)
      && r.value.taxAmount == r.value.totalPrice * r.value.taxRate
      && 0.0 <= r.value.taxRate <= 1.0
  {
    var errors := ItemErrors(input);
    if errors != [] then Err(errors)
    else
      var total := input.quantity * input.unitPrice;
      var rate := input.taxRate.GetOr(DefaultItemTaxRate);
      Ok(InvoiceItem(input.name, input.description, input.quantity, input.unitPrice, total, rate, total * rate))
  }

  /** A validated item's total and tax are never negative, and the tax never exceeds the total. */
  lemma ItemAmountsNonNegative(input: ItemInput)
    requires ValidateItem(input).Ok?
    ensures var item := ValidateItem(input).value;
      item.totalPrice >= 0.0 && 0.0 <= item.taxAmount <= item.totalPrice
  {
    var item := ValidateItem(input).value;
    MulNonNegative(input.quantity, input.unitPrice);
    MulNonNegative(item.totalPrice, item.taxRate);
    assert item.totalPrice - item.taxAmount == item.totalPrice * (1.0 - item.taxRate);
    MulNonNegative(item.totalPrice, 1.0 - item.taxRate);
  }

  lemma MulNonNegative(a: real, b: real)
    requires a >= 0.0 && b >= 0.0
    ensures a * b >= 0.0
  {
  }

  /** The supplied total and tax of an item play no part in the validated amounts. */
  lemma ItemSuppliedAmountsIgnored(input: ItemInput, total: real, tax: real)
    requires ValidateItem(input).Ok? && total >= 0.0 && tax >= 0.0
    ensures var other := input.(totalPrice := Some(total), taxAmount := Some(tax));
      ValidateItem(other).Ok? && ValidateItem(other).value == ValidateItem(input).value
  {
  }

  // ---------------------------------------------------------------------
  // Invoices

  /** The fields of an `InvoiceBase` as supplied; `issueDate` is `None` when left to default to today. */
  datatype InvoiceInput = InvoiceInput(
    customerId: string,
    issueDate: Option<Day>,
    dueDate: Day,
    items: seq<ItemInput>,
    notes: Option<string>,
    terms: Option<string>,
    discountAmount: real)

  /** A validated invoice with its computed amounts. */
  datatype InvoiceDraft = InvoiceDraft(
    customerId: string,
    issueDate: Day,
    dueDate: Day,
    items: seq<InvoiceItem>,
    subtotal: real,
    taxAmount: real,
    totalAmount: real,
    discountAmount: real)

  /** The items that validate, or `None` when any item fails. */
  function ValidateItems(inputs: seq<ItemInput>): (r: Option<seq<InvoiceItem>>)
    ensures r.Some? <==> forall i :: 0 <= i < |inputs| ==> ValidateItem(inputs[i]).Ok?
    ensures r.Some? ==> |r.value| == |inputs| && forall i :: 0 <= i < |inputs| ==> r.value[i] == ValidateItem(inputs[i]).value
  {
    if inputs == [] then Some([])
    else
      var head := ValidateItem(inputs[0]);
      var rest := ValidateItems(inputs[1..]);
      if head.Ok? && rest.Some? then Some([head.value] + rest.value)
      else None
  }

  /** The fields of an invoice input that fail, in declaration order. */
  function InvoiceErrors(input: InvoiceInput, today: Day): seq<string> {
    var issue := input.issueDate.GetOr(today);
    (if |input.customerId| >= 1 then [] else ["customer_id"])
    + (if input.dueDate < issue then ["due_date"] else [])
    + (if |input.items| >= 1 && ValidateItems(input.items).Some? then [] else ["items"])
    + (if input.notes.Some? && |input.notes.value| > 1000 then ["notes"] else [])
    + (if input.terms.Some? && |input.terms.value| > 2000 then ["terms_and_conditions"] else [])
    + (if input.discountAmount >= 0.0 then [] else ["discount_amount"])
  }

  /**
   * `InvoiceCreate(...)`: the subtotal and tax are the sums over the items;
   * the total is computed before `discount_amount` is validated, so the
   * discount is never subtracted.
   */
  function ValidateInvoice(input: InvoiceInput, today: Day): (r: Result<InvoiceDraft, seq<string>>)
    ensures r.Err? <==> InvoiceErrors(input, today) != []
    ensures r.Ok? ==>
      r.value.customerId == input.customerId
      && r.value.issueDate == input.issueDate.GetOr(today)
      && r.value.dueDate == input.dueDate
      && r.value.dueDate >= r.value.issueDate
      && r.value.discountAmount == input.discountAmount
      && |r.value.items| == |input.items| >= 1
      && (forall i :: 0 <= i < |input.items| ==> r.value.items[i] == ValidateItem(input.items[i]).value)
      && r.value.subtotal == Folds.Sum(r.value.items, ItemTotal)
      && r.value.taxAmount == Folds.Sum(r.value.items, ItemTax)
      && r.value.totalAmount == r.value.subtotal + r.value.taxAmount
  {
    var errors := InvoiceErrors(input, today);
    if errors != [] then Err(errors)
    else
      var items := ValidateItems(input.items).value;
      var subtotal := Folds.Sum(items, ItemTotal);
      var tax := Folds.Sum(items, ItemTax);
      Ok(InvoiceDraft(input.customerId, input.issueDate.GetOr(today), input.dueDate, items,
        subtotal, tax, subtotal + tax, input.discountAmount))
  }

  /** A due date before the issue date is refused, and it is the only date rule. */
  lemma DueDateRule(input: InvoiceInput, today: Day)
    ensures input.dueDate < input.issueDate.GetOr(today) ==>
      ValidateInvoice(input, today).Err? && "due_date" in ValidateInvoice(input, today).error
    ensures input.dueDate >= input.issueDate.GetOr(today) ==> "due_date" !in InvoiceErrors(input, today)
  {
    var errs := InvoiceErrors(input, today);
    if input.dueDate < input.issueDate.GetOr(today) {
      var a := if |input.customerId| >= 1 then [] else ["customer_id"];
      assert errs[|a|] == "due_date";
    }
  }

  /** An invoice without items is refused. */
  lemma ItemsRequired(input: InvoiceInput, today: Day)
    requires input.items == []
    ensures ValidateInvoice(input, today).Err?
  {
    assert "items" in InvoiceErrors(input, today);
  }

  /** The discount changes neither whether an invoice validates nor its total. */
  lemma DiscountIgnored(input: InvoiceInput, today: Day, discount: real)
    requires discount >= 0.0 && input.discountAmount >= 0.0
    ensures var other := input.(discountAmount := discount);
      ValidateInvoice(other, today).Ok? == ValidateInvoice(input, today).Ok?
      && (ValidateInvoice(input, today).Ok? ==>
            ValidateInvoice(other, today).value.totalAmount == ValidateInvoice(input, today).value.totalAmount)
  {
  }

  /** With every item validated, the total is the sum of quantity × unit price × (1 + rate) over the items. */
  lemma {:induction false} TotalOfItems(items: seq<InvoiceItem>)
    requires forall i :: 0 <= i < |items| ==> items[i].taxAmount == items[i].totalPrice * items[i].taxRate
    ensures Folds.Sum(items, ItemTotal) + Folds.Sum(items, ItemTax) == Folds.Sum(items, ItemGross)
  {
    if items != [] {
      TotalOfItems(items[1..]);
    }
  }

  /** An item's total with its tax. */
  function ItemGross(item: InvoiceItem): real {
    item.totalPrice * (1.0 + item.taxRate)
  }

  // ---------------------------------------------------------------------
  // Listing filter

  /** The amount bounds of an `InvoiceFilter`. */
  datatype AmountRange = AmountRange(minAmount: Option<real>, maxAmount: Option<real>)

  /**
   * `InvoiceFilter(...)` on its amount fields: each bound must be
   * non-negative, and the maximum is compared with the minimum only when a
   * minimum was given and passed its own check.
   */
  function ValidateAmountRange(minAmount: Option<real>, maxAmount: Option<real>): (r: Result<AmountRange, seq<string>>)
    ensures r.Ok? <==>
      (minAmount.Some? ==> minAmount.value >= 0.0)
      && (maxAmount.Some? ==> maxAmount.value >= 0.0)
      && (minAmount.Some? && maxAmount.Some? ==> maxAmount.value >= minAmount.value)
    ensures r.Ok? ==> r.value == AmountRange(minAmount, maxAmount)
  {
    var minOk := minAmount.None? || minAmount.value >= 0.0;
    var maxBound := maxAmount.Some? && maxAmount.value < 0.0;
    var rangeErr := maxAmount.Some? && !maxBound && minAmount.Some? && minOk && maxAmount.value < minAmount.value;
    var errors := (if minOk then [] else ["min_amount"]) + (if maxBound || rangeErr then ["max_amount"] else []);
    if errors == [] then Ok(AmountRange(minAmount, maxAmount)) else Err(errors)
  }

  /** A negative minimum is reported by itself: the range check is skipped. */
  lemma NegativeMinimumSkipsRange(minAmount: real, maxAmount: real)
    requires minAmount < 0.0 && maxAmount >= 0.0
    ensures ValidateAmountRange(Some(minAmount), Some(maxAmount)) == Err(["min_amount"])
  {
    assert ["min_amount"] + [] == ["min_amount"];
  }
}
