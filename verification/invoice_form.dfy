/**
 * The new-invoice form: an editor over a never-empty list of line items,
 * each with an amount derived from quantity and unit price, the document
 * totals computed from the list and the tax rate, and the submit step that
 * checks the customer and shapes the payload sent to the backend.
 * Money is exact `real` arithmetic.
 */
module InvoiceForm {
  import opened Js

  datatype LineItem = LineItem(description: string, quantity: NumInput, unitPrice: NumInput, amount: real)

  /** The row a new invoice starts with and `addItem` appends. */
  function DefaultItem(): LineItem {
    LineItem("", Stored(1.0), Stored(0.0), 0.0)
  }

  /** `parseFloat(quantity || 0) * parseFloat(unitPrice || 0)`. */
  function LineAmount(quantity: NumInput, unitPrice: NumInput): real {
    OrZero(quantity) * OrZero(unitPrice)
  }

  /** The derived-amount invariant of a row. */
  predicate Consistent(item: LineItem) {
    item.amount == LineAmount(item.quantity, item.unitPrice)
  }

  /** One call of `handleItemChange` for a row: which field, and the input's new value. */
  datatype ItemEdit = EditDescription(text: string) | EditQuantity(quantity: NumInput) | EditUnitPrice(unitPrice: NumInput)

  /**
   * The row after an edit: the edited field takes the new value; an edit
   * of quantity or unit price re-derives the amount from the row's current
   * quantity and unit price, an edit of the description leaves the amount alone.
   */
  function ApplyEdit(item: LineItem, edit: ItemEdit): (r: LineItem)
    ensures edit.EditDescription? ==>
      r == item.(description := edit.text)
    ensures edit.EditQuantity? ==>
      r.description == item.description && r.quantity == edit.quantity && r.unitPrice == item.unitPrice
    ensures edit.EditUnitPrice? ==>
      r.description == item.description && r.quantity == item.quantity && r.unitPrice == edit.unitPrice
    ensures !edit.EditDescription? ==> r.amount == OrZero(r.quantity) * OrZero(r.unitPrice)
    ensures Consistent(item) ==> Consistent(r)
  {
    match edit
    case EditDescription(text) => item.(description := text)
    case EditQuantity(q) => var it := item.(quantity := q); it.(amount := LineAmount(it.quantity, it.unitPrice))
    case EditUnitPrice(p) => var it := item.(unitPrice := p); it.(amount := LineAmount(it.quantity, it.unitPrice))
  }

  /** `items.filter((_, i) => i !== index)`, walking the list as `filter` does. */
  function FilterOutIndex(items: seq<LineItem>, index: int): seq<LineItem>
  {
    FilterFrom(items, 0, index)
  }

  /** The elements of `items` whose position, counted from `offset`, differs from `index`. */
  function FilterFrom(items: seq<LineItem>, offset: int, index: int): seq<LineItem>
    decreases |items|
  {
    if items == [] then []
    else (if offset == index then [] else [items[0]]) + FilterFrom(items[1..], offset + 1, index)
  }

  lemma {:induction false} FilterFromNoMatch(items: seq<LineItem>, offset: int, index: int)
    requires index < offset || index >= offset + |items|
    ensures FilterFrom(items, offset, index) == items
    decreases |items|
  {
    if items != [] {
      FilterFromNoMatch(items[1..], offset + 1, index);
      assert items == [items[0]] + items[1..];
    }
  }

  lemma {:induction false} FilterFromMatch(items: seq<LineItem>, offset: int, index: int)
    requires offset <= index < offset + |items|
    ensures FilterFrom(items, offset, index) == items[..index - offset] + items[index - offset + 1..]
    decreases |items|
  {
    var rest := items[1..];
    var k := index - offset;
    if k == 0 {
      FilterFromNoMatch(rest, offset + 1, index);
      assert FilterFrom(items, offset, index) == [] + rest;
      assert items[..0] + items[1..] == rest;
    } else {
      FilterFromMatch(rest, offset + 1, index);
      assert FilterFrom(items, offset, index) == [items[0]] + (rest[..k - 1] + rest[k..]);
      assert items[..k] == [items[0]] + rest[..k - 1];
      assert items[k + 1..] == rest[k..];
    }
  }

  /**
   * Filtering out a position drops exactly the element at that position and
   * keeps the others in order; a position outside the list removes nothing.
   */
  lemma FilterOutIndexSpec(items: seq<LineItem>, index: int)
    ensures 0 <= index < |items| ==> FilterOutIndex(items, index) == items[..index] + items[index + 1..]
    ensures !(0 <= index < |items|) ==> FilterOutIndex(items, index) == items
  {
    if 0 <= index < |items| {
      FilterFromMatch(items, 0, index);
    } else {
      FilterFromNoMatch(items, 0, index);
    }
  }

  /** The list after `removeItem(index)`: unchanged unless it has more than one row. */
  function RemovedItems(items: seq<LineItem>, index: int): (r: seq<LineItem>)
    ensures |items| <= 1 ==> r == items
    ensures |items| > 1 && 0 <= index < |items| ==> r == items[..index] + items[index + 1..]
    ensures |items| > 1 && !(0 <= index < |items|) ==> r == items
    ensures |items| >= 1 ==> |r| >= 1
  {
    FilterOutIndexSpec(items, index);
    if |items| > 1 then FilterOutIndex(items, index) else items
  }

  // ---------------------------------------------------------------------
  // Totals

  datatype Totals = Totals(subtotal: real, taxAmount: real, total: real)

  /** Reference sum of the amounts (`parseFloat(item.amount || 0)` is the amount itself). */
  function SumAmounts(items: seq<LineItem>): real {
    if items == [] then 0.0 else items[0].amount + SumAmounts(items[1..])
  }

  /** `items.reduce((sum, item) => sum + item.amount, acc)`: a left fold. */
  function ReduceAmounts(acc: real, items: seq<LineItem>): (r: real)
    ensures r == acc + SumAmounts(items)
    decreases |items|
  {
    if items == [] then acc else ReduceAmounts(acc + items[0].amount, items[1..])
  }

  /**
   * `calculateTotals`: subtotal is the sum of the amounts, the tax is
   * subtotal × rate / 100 with a blank rate read as 0, and the total is
   * subtotal plus tax, i.e. subtotal × (1 + rate / 100).
   */
  function CalculateTotals(items: seq<LineItem>, taxRate: NumInput): (t: Totals)
    ensures t.subtotal == SumAmounts(items)
    ensures t.taxAmount == t.subtotal * OrZero(taxRate) / 100.0
    ensures t.total == t.subtotal + t.taxAmount
    ensures t.total == SumAmounts(items) * (1.0 + OrZero(taxRate) / 100.0)
  {
    var subtotal := ReduceAmounts(0.0, items);
    var taxAmount := (subtotal * OrZero(taxRate)) / 100.0;
    Totals(subtotal, taxAmount, subtotal + taxAmount)
  }

  lemma {:induction false} SumAmountsConcat(a: seq<LineItem>, b: seq<LineItem>)
    ensures SumAmounts(a + b) == SumAmounts(a) + SumAmounts(b)
  {
    if a != [] {
      SumAmountsConcat(a[1..], b);
      assert (a + b)[1..] == a[1..] + b;
    } else {
      assert a + b == b;
    }
  }

  /** Appending a row adds exactly its amount to the subtotal. */
  lemma SumAmountsAppend(items: seq<LineItem>, item: LineItem)
    ensures SumAmounts(items + [item]) == SumAmounts(items) + item.amount
  {
    SumAmountsConcat(items, [item]);
  }

  /** The sum over a list split around one row. */
  lemma SumAmountsSplit(a: seq<LineItem>, x: LineItem, b: seq<LineItem>)
    ensures SumAmounts(a + [x] + b) == SumAmounts(a) + x.amount + SumAmounts(b)
  {
    SumAmountsConcat(a + [x], b);
    SumAmountsConcat(a, [x]);
  }

  /** Dropping the row at `index` subtracts exactly its amount from the subtotal. */
  lemma SumAmountsRemove(items: seq<LineItem>, index: nat)
    requires index < |items|
    ensures SumAmounts(items[..index] + items[index + 1..]) == SumAmounts(items) - items[index].amount
  {
    var front, back := items[..index], items[index + 1..];
    assert items == front + [items[index]] + back;
    SumAmountsSplit(front, items[index], back);
    SumAmountsConcat(front, back);
  }

  /** Replacing the row at `index` changes the subtotal by the difference of the two amounts. */
  lemma SumAmountsReplace(items: seq<LineItem>, index: nat, item: LineItem)
    requires index < |items|
    ensures SumAmounts(items[index := item]) == SumAmounts(items) - items[index].amount + item.amount
  {
    var front, back := items[..index], items[index + 1..];
    assert items[index := item] == front + [item] + back;
    assert items == front + [items[index]] + back;
    SumAmountsSplit(front, item, back);
    SumAmountsSplit(front, items[index], back);
  }

  /** The first row's amount plus the sum of the others. */
  lemma SumAmountsCons(a: seq<LineItem>)
    requires a != []
    ensures SumAmounts(a) == a[0].amount + SumAmounts(a[1..])
  {
  }

  /** A position at which a member of the multiset of rows sits. */
  lemma IndexOf(b: seq<LineItem>, x: LineItem) returns (j: nat)
    requires x in multiset(b)
    ensures j < |b| && b[j] == x
  {
    j :| 0 <= j < |b| && b[j] == x;
  }

  /** Taking out the row at `j` takes exactly one copy of it out of the multiset of rows. */
  lemma MultisetRemoveAt(b: seq<LineItem>, j: nat)
    requires j < |b|
    ensures multiset(b[..j] + b[j + 1..]) == multiset(b) - multiset{b[j]}
  {
    assert b == b[..j] + [b[j]] + b[j + 1..];
  }

  /** Matching the first row of `a` with row `j` of `b` leaves two permutations of each other. */
  lemma PermutationTail(a: seq<LineItem>, b: seq<LineItem>, j: nat)
    requires multiset(a) == multiset(b)
    requires a != [] && j < |b| && b[j] == a[0]
    ensures multiset(a[1..]) == multiset(b[..j] + b[j + 1..])
  {
    MultisetRemoveAt(a, 0);
    MultisetRemoveAt(b, j);
    calc {
      multiset(a[1..]);
      { assert a[..0] + a[1..] == a[1..]; }
      multiset(a[..0] + a[1..]);
      multiset(a) - multiset{a[0]};
      multiset(b) - multiset{b[j]};
      multiset(b[..j] + b[j + 1..]);
    }
  }

  /** The totals do not depend on the order of the rows. */
  lemma {:induction false} SumAmountsPermutation(a: seq<LineItem>, b: seq<LineItem>)
    requires multiset(a) == multiset(b)
    ensures SumAmounts(a) == SumAmounts(b)
    decreases |a|
  {
    if a == [] {
      assert |b| == |multiset(b)| == 0;
    } else {
      var j := IndexOf(b, a[0]);
      PermutationTail(a, b, j);
      SumAmountsPermutation(a[1..], b[..j] + b[j + 1..]);
      SumAmountsRemove(b, j);
      SumAmountsCons(a);
    }
  }

  // ---------------------------------------------------------------------
  // Submit

  /**
   * The invoice-level form fields. The customer select holds '' until a
   * customer is chosen, then the chosen customer's id, modelled as
   * `Some(id)` (parseInt of an id's own decimal text is the id).
   */
  datatype Header = Header(customerId: Option<int>, invoiceDate: string, dueDate: string, taxRate: NumInput, notes: string)

  datatype PayloadItem = PayloadItem(description: string, quantity: Option<real>, unitPrice: Option<real>, amount: real)

  datatype InvoicePayload = InvoicePayload(
    customerId: int, invoiceDate: string, dueDate: string, notes: string,
    taxRate: Option<real>, subtotal: real, taxAmount: real, total: real,
    items: seq<PayloadItem>)

  datatype Result<T> = Success(value: T) | Failure(error: string)

  const SelectCustomerError := "Please select a customer"
  const CreateError := "Error creating invoice"

  function ToPayloadItem(item: LineItem): PayloadItem {
    PayloadItem(item.description, ParseFloat(item.quantity), ParseFloat(item.unitPrice), item.amount)
  }

  /**
   * The validation and payload shaping of `handleSubmit`: no customer is
   * an error and nothing is built; otherwise the payload carries the
   * header fields, the totals of `calculateTotals` and one entry per row
   * in the same order.
   */
  function BuildInvoice(header: Header, items: seq<LineItem>): (r: Result<InvoicePayload>)
    ensures r.Failure? <==> header.customerId.None?
    ensures r.Failure? ==> r.error == SelectCustomerError
    ensures r.Success? ==>
      && r.value.customerId == header.customerId.value
      && r.value.invoiceDate == header.invoiceDate && r.value.dueDate == header.dueDate
      && r.value.notes == header.notes && r.value.taxRate == ParseFloat(header.taxRate)
      && Totals(r.value.subtotal, r.value.taxAmount, r.value.total) == CalculateTotals(items, header.taxRate)
      && r.value.subtotal == SumAmounts(items)
      && |r.value.items| == |items|
      && forall i | 0 <= i < |items| ::
           r.value.items[i].description == items[i].description
           && r.value.items[i].amount == items[i].amount
           && r.value.items[i].quantity == ParseFloat(items[i].quantity)
           && r.value.items[i].unitPrice == ParseFloat(items[i].unitPrice)
  {
    if header.customerId.None? then Failure(SelectCustomerError)
    else
      var t := CalculateTotals(items, header.taxRate);
      Success(InvoicePayload(
        header.customerId.value, header.invoiceDate, header.dueDate, header.notes,
        ParseFloat(header.taxRate), t.subtotal, t.taxAmount, t.total,
        seq(|items|, i requires 0 <= i < |items| => ToPayloadItem(items[i]))))
  }

  // ---------------------------------------------------------------------
  // The editor state

  class InvoiceEditor {
    var header: Header
    var items: seq<LineItem>
    var error: string

    /** The list is never empty and every row's amount is derived from its quantity and price. */
    ghost predicate Valid()
      reads this
    {
      |items| >= 1 && forall i | 0 <= i < |items| :: Consistent(items[i])
    }

    /** A fresh form: one default row, tax rate 21, no customer, the given issue date. */
    constructor (today: string)
      ensures Valid()
      ensures items == [DefaultItem()]
      ensures header == Header(None, today, "", Stored(21.0), "")
      ensures error == ""
    {
      header := Header(None, today, "", Stored(21.0), "");
      items := [DefaultItem()];
      error := "";
    }

    /** The subtotal, tax and total the form displays for its current rows and tax rate. */
    function CurrentTotals(): Totals
      reads this
    {
      CalculateTotals(items, header.taxRate)
    }

    /** `addItem`: one default row appended; the subtotal is unchanged. */
    method AddItem()
      requires Valid()
      modifies this`items
      ensures Valid()
      ensures items == old(items) + [DefaultItem()]
      ensures SumAmounts(items) == SumAmounts(old(items))
      ensures CurrentTotals() == old(CurrentTotals())
    {
      SumAmountsAppend(items, DefaultItem());
      items := items + [DefaultItem()];
    }

    /**
     * `removeItem(index)`: a one-row list is left alone; otherwise the row
     * at `index` is dropped (none for an index outside the list) and the
     * subtotal loses exactly its amount.
     */
    method RemoveItem(index: int)
      requires Valid()
      modifies this`items
      ensures Valid()
      ensures items == RemovedItems(old(items), index)
      ensures |old(items)| == 1 ==> items == old(items)
      ensures |old(items)| > 1 && 0 <= index < |old(items)| ==>
        |items| == |old(items)| - 1 && SumAmounts(items) == SumAmounts(old(items)) - old(items)[index].amount
    {
      if |items| > 1 {
        if 0 <= index < |items| {
          SumAmountsRemove(items, index);
        }
        FilterOutIndexSpec(items, index);
        items := FilterOutIndex(items, index);
      }
    }

    /**
     * `handleItemChange(index, field, value)`: only row `index` changes, as
     * `ApplyEdit` says; the subtotal moves by the change in its amount.
     */
    method ChangeItem(index: nat, edit: ItemEdit)
      requires Valid()
      requires index < |items|
      modifies this`items
      ensures Valid()
      ensures items == old(items)[index := ApplyEdit(old(items)[index], edit)]
      ensures SumAmounts(items) == SumAmounts(old(items)) - old(items)[index].amount + items[index].amount
    {
      var updated := ApplyEdit(items[index], edit);
      SumAmountsReplace(items, index, updated);
      items := items[index := updated];
    }

    /**
     * `handleSubmit`: clears the error, then either reports the missing
     * customer and sends nothing, or sends `BuildInvoice`'s payload;
     * `created` is the backend's answer, and a failure sets the create error.
     */
    method Submit(created: bool) returns (sent: Option<InvoicePayload>)
      modifies this`error
      ensures header.customerId.None? ==> sent.None? && error == SelectCustomerError
      ensures header.customerId.Some? ==>
        && sent == Some(BuildInvoice(header, items).value)
        && error == (if created then "" else CreateError)
    {
      error := "";
      var built := BuildInvoice(header, items);
      if built.Failure? {
        error := built.error;
        sent := None;
        return;
      }
      sent := Some(built.value);
      if !created {
        error := CreateError;
      }
    }
  }

  /**
   * Two rows, 2 × 10.00 and 1 × 5.50, at 21% give a subtotal of 25.50, a tax
   * of 5.355 and a total of 30.855, unrounded.
   */
  lemma WorkedExample()
    ensures CalculateTotals(
              [LineItem("", Typed(2.0), Typed(10.0), 20.0), LineItem("", Typed(1.0), Typed(5.5), 5.5)],
              Stored(21.0))
      == Totals(25.5, 5.355, 30.855)
  {
    var items := [LineItem("", Typed(2.0), Typed(10.0), 20.0), LineItem("", Typed(1.0), Typed(5.5), 5.5)];
    assert SumAmounts(items) == 25.5 by {
      assert items[1..][1..] == [];
    }
  }
}
