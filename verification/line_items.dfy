/**
  The editor's line-item inputs (invoice-table.tsx:329-370). `startEditing`
  gives the editor a shallow copy of the invoice, so the editor's
  `lineItems` array holds the very objects the table shows; each input
  then copies that array and assigns to one of its objects.

  Line items are objects here, so that the sharing is visible: the
  as-written handlers change an object the table still holds, the
  corrected ones replace the edited entry with a new object.
*/
module LineItems {

  class LineItem {
    var description: string
    var quantity: real
    var unitPrice: real
    var amount: real

    constructor (description: string, quantity: real, unitPrice: real, amount: real)
      ensures this.description == description && this.quantity == quantity
      ensures this.unitPrice == unitPrice && this.amount == amount
    {
      this.description := description;
      this.quantity := quantity;
      this.unitPrice := unitPrice;
      this.amount := amount;
    }
  }

  // ---------------------------------------------------------------------
  // As written: `[...lineItems]` copies the references, then the handler
  // assigns to the shared object.

  /** The description input, as written. */
  method SetDescriptionAsWritten(lineItems: seq<LineItem>, index: nat, description: string)
    returns (updated: seq<LineItem>)
    requires index < |lineItems|
    modifies lineItems[index]
    ensures updated == lineItems
    ensures lineItems[index].description == description
    ensures lineItems[index].quantity == old(lineItems[index].quantity)
    ensures lineItems[index].unitPrice == old(lineItems[index].unitPrice)
    ensures lineItems[index].amount == old(lineItems[index].amount)
  {
    updated := lineItems;
    updated[index].description := description;
  }

  /** The quantity input, as written: the amount is recomputed on the shared object. */
  method SetQuantityAsWritten(lineItems: seq<LineItem>, index: nat, quantity: real)
    returns (updated: seq<LineItem>)
    requires index < |lineItems|
    modifies lineItems[index]
    ensures updated == lineItems
    ensures lineItems[index].quantity == quantity
    ensures lineItems[index].amount == quantity * old(lineItems[index].unitPrice)
    ensures lineItems[index].unitPrice == old(lineItems[index].unitPrice)
    ensures lineItems[index].description == old(lineItems[index].description)
  {
    updated := lineItems;
    updated[index].quantity := quantity;
    updated[index].amount := updated[index].quantity * updated[index].unitPrice;
  }

  /** The unit-price input, as written. */
  method SetUnitPriceAsWritten(lineItems: seq<LineItem>, index: nat, unitPrice: real)
    returns (updated: seq<LineItem>)
    requires index < |lineItems|
    modifies lineItems[index]
    ensures updated == lineItems
    ensures lineItems[index].unitPrice == unitPrice
    ensures lineItems[index].amount == old(lineItems[index].quantity) * unitPrice
    ensures lineItems[index].quantity == old(lineItems[index].quantity)
    ensures lineItems[index].description == old(lineItems[index].description)
  {
    updated := lineItems;
    updated[index].unitPrice := unitPrice;
    updated[index].amount := updated[index].quantity * updated[index].unitPrice;
  }

  /**
    A cancelled edit still changes the table: the table shows an item of
    quantity 5 at 2 each; the editor sets the quantity to 7 and is then
    cancelled, and the table's item now reads quantity 7, amount 14.
  */
  method CancelledEditLeaks() returns (tableQuantity: real, tableAmount: real)
    ensures tableQuantity == 7.0 && tableAmount == 14.0
  {
    var item := new LineItem("Consulting", 5.0, 2.0, 10.0);
    var tableItems := [item];
    var editorItems := tableItems;   // `{...invoice}` shares the `lineItems` array's objects
    var edited := SetQuantityAsWritten(editorItems, 0, 7.0);
    // `cancelEdits` drops `edited`; nothing restores the shared object.
    tableQuantity := tableItems[0].quantity;
    tableAmount := tableItems[0].amount;
  }

  // ---------------------------------------------------------------------
  // Corrected: the edited entry becomes a new object; no existing object
  // is changed (none of these methods has a `modifies` clause).

  /** The description input, corrected. */
  method SetDescription(lineItems: seq<LineItem>, index: nat, description: string)
    returns (updated: seq<LineItem>)
    requires index < |lineItems|
    ensures |updated| == |lineItems|
    ensures forall i :: 0 <= i < |lineItems| && i != index ==> updated[i] == lineItems[i]
    ensures fresh(updated[index])
    ensures updated[index].description == description
    ensures updated[index].quantity == lineItems[index].quantity
    ensures updated[index].unitPrice == lineItems[index].unitPrice
    ensures updated[index].amount == lineItems[index].amount
  {
    var item := lineItems[index];
    var copy := new LineItem(description, item.quantity, item.unitPrice, item.amount);
    updated := lineItems[index := copy];
  }

  /** The quantity input, corrected: the new entry's amount is its quantity times its unit price. */
  method SetQuantity(lineItems: seq<LineItem>, index: nat, quantity: real)
    returns (updated: seq<LineItem>)
    requires index < |lineItems|
    ensures |updated| == |lineItems|
    ensures forall i :: 0 <= i < |lineItems| && i != index ==> updated[i] == lineItems[i]
    ensures fresh(updated[index])
    ensures updated[index].quantity == quantity
    ensures updated[index].unitPrice == lineItems[index].unitPrice
    ensures updated[index].amount == updated[index].quantity * updated[index].unitPrice
    ensures updated[index].description == lineItems[index].description
  {
    var item := lineItems[index];
    var copy := new LineItem(item.description, quantity, item.unitPrice, quantity * item.unitPrice);
    updated := lineItems[index := copy];
  }

  /** The unit-price input, corrected. */
  method SetUnitPrice(lineItems: seq<LineItem>, index: nat, unitPrice: real)
    returns (updated: seq<LineItem>)
    requires index < |lineItems|
    ensures |updated| == |lineItems|
    ensures forall i :: 0 <= i < |lineItems| && i != index ==> updated[i] == lineItems[i]
    ensures fresh(updated[index])
    ensures updated[index].unitPrice == unitPrice
    ensures updated[index].quantity == lineItems[index].quantity
    ensures updated[index].amount == updated[index].quantity * updated[index].unitPrice
    ensures updated[index].description == lineItems[index].description
  {
    var item := lineItems[index];
    var copy := new LineItem(item.description, item.quantity, unitPrice, item.quantity * unitPrice);
    updated := lineItems[index := copy];
  }

  /** With the corrected input, the same cancelled edit leaves the table's item as it was. */
  method CancelledEditKeepsTable() returns (tableQuantity: real, tableAmount: real)
    ensures tableQuantity == 5.0 && tableAmount == 10.0
  {
    var item := new LineItem("Consulting", 5.0, 2.0, 10.0);
    var tableItems := [item];
    var editorItems := tableItems;
    var edited := SetQuantity(editorItems, 0, 7.0);
    tableQuantity := tableItems[0].quantity;
    tableAmount := tableItems[0].amount;
  }
}
