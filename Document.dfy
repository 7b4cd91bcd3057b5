/**
 * The invoice record that the form edits and the preview shows.
 *
 * The record itself is a value: every edit builds a new one with spread syntax. The line items
 * inside it are objects, shared between the old and the new record, and the item editor writes
 * into them in place; they are therefore a class, held by reference.
 */
module Document {

  /** A value that may be missing; `None` stands for JavaScript's NaN where numbers are parsed. */
  datatype Option<+T> = None | Some(value: T)

  /** The field values of one line item at one instant. */
  datatype Row = Row(description: string, quantity: real, unit: string, unitPrice: real)

  /** The item appended by the "add line" button: `{description: '', quantity: 1, unit: 'pcs', unitPrice: 0}`. */
  const DefaultRow := Row("", 1.0, "pcs", 0.0)

  /** A line item object; the form's item editor assigns its fields in place. */
  class LineItem {
    var description: string
    var quantity: real
    var unit: string
    var unitPrice: real

    constructor (row: Row)
      ensures Value() == row
    {
      description, quantity, unit, unitPrice := row.description, row.quantity, row.unit, row.unitPrice;
    }

    /** The item's current field values. */
    function Value(): Row
      reads this
    {
      Row(description, quantity, unit, unitPrice)
    }
  }

  /** What a list of item objects holds right now, position by position. */
  function Rows(items: seq<LineItem>): (rows: seq<Row>)
    reads items
    ensures |rows| == |items|
    ensures forall j :: 0 <= j < |items| ==> rows[j] == items[j].Value()
  {
    if items == [] then [] else [items[0].Value()] + Rows(items[1..])
  }

  lemma RowsConcat(a: seq<LineItem>, b: seq<LineItem>)
    ensures Rows(a + b) == Rows(a) + Rows(b)
  {
    assert forall j :: 0 <= j < |a + b| ==> Rows(a + b)[j] == (Rows(a) + Rows(b))[j];
  }

  lemma RowsSlice(items: seq<LineItem>, i: nat, j: nat)
    requires i <= j <= |items|
    ensures Rows(items[i..j]) == Rows(items)[i..j]
  {
    assert forall k :: 0 <= k < j - i ==> Rows(items[i..j])[k] == Rows(items)[i..j][k];
  }

  /** No item object occupies two positions of the list. */
  predicate Distinct(items: seq<LineItem>)
  {
    forall i, j :: 0 <= i < j < |items| ==> items[i] != items[j]
  }

  /**
   * The supplier record. The initial state copies the whole company profile into it, so it then
   * also carries the bank account and BIC; switching company writes only name, address and
   * registration code, so afterwards those two are absent.
   */
  datatype Company = Company(
    name: string,
    address: string,
    regCode: string,
    bankAccount: Option<string>,
    bic: Option<string>)

  datatype Client = Client(name: string, invoiceTitle: string, address: string, regCode: string)

  datatype Invoice = Invoice(
    company: Company,
    client: Client,
    invoiceNumber: string,
    date: string,
    dueDate: string,
    bankAccount: string,
    bic: string,
    taxRate: real,
    items: seq<LineItem>,
    notes: string)
}
