/**
 * The figures the invoice preview derives from the record: the amount of each table row, the
 * subtotal, the VAT and the total, and whether the notes block is shown. Amounts are exact
 * reals; the preview's two-decimal display formatting is not modelled.
 */
module Preview {
  import opened Document

  /** The amount column of one table row: quantity times unit price, with no clamping. */
  function Amount(row: Row): real
  {
    row.quantity * row.unitPrice
  }

  /** The amount column of the whole table, one entry per item, in order. */
  function Amounts(rows: seq<Row>): (amounts: seq<real>)
    ensures |amounts| == |rows|
    ensures forall i :: 0 <= i < |rows| ==> amounts[i] == Amount(rows[i])
  {
    if rows == [] then [] else [Amount(rows[0])] + Amounts(rows[1..])
  }

  /** Reference sum of a list of numbers. */
  function Sum(xs: seq<real>): real
  {
    if xs == [] then 0.0 else xs[0] + Sum(xs[1..])
  }

  /** The preview's left-to-right `reduce` over the items, starting from accumulator `acc`. */
  function Reduce(acc: real, rows: seq<Row>): real
    decreases rows
  {
    if rows == [] then acc else Reduce(acc + Amount(rows[0]), rows[1..])
  }

  lemma {:induction false} ReduceIsSum(acc: real, rows: seq<Row>)
    decreases rows
    ensures Reduce(acc, rows) == acc + Sum(Amounts(rows))
  {
    if rows != [] {
      ReduceIsSum(acc + Amount(rows[0]), rows[1..]);
      assert Amounts(rows)[1..] == Amounts(rows[1..]);
    }
  }

  /** The subtotal: the reduce started at 0, which is the sum of the row amounts shown. */
  function Subtotal(rows: seq<Row>): (s: real)
    ensures s == Sum(Amounts(rows))
    ensures rows == [] ==> s == 0.0
  {
    ReduceIsSum(0.0, rows);
    Reduce(0.0, rows)
  }

  lemma {:induction false} ReduceSnoc(acc: real, rows: seq<Row>, row: Row)
    decreases rows
    ensures Reduce(acc, rows + [row]) == Reduce(acc, rows) + Amount(row)
  {
    if rows != [] {
      assert (rows + [row])[1..] == rows[1..] + [row];
      ReduceSnoc(acc + Amount(rows[0]), rows[1..], row);
    }
  }

  /** Appending one item raises the subtotal by exactly that item's amount. */
  lemma SubtotalAppend(rows: seq<Row>, row: Row)
    ensures Subtotal(rows + [row]) == Subtotal(rows) + Amount(row)
  {
    ReduceSnoc(0.0, rows, row);
  }

  /** Appending the default item (quantity 1, price 0) leaves the subtotal as it was. */
  lemma AppendDefaultKeepsSubtotal(rows: seq<Row>)
    ensures Subtotal(rows + [DefaultRow]) == Subtotal(rows)
  {
    SubtotalAppend(rows, DefaultRow);
  }

  datatype Totals = Totals(subtotal: real, vat: real, total: real)

  /** Subtotal, VAT at `taxRate` percent, and total. */
  function ComputeTotals(rows: seq<Row>, taxRate: real): (t: Totals)
    ensures t.subtotal == Sum(Amounts(rows))
    ensures t.vat == t.subtotal * taxRate / 100.0
    ensures t.total == t.subtotal + t.vat
    ensures t.total == t.subtotal * (1.0 + taxRate / 100.0)
    ensures taxRate == 0.0 ==> t.vat == 0.0 && t.total == t.subtotal
  {
    var subtotal := Subtotal(rows);
    var vat := subtotal * taxRate / 100.0;
    Totals(subtotal, vat, subtotal + vat)
  }

  /** The totals of the invoice as its item objects hold them now. */
  function InvoiceTotals(data: Invoice): (t: Totals)
    reads data.items
    ensures t.subtotal == Sum(Amounts(Rows(data.items)))
    ensures t.vat == t.subtotal * data.taxRate / 100.0
    ensures t.total == t.subtotal + t.vat
  {
    ComputeTotals(Rows(data.items), data.taxRate)
  }

  /** Worked example: items (2, 50) and (1, 100) at 22 % give 200, 44 and 244. */
  lemma ExampleTotals()
    ensures ComputeTotals([Row("", 2.0, "", 50.0), Row("", 1.0, "", 100.0)], 22.0)
         == Totals(200.0, 44.0, 244.0)
  {
  }

  /** Worked example: 3 at 19.99 with no tax gives subtotal 59.97, VAT 0 and total 59.97. */
  lemma ExampleNoTax()
    ensures ComputeTotals([Row("", 3.0, "", 19.99)], 0.0) == Totals(59.97, 0.0, 59.97)
  {
  }

  /** A negative quantity is not clamped: it flows into subtotal, VAT and total. */
  lemma ExampleNegativeQuantity()
    ensures ComputeTotals([Row("", -2.0, "", 50.0), Row("", 1.0, "", 30.0)], 22.0)
         == Totals(-70.0, -15.4, -85.4)
  {
  }

  /** The notes block: shown, with the notes text, exactly when the notes are non-empty. */
  function NotesBlock(data: Invoice): (block: Option<string>)
    ensures block.Some? <==> |data.notes| > 0
    ensures block.Some? ==> block.value == data.notes
  {
    if data.notes != "" then Some(data.notes) else None
  }
}
