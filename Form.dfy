/**
 * The invoice form's edit handlers. Each takes the current invoice and yields the next one,
 * which the form hands to the application. All of them except the item editor build a new record
 * by spread; the item editor copies the item list shallowly and writes into the item object
 * itself, so the object is shared with the previous invoice. Number parsing is a parameter
 * `parse` whose `None` stands for NaN.
 */
module Form {
  import opened Document

  /** The text fields the form edits with the generic field handler. */
  datatype TextField = InvoiceNumber | Date | DueDate | Notes

  function TextOf(data: Invoice, f: TextField): string
  {
    match f
    case InvoiceNumber => data.invoiceNumber
    case Date => data.date
    case DueDate => data.dueDate
    case Notes => data.notes
  }

  /** The invoice fields that no text-field, number or client edit touches. */
  predicate SameSupplierAndItems(a: Invoice, b: Invoice)
  {
    a.company == b.company && a.bankAccount == b.bankAccount && a.bic == b.bic && a.items == b.items
  }

  /** Field handler: field `f` takes the input text, and nothing else changes. */
  function HandleFieldChange(data: Invoice, f: TextField, value: string): (next: Invoice)
    ensures TextOf(next, f) == value
    ensures forall g :: g != f ==> TextOf(next, g) == TextOf(data, g)
    ensures SameSupplierAndItems(next, data)
    ensures next.client == data.client && next.taxRate == data.taxRate
  {
    match f
    case InvoiceNumber => data.(invoiceNumber := value)
    case Date => data.(date := value)
    case DueDate => data.(dueDate := value)
    case Notes => data.(notes := value)
  }

  /** Setting a text field to the text it already holds gives back the same invoice. */
  lemma FieldChangeToSameValue(data: Invoice, f: TextField)
    ensures HandleFieldChange(data, f, TextOf(data, f)) == data
  {
    match f
    case InvoiceNumber =>
    case Date =>
    case DueDate =>
    case Notes =>
  }

  /** A parsed number, or 0 where parsing gave NaN. */
  function OrZero(parsed: Option<real>): (v: real)
    ensures parsed.None? ==> v == 0.0
    ensures parsed.Some? ==> v == parsed.value
  {
    match parsed
    case Some(v) => v
    case None => 0.0
  }

  /** The numeric fields edited by the number handler. */
  datatype NumberField = TaxRate

  /** Number handler: the field takes the parsed number, or 0 on a parse failure; nothing else changes. */
  function HandleNumberChange(data: Invoice, f: NumberField, text: string, parse: string -> Option<real>): (next: Invoice)
    ensures parse(text).None? ==> next.taxRate == 0.0
    ensures parse(text).Some? ==> next.taxRate == parse(text).value
    ensures forall g :: TextOf(next, g) == TextOf(data, g)
    ensures SameSupplierAndItems(next, data) && next.client == data.client
  {
    match f
    case TaxRate => data.(taxRate := OrZero(parse(text)))
  }

  /** The fields of a line item. */
  datatype ItemField = Description | Quantity | Unit | UnitPrice

  /**
   * The item `row` after the item editor writes input `text` into `field`: quantity and unit
   * price take the parsed number or 0, the other two take the text as it is.
   */
  function WithField(row: Row, field: ItemField, text: string, parsed: Option<real>): Row
  {
    match field
    case Description => row.(description := text)
    case Quantity => row.(quantity := OrZero(parsed))
    case Unit => row.(unit := text)
    case UnitPrice => row.(unitPrice := OrZero(parsed))
  }

  /**
   * Item handler. The new invoice holds a copy of the item list with the same objects, and the
   * object at `idx` is written in place, so the previous invoice `data` sees the change too. Every
   * position holding that same object changes; when the objects are distinct, only position `idx`.
   */
  method HandleItemChange(data: Invoice, idx: nat, field: ItemField, text: string, parse: string -> Option<real>)
    returns (next: Invoice)
    requires idx < |data.items|
    modifies data.items[idx]
    ensures next.items == data.items
    ensures forall g :: TextOf(next, g) == TextOf(data, g)
    ensures next.company == data.company && next.client == data.client && next.taxRate == data.taxRate
    ensures next.bankAccount == data.bankAccount && next.bic == data.bic
    ensures data.items[idx].Value() == WithField(old(data.items[idx].Value()), field, text, parse(text))
    ensures forall j :: 0 <= j < |data.items| && data.items[j] != data.items[idx] ==>
              data.items[j].Value() == old(data.items[j].Value())
    ensures Distinct(data.items) ==>
              Rows(next.items) == old(Rows(data.items))[idx := WithField(old(data.items[idx].Value()), field, text, parse(text))]
    ensures Distinct(data.items) ==>
              Rows(next.items) == Press(old(Rows(data.items)), EditClick(idx, field, text, parse(text)))
  {
    var items := data.items;
    var item := items[idx];
    match field {
      case Description => item.description := text;
      case Quantity => item.quantity := OrZero(parse(text));
      case Unit => item.unit := text;
      case UnitPrice => item.unitPrice := OrZero(parse(text));
    }
    next := data.(items := items);
  }

  /** Add handler: appends a new default item object; the earlier items stay, in order. */
  method AddItem(data: Invoice) returns (next: Invoice)
    ensures |next.items| == |data.items| + 1
    ensures next.items[..|data.items|] == data.items
    ensures next.items[|data.items|] !in data.items && fresh(next.items[|data.items|])
    ensures Rows(next.items) == Rows(data.items) + [DefaultRow] == Press(Rows(data.items), AddClick)
    ensures Distinct(data.items) ==> Distinct(next.items)
    ensures forall g :: TextOf(next, g) == TextOf(data, g)
    ensures next.company == data.company && next.client == data.client && next.taxRate == data.taxRate
    ensures next.bankAccount == data.bankAccount && next.bic == data.bic
  {
    var item := new LineItem(DefaultRow);
    next := data.(items := data.items + [item]);
    RowsConcat(data.items, [item]);
  }

  /** `list.filter((_, i) => i !== idx)`, walking the list with `i` the index of its head. */
  function FilterOut<T>(list: seq<T>, idx: int, i: int): seq<T>
    decreases list
  {
    if list == [] then []
    else (if i == idx then [] else [list[0]]) + FilterOut(list[1..], idx, i + 1)
  }

  /** The list without position `idx`; the whole list when `idx` is not a position of it. */
  function RemoveAt<T>(list: seq<T>, idx: int): (r: seq<T>)
    ensures 0 <= idx < |list| ==> r == list[..idx] + list[idx + 1..] && |r| == |list| - 1
    ensures !(0 <= idx < |list|) ==> r == list
  {
    FilterOutSpec(list, idx, 0);
    FilterOut(list, idx, 0)
  }

  lemma {:induction false} FilterOutSpec<T>(list: seq<T>, idx: int, i: int)
    decreases list
    ensures i <= idx < i + |list| ==> FilterOut(list, idx, i) == list[..idx - i] + list[idx - i + 1..]
    ensures !(i <= idx < i + |list|) ==> FilterOut(list, idx, i) == list
  {
    if list != [] {
      var tail := list[1..];
      FilterOutSpec(tail, idx, i + 1);
      assert FilterOut(list, idx, i) == (if i == idx then [] else [list[0]]) + FilterOut(tail, idx, i + 1);
      if i == idx {
        assert FilterOut(tail, idx, i + 1) == tail;
      } else if i < idx < i + |list| {
        var k := idx - i;
        assert FilterOut(tail, idx, i + 1) == tail[..k - 1] + tail[k..];
        assert list[..k] == [list[0]] + tail[..k - 1];
        assert list[k + 1..] == tail[k..];
      } else {
        assert FilterOut(tail, idx, i + 1) == tail;
        assert list == [list[0]] + tail;
      }
    }
  }

  /** Remove handler: the item list without position `idx`; everything else unchanged. */
  function RemoveItem(data: Invoice, idx: int): (next: Invoice)
    ensures next.items == RemoveAt(data.items, idx)
    ensures forall g :: TextOf(next, g) == TextOf(data, g)
    ensures next.company == data.company && next.client == data.client && next.taxRate == data.taxRate
    ensures next.bankAccount == data.bankAccount && next.bic == data.bic
  {
    data.(items := RemoveAt(data.items, idx))
  }

  /** What the remaining items hold is the old view without position `idx`. */
  lemma RowsOfRemoveItem(data: Invoice, idx: int)
    ensures Rows(RemoveItem(data, idx).items) == RemoveAt(Rows(data.items), idx)
  {
    if 0 <= idx < |data.items| {
      RowsConcat(data.items[..idx], data.items[idx + 1..]);
      RowsSlice(data.items, 0, idx);
      RowsSlice(data.items, idx + 1, |data.items|);
    }
  }

  /** Removing a position keeps the remaining objects distinct. */
  lemma RemoveKeepsDistinct(items: seq<LineItem>, idx: int)
    requires Distinct(items)
    ensures Distinct(RemoveAt(items, idx))
  {
    var r := RemoveAt(items, idx);
    if 0 <= idx < |items| {
      forall i, j | 0 <= i < j < |r| ensures r[i] != r[j] {
        var i' := if i < idx then i else i + 1;
        var j' := if j < idx then j else j + 1;
        assert r[i] == items[i'] && r[j] == items[j'];
      }
    }
  }

  /** The client fields the form edits. */
  datatype ClientField = ClientName | ClientAddress | ClientRegCode

  function ClientText(c: Client, f: ClientField): string
  {
    match f
    case ClientName => c.name
    case ClientAddress => c.address
    case ClientRegCode => c.regCode
  }

  /** Client updater: one client field takes the input text; nothing else changes. */
  function SetClientField(data: Invoice, f: ClientField, value: string): (next: Invoice)
    ensures ClientText(next.client, f) == value
    ensures forall g :: g != f ==> ClientText(next.client, g) == ClientText(data.client, g)
    ensures next.client.invoiceTitle == data.client.invoiceTitle
    ensures forall g :: TextOf(next, g) == TextOf(data, g)
    ensures SameSupplierAndItems(next, data) && next.taxRate == data.taxRate
  {
    match f
    case ClientName => data.(client := data.client.(name := value))
    case ClientAddress => data.(client := data.client.(address := value))
    case ClientRegCode => data.(client := data.client.(regCode := value))
  }

  /** The remove button is disabled while exactly one item remains. */
  predicate RemoveEnabled(count: nat)
  {
    count != 1
  }

  /** A user action on the item table; a remove or edit button exists only for a shown row. */
  datatype Click = AddClick | RemoveClick(idx: int) | EditClick(idx: int, field: ItemField, text: string, parsed: Option<real>)

  /** The item values after one click, with the remove button's guard applied. */
  function Press(rows: seq<Row>, c: Click): (r: seq<Row>)
    ensures |rows| >= 1 ==> |r| >= 1
  {
    match c
    case AddClick => rows + [DefaultRow]
    case RemoveClick(idx) =>
      if 0 <= idx < |rows| && RemoveEnabled(|rows|) then RemoveAt(rows, idx) else rows
    case EditClick(idx, field, text, parsed) =>
      if 0 <= idx < |rows| then rows[idx := WithField(rows[idx], field, text, parsed)] else rows
  }

  function Replay(rows: seq<Row>, clicks: seq<Click>): seq<Row>
    decreases clicks
  {
    if clicks == [] then rows else Replay(Press(rows, clicks[0]), clicks[1..])
  }

  /** Through the buttons, a list with at least one item never becomes empty. */
  lemma {:induction false} ClicksKeepAnItem(rows: seq<Row>, clicks: seq<Click>)
    requires |rows| >= 1
    decreases clicks
    ensures |Replay(rows, clicks)| >= 1
  {
    if clicks != [] {
      ClicksKeepAnItem(Press(rows, clicks[0]), clicks[1..]);
    }
  }

  /**
   * A click on an enabled remove button of a shown row does what the remove handler does; on a
   * disabled button nothing changes.
   */
  lemma PressRemoveIsRemoveItem(data: Invoice, idx: int)
    requires 0 <= idx < |data.items|
    ensures RemoveEnabled(|data.items|) ==>
              Press(Rows(data.items), RemoveClick(idx)) == Rows(RemoveItem(data, idx).items)
    ensures !RemoveEnabled(|data.items|) ==> Press(Rows(data.items), RemoveClick(idx)) == Rows(data.items)
  {
    RowsOfRemoveItem(data, idx);
  }

  /** The guard lives in the button only: the handler itself empties a one-item list. */
  lemma RemoveItemEmptiesSingleton(data: Invoice)
    requires |data.items| == 1
    ensures RemoveItem(data, 0).items == []
  {
  }
}
