# Invoice editor: totals, edit handlers and application state

A Dafny model of the core of a browser invoice editor. The editor has three parts:

- a form that edits one invoice record;
- a live preview that derives the row amounts, subtotal, VAT and total from that record;
- an application component that holds the record, the selected supplier company and the UI
  language.

The model is split by source file:

- `Document.dfy` holds the invoice record. The record is a value and is rebuilt by spread on
  every edit. The line items are objects (`class LineItem`), because the item editor writes into
  them in place. `Rows` reads what the item objects hold at one instant.
- `Preview.dfy` models `src/InvoicePreview.js`. It holds the row amounts, the left-to-right
  `reduce` that gives the subtotal, VAT and total, and the rule that shows the notes block. These
  are pure functions. Their partner is an independent reference sum (`Sum` of `Amounts`).
- `Form.dfy` models `src/InvoiceForm.js`. It holds the field, number, item, add, remove and
  client handlers, and the guard on the remove button.
  - `HandleItemChange` and `AddItem` are methods. The first writes into a shared item object and
    the second allocates one.
  - The other handlers are functions. Their contracts state what they change and that nothing
    else changes.
  - `Press`/`Replay` model clicks on the item table. `ClicksKeepAnItem` proves that the
    remove-button guard keeps at least one item.
- `App.dfy` models `src/App.js`. It holds the company table, the initial invoice, the company
  switch, the language toggle and the export file name. `class AppState` holds the component's
  state (`language`, `companyId`, `invoiceData`), and its methods are the component's handlers.

Amounts are exact `real`s in place of JavaScript doubles. The totals are linear and never branch
on rounding, so the equalities proved here are the ones the source intends; the displayed
two-decimal strings are not modelled. `parseFloat` is a parameter `parse: string -> Option<real>`,
where `None` stands for NaN. The two coercions in the source are `isNaN(v) ? 0 : v` in the number
handler and `parseFloat(x) || 0` in the item handler. They agree on every real and differ only
on IEEE negative zero, so both are `OrZero`. The current date used by the initial state is a
constructor parameter.

Three facts about the code shape the model:

- The initial invoice has no line items (`src/App.js:101`).
- `removeItem` itself removes the last remaining item, and only the button is disabled when one
  item remains (`src/InvoiceForm.js:41-44`, `src/InvoiceForm.js:189`; `RemoveItemEmptiesSingleton`).
- The item editor writes into the item object that the previous invoice also holds
  (`src/InvoiceForm.js:25`, `src/InvoiceForm.js:30`).

## Model

| member | source | states |
|---|---|---|
| `Preview.Amounts` | src/InvoicePreview.js:134-141 | one amount per item, in item order, each being quantity × unit price |
| `Preview.Subtotal` | src/InvoicePreview.js:23 | the reduce from 0 equals the sum of the per-row amounts shown, in order; an empty item list gives 0 |
| `Preview.ReduceIsSum` | src/InvoicePreview.js:23 | the left-to-right reduce from any start value equals that value plus the reference sum of the row amounts |
| `Preview.SubtotalAppend` | src/InvoicePreview.js:23 | appending one item raises the subtotal by exactly that item's quantity × unit price |
| `Preview.AppendDefaultKeepsSubtotal` | src/InvoiceForm.js:34-39 | appending the default item (quantity 1, price 0) leaves the subtotal unchanged |
| `Preview.ComputeTotals` | src/InvoicePreview.js:23-25 | subtotal is the row sum, VAT = subtotal × rate / 100, total = subtotal + VAT = subtotal × (1 + rate/100), and rate 0 gives VAT 0 and total = subtotal |
| `Preview.InvoiceTotals` | src/InvoicePreview.js:23-25 | for an invoice as its item objects hold it now: subtotal is the sum of the row amounts, VAT = subtotal × rate / 100, total = subtotal + VAT |
| `Preview.ExampleTotals` | src/InvoicePreview.js:23-25 | items (2, 50) and (1, 100) at 22 % give 200, 44 and 244 |
| `Preview.ExampleNoTax` | src/InvoicePreview.js:23-25 | 3 × 19.99 at 0 % gives 59.97, 0 and 59.97 |
| `Preview.ExampleNegativeQuantity` | src/InvoicePreview.js:23-25 | a negative quantity is not clamped: (−2, 50) and (1, 30) at 22 % give −70, −15.4 and −85.4 |
| `Preview.NotesBlock` | src/InvoicePreview.js:148-157 | the notes block is shown exactly when the notes are non-empty, and it shows the notes text |
| `Form.HandleFieldChange` | src/InvoiceForm.js:15-17 | field f holds the input text afterwards, and every other text field, the client, the supplier data, the items and the tax rate are unchanged |
| `Form.FieldChangeToSameValue` | src/InvoiceForm.js:15-17 | writing a field's current text back yields the same invoice |
| `Form.OrZero` | src/InvoiceForm.js:21 | a parse failure (NaN) becomes 0 and a parsed number is kept as it is; the item editor's fall-back to 0 at line 28 coincides with it on every real |
| `Form.HandleNumberChange` | src/InvoiceForm.js:19-22 | the tax rate becomes the parsed number, or 0 when parsing fails; no other field changes |
| `Form.HandleItemChange` | src/InvoiceForm.js:24-32 | same item list with the same objects, so the count is kept; the object at idx takes the input in that one field (quantity and price are parsed with NaN → 0, description and unit take the raw text); the previous invoice sees the change; objects at other positions are untouched, so with distinct objects only position idx changes, which is what an edit click gives (`Press`) |
| `Form.AddItem` | src/InvoiceForm.js:34-39 | one more item; the earlier items are unchanged and in order; the new last item is a freshly allocated object holding the default values; the resulting item values are what an add click gives (`Press`); distinctness is kept; nothing else changes |
| `Form.RemoveAt` | src/InvoiceForm.js:42 | filtering out index idx yields the list without position idx, one shorter, others in order; an index out of range leaves the list unchanged |
| `Form.FilterOutSpec` | src/InvoiceForm.js:42 | the index-tracking filter removes exactly the element whose index equals idx |
| `Form.RemoveItem` | src/InvoiceForm.js:41-44 | the item list becomes the list without position idx; nothing else changes |
| `Form.RowsOfRemoveItem` | src/InvoiceForm.js:41-44 | what the remaining items hold is the previous item values without position idx |
| `Form.RemoveKeepsDistinct` | src/InvoiceForm.js:41-44 | removal keeps the item objects pairwise distinct |
| `Form.RemoveItemEmptiesSingleton` | src/InvoiceForm.js:41-44 | the remove handler itself has no guard: on a one-item list it yields an empty list |
| `Form.SetClientField` | src/InvoiceForm.js:107-140 | one client field takes the input text; the other client fields, the invoice title and every invoice field are unchanged |
| `Form.Press` | src/InvoiceForm.js:152-198 | one click on add, on an enabled remove button of a shown row, or on a row edit never empties a non-empty item list |
| `Form.ClicksKeepAnItem` | src/InvoiceForm.js:189 | because the remove button is disabled at exactly one item, no sequence of clicks reduces a count of at least one to zero |
| `Form.PressRemoveIsRemoveItem` | src/InvoiceForm.js:189 | a click on an enabled remove button of a shown row gives what the remove handler gives; a disabled button (exactly one item) changes nothing |
| `App.ProfilesDiffer` | src/App.js:16-31 | the two company profiles differ in name, address, registration code and bank account, and share the BIC `LHVBEE22` |
| `App.NextCompany` | src/App.js:113 | the switch always selects the other company |
| `App.NextCompanyTwice` | src/App.js:113 | switching twice restores the company id |
| `App.ToggledLanguage` | src/App.js:155 | the language button always selects the other language |
| `App.ToggleTwice` | src/App.js:155 | the language toggle is an involution |
| `App.InitialInvoice` | src/App.js:87-103 | the initial invoice has tax rate 22, no items, empty notes and due date, the given date, the fixed number and client, and supplier, bank account and BIC from the selected profile, with the whole profile copied into the company record |
| `App.SwitchedInvoice` | src/App.js:116-125 | after a switch, the company record holds exactly the new profile's name, address and registration code; bank account and BIC take the new profile's values; client, items, tax rate, notes, number and dates are unchanged |
| `App.SwitchTwiceFromInitial` | src/App.js:87-125 | two switches from the initial state restore every shown supplier value and every other field, but the company record has lost the bank fields of the initial copy |
| `App.FormEditsKeepSupplier` | src/InvoiceForm.js:15-22 | the form's text, number and client edits keep the supplier data matching the selected profile |
| `App.ExportFileName` | src/App.js:141 | the file name is `invoice_` + number + `.pdf` for a non-empty number and `invoice_export.pdf` otherwise |
| `App.NumberInFileName` | src/App.js:141 | a recognised name is exactly `invoice_` + the extracted part + `.pdf` |
| `App.FileNameRoundTrip` | src/App.js:141 | the invoice number, or `export` for an empty one, can be read back from the file name |
| `App.FileNameInjective` | src/App.js:141 | distinct non-empty numbers give distinct names; the empty number and `export` give the same name |
| `App.FileNameCollisions` | src/App.js:141 | two invoice numbers give the same file name exactly when they are equal or are the empty number and `export` |
| `App.AppState.constructor` | src/App.js:34-103 | the app starts in Estonian, with the first company and the initial invoice for it |
| `App.AppState.HandleDataChange` | src/App.js:108-110 | the whole invoice is replaced by the given one; language and company are unchanged |
| `App.AppState.SwitchCompany` | src/App.js:112-126 | the other company is selected and its profile written into the invoice; the language is unchanged |
| `App.AppState.ToggleLanguage` | src/App.js:155 | the language is toggled; the company and the invoice are unchanged |
| `App.AppState.FileName` | src/App.js:141 | the current invoice's export name carries its invoice number between `invoice_` and `.pdf`, or `export` when the number is empty |

## Left out

- The PDF export pipeline (`handleExportPDF`, and `generatePDF` in `src/utils.js`) is left out. It
  renders to a canvas, encodes it with foreign libraries, waits on a timer and downloads a file.
  Only its file name is modelled.
- The `isExporting` flag and the off-screen render during export are left out. They are
  asynchronous UI sequencing.
- Layout, styling, the preview scale slider, the compact-view switch, icons and the label
  dictionaries are left out. They are presentation or static text. So is the title fallback
  `invoiceTitleDefault || 'INVOICE'`.
- `toFixed` display rounding of prices, rates and totals is left out. It is the host's
  float-to-string conversion.
- IEEE-754 double arithmetic is left out. Amounts are exact reals, so the model does not capture
  rounding error in subtotal, VAT or total.
- `parseFloat` itself is left out. Its result is a parameter, and only the NaN → 0 coercion is
  modelled.
- Object and array identity is left out. React re-renders because the spread builds a new record
  and `[...items]` a new array. In the model these are values, so the new invoice from
  `HandleItemChange` equals the old one as a value. Only the sharing of item objects is captured.
- React's asynchronous batching of state setters is left out. `SwitchCompany` applies the
  company id and the invoice update in sequence.
- Form.HandleItemChange: requires `idx` to be a position of the list. The source creates this
  handler only for shown rows; with another index, the JavaScript write would throw.
