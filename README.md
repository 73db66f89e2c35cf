# Invoice form model

This project models the logic of the invoice form component
(`components/InvoiceForm.tsx`) of a small browser-based invoicing tool. The form
holds a header (invoice number, client, business, due date, payment method, status),
an ordered list of line items `{name, qty, unit, price}`, and discount and tax
percentages. It derives a subtotal, a discount, a taxable base, a tax and a total.
It validates the fields into a record of per-field error messages, and it saves the
invoice by inserting a new row or updating an existing one.

The modules follow the parts of the component:

- `Optional`: the optional value for a property that may be undefined or null, or a
  parse that may fail.
- `JsText`: the JavaScript string operations the form relies on. These are `trim`,
  `String(n)` for integers and `padStart`, with lemmas characterising each one.
- `InvoiceNumber`: `generateInvoiceNumber` with the clock and the random draw as
  parameters. It comes with a parser for the `INV-YYYYMMDD-RRRR` layout and a
  round-trip proof.
- `LineItems`: the item record, the default line, the coercions `handleItemChange`
  applies, and the add and remove list operations.
- `Totals`: the `reduce` subtotal and the discount, taxable, tax and total chain.
- `Validation`: `validate` as an imperative loop that fills the error record. It is
  proved against a declarative description of which keys the record holds.
- `Form`: the component's state as a class with one field per `useState` hook, and
  the handlers as methods. These include the effect that fills an empty invoice
  number and the submit state machine. The gateway's answer, the clock, the random
  draw and whether an `onSuccess` callback was passed are parameters.

Money and percentages are exact reals and quantities are integers. JavaScript's
`Number(value)` is given to the model as its result, either NaN or a finite number.
`String(value)` is given as text.

`validate` checks only that the client, the business and every line name are
non-blank, that the due date is non-empty (a due date of spaces passes), that there is at least one line, and that quantities are positive
and prices not negative. It does not check:
- an email or phone format;
- that the due date lies in the future;
- duplicate line names;
- that the discount and tax percentages lie between 0 and 100.

The form has no switch that turns tax off, and no operation that duplicates a line.
`handleSubmit` does not check for a signed-in session before it calls the gateway.

Which mode the form is in depends on the truthiness of `defaultValues.id`. The list
page passes `Number(editingInvoice.id)` (app/page.tsx), while `EditInvoiceDialog`
passes the row as it is. On the list page an id that `Number` turns into 0 or NaN is
falsy; through `EditInvoiceDialog` only an empty string is. A falsy id makes the form
save the invoice as a new row.

## Model

| member | source | states |
|---|---|---|
| JsText.TrimStart | components/InvoiceForm.tsx:124-129 | the start of `trim()`; JsText.TrimStartSpec states what it keeps and drops |
| JsText.TrimEnd | components/InvoiceForm.tsx:124-129 | the end of `trim()`; JsText.TrimEndSpec states what it keeps and drops |
| JsText.Trim | components/InvoiceForm.tsx:124-129 | `s.trim()`; JsText.TrimSpec states it is the middle slice between whitespace borders |
| JsText.IsBlank | components/InvoiceForm.tsx:124-129 | `!s.trim()`; JsText.BlankIffAllWhitespace states it holds exactly for all-whitespace strings |
| JsText.TrimStartSpec | components/InvoiceForm.tsx:124-129 | the start-trimmed string is a suffix, empty or starting with a non-whitespace character, and what was dropped is all whitespace |
| JsText.TrimEndSpec | components/InvoiceForm.tsx:124-129 | the end-trimmed string is a prefix, empty or ending with a non-whitespace character, and what was dropped is all whitespace |
| JsText.TrimSpec | components/InvoiceForm.tsx:124-129 | `trim()` is the slice between a whitespace prefix and a whitespace suffix, and it is empty or has non-whitespace characters at both ends |
| JsText.BlankIffAllWhitespace | components/InvoiceForm.tsx:124-129 | `!s.trim()` holds exactly when every character of s is whitespace |
| JsText.NatToString | components/InvoiceForm.tsx:129-131 | `String(n)` has as many characters as n has digits, all decimal digits, with no leading zero except for 0 itself |
| JsText.IntToString | components/InvoiceForm.tsx:29 | `String(i)` is never empty and, for i ≥ 0, is the decimal printing of i; its meaning for every integer is JsText.IntToStringRoundTrip |
| JsText.SignedValue | components/InvoiceForm.tsx:29 | reads an optionally signed decimal integer, the partner that JsText.IntToStringRoundTrip inverts |
| JsText.IntToStringRoundTrip | components/InvoiceForm.tsx:29 | reading back `String(i)` as a signed decimal gives i, for every integer including negative ones |
| JsText.IntToStringInjective | components/InvoiceForm.tsx:29 | different years print differently |
| JsText.DigitsValueOfNatToString | components/InvoiceForm.tsx:129-131 | reading the digits of `String(n)` back gives n |
| JsText.NatToStringInjective | components/InvoiceForm.tsx:129-131 | two different line indices print as two different strings |
| JsText.PadStart | components/InvoiceForm.tsx:29-32 | `padStart(width, fill)` gives a string of at least `width` characters that ends with the original and is filled with `fill` before it |
| InvoiceNumber.RandomSuffix | components/InvoiceForm.tsx:28 | `Math.floor(u * 9000) + 1000` lies in [1000, 9999] for every draw u in [0, 1) |
| InvoiceNumber.SuffixReachable | components/InvoiceForm.tsx:28 | every suffix in [1000, 9999] is produced by some draw |
| InvoiceNumber.SuffixDigits | components/InvoiceForm.tsx:28-32 | the suffix always prints as exactly four digits that read back as itself |
| InvoiceNumber.TwoDigits | components/InvoiceForm.tsx:29-32 | a month or day from 1 to 99 is written as exactly two digits that read back as the number |
| InvoiceNumber.TwoDigitsIsPadStart | components/InvoiceForm.tsx:29-32 | those two digits are exactly `String(n).padStart(2, "0")` |
| InvoiceNumber.GenerateInvoiceNumber | components/InvoiceForm.tsx:26-33 | the generated number is at least 14 characters long, so never empty |
| InvoiceNumber.GeneratedFormat | components/InvoiceForm.tsx:26-33 | the number starts with "INV-", has a dash before the last four characters, and those are the digits of a value from 1000 to 9999 |
| InvoiceNumber.ParseLayout | components/InvoiceForm.tsx:29-32 | any "INV-" + year + two month digits + two day digits + "-" + four digits parses back into those four values |
| InvoiceNumber.ParseGenerated | components/InvoiceForm.tsx:26-33 | for a year from 0 on, the generated number parses back as the year, the one-based month, the day and the drawn suffix |
| LineItems.NumberOrZero | components/InvoiceForm.tsx:93-94 | `Number(value)` with NaN replaced by 0; its effect on a line is stated by LineItems.QuantityOf and Form.InvoiceForm.HandleItemChange |
| LineItems.QuantityOf | components/InvoiceForm.tsx:93 | the written quantity is never negative, and is the largest whole number not above `Number(value)` (NaN taken as 0) unless that is negative, in which case it is 0 |
| LineItems.AddItem | components/InvoiceForm.tsx:101 | the list grows by one, keeps the old lines in order and ends with `{name:"", qty:1, unit:"", price:0}` |
| LineItems.RemoveItem | components/InvoiceForm.tsx:105-106 | filtering out an index shortens the list by one when the index is a line and keeps its length otherwise |
| LineItems.RemoveItemSplices | components/InvoiceForm.tsx:105-106 | filtering out index i gives the lines before i followed by the lines after i, and an index outside the list gives the list unchanged |
| LineItems.RemoveAddedItem | components/InvoiceForm.tsx:99-106 | removing the line just added gives the original list back |
| Totals.Subtotal | components/InvoiceForm.tsx:116 | the left-to-right `reduce`; Totals.SubtotalAppend, Totals.SubtotalPermutation and Totals.SubtotalNonNegative state its properties |
| Totals.ComputeTotals | components/InvoiceForm.tsx:116-120 | the total equals subtotal·(100 − discount)·(100 + tax)/10000 |
| Totals.SubtotalAppend | components/InvoiceForm.tsx:116 | the subtotal of two lists joined is the sum of their subtotals |
| Totals.SubtotalPermutation | components/InvoiceForm.tsx:116 | the subtotal does not depend on the order of the lines |
| Totals.SubtotalNonNegative | components/InvoiceForm.tsx:116 | with no negative quantity or price the subtotal is not negative |
| Totals.TaxAfterDiscount | components/InvoiceForm.tsx:117-120 | the tax equals subtotal·(100 − discount)·tax/10000, and with a positive subtotal, a discount in (0, 100] and a positive rate it is strictly less than the tax on the whole subtotal |
| Totals.TaxableBounds | components/InvoiceForm.tsx:116-120 | with non-negative lines and a discount in [0, 100], for any tax rate: 0 ≤ taxable ≤ subtotal; with a non-negative tax rate also taxable ≤ total |
| Totals.AddItemSubtotal | components/InvoiceForm.tsx:116 | adding the blank line leaves the subtotal unchanged |
| Totals.RemoveItemSubtotal | components/InvoiceForm.tsx:116 | removing line i lowers the subtotal by exactly qty·price of that line |
| Totals.WorkedExample | components/InvoiceForm.tsx:116-120 | lines 2 × 50000 and 1 × 30000 with 10% discount and 11% tax give 130000, 13000, 117000, 12870 and 129870 |
| Validation.KeyName | components/InvoiceForm.tsx:124-131 | the property name of each rule, `client` … `item-price-${idx}`; Validation.KeyNameInjective states no two rules share one |
| Validation.Message | components/InvoiceForm.tsx:124-131 | the message of each rule; Validation.CheckHeader, Validation.CheckLine and Validation.CollectErrors state that each key carries it |
| Validation.KeyNameInjective | components/InvoiceForm.tsx:124-131 | no two rules share an error key, so the record holds one entry per broken rule |
| Validation.ReportsEmptyIffPasses | components/InvoiceForm.tsx:134 | a correct error record is empty exactly when every rule holds |
| Validation.ReportsUnique | components/InvoiceForm.tsx:122-135 | two error records that both describe the same fields are equal |
| Validation.CheckHeader | components/InvoiceForm.tsx:124-127 | the record holds `client`, `business`, `dueDate` and `items` exactly when the trimmed client is empty, the trimmed business is empty, the due date is empty and the list is empty, each with its message |
| Validation.CheckLine | components/InvoiceForm.tsx:129-131 | checking line idx adds `item-idx`, `item-qty-idx` and `item-price-idx` exactly for a blank name, a quantity ≤ 0 and a negative price, keeping earlier entries |
| Validation.CollectErrors | components/InvoiceForm.tsx:122-134 | the record has a key exactly for each broken rule, with that rule's message and no other keys, and is empty exactly when the form passes |
| Validation.ResetFormReport | components/InvoiceForm.tsx:122-135 | a blank form with one default line reports exactly `client`, `business`, `dueDate` and `item-0` |
| Form.DefaultFields | components/InvoiceForm.tsx:193-205 | the blank form: no client, business or due date, one default line, "Transfer Bank", Draft, 0% discount, 11% tax; Form.DefaultFieldsInvalid and Validation.ResetFormReport state how it validates |
| Form.OrText | components/InvoiceForm.tsx:39-63 | a stored string, or the fallback when it is missing or empty; Form.ReloadSaved states a non-empty stored string is kept |
| Form.OrNull | components/InvoiceForm.tsx:53-55 | the stored logo, or null when it is missing or empty; Form.ReloadSaved states a non-empty logo is kept |
| Form.OrNumber | components/InvoiceForm.tsx:66-71 | a stored percentage, or the fallback when it is missing or 0; Form.ReloadZeroPercents states 0 falls back |
| Form.OrItems | components/InvoiceForm.tsx:56-58 | the stored lines, even an empty list, or one default line when missing; Form.ReloadZeroPercents states an empty stored list is kept |
| Form.InitialFields | components/InvoiceForm.tsx:39-71 | the initial value of every hook; Form.ReloadSaved and Form.ReloadZeroPercents state what a saved invoice reopens as |
| Form.Truthy | components/InvoiceForm.tsx:164 | JavaScript truthiness of an id: 0, NaN and "" are falsy |
| Form.EditIdOf | components/InvoiceForm.tsx:164-191 | the truthy `defaultValues?.id` that selects update over insert; Form.NumericIdSelectsMode states the numeric case |
| Form.NumericIdSelectsMode | components/InvoiceForm.tsx:164-191 | with a numeric id the form edits exactly when the id is a number other than 0; 0 or NaN opens it in create mode |
| Form.PayloadOf | components/InvoiceForm.tsx:143-161 | the payload carries the fields unchanged with the subtotal, the discount, the tax on the discounted base, and the total scaled by both percentages |
| Form.ReloadSaved | components/InvoiceForm.tsx:39-71 | opening a saved invoice restores every field it was saved with, provided its tax is not 0, its payment method is not empty and its logo is not the empty string |
| Form.ReloadZeroPercents | components/InvoiceForm.tsx:56-71 | for any saved invoice, each on its own: a saved tax of 0 reopens as 11, a saved discount of 0 stays 0, and an empty saved list stays empty |
| Form.ReloadZeroTax | components/InvoiceForm.tsx:39-71 | an invoice saved with tax 0 (and a payment method and no empty logo) reopens with every field as saved except the tax, which reads 11 |
| Form.DefaultFieldsInvalid | components/InvoiceForm.tsx:193-206 | the fields after a reset do not pass validation |
| Form.InvoiceForm.constructor | components/InvoiceForm.tsx:39-78 | every field starts as the stored value when that is truthy and as its default otherwise, with not loading, no errors and no alert, and a truthy id selects edit mode |
| Form.InvoiceForm.EnsureInvoiceNumber | components/InvoiceForm.tsx:82-84 | an empty invoice number is replaced by a generated one, a non-empty one is kept, and the result is never empty |
| Form.InvoiceForm.HandleItemChange | components/InvoiceForm.tsx:86-97 | the edited line gets the floored, clamped quantity, the numeric price (0 for NaN, negatives kept), or the text as name or unit; the list length, every other line and every other field are unchanged |
| Form.InvoiceForm.AddItem | components/InvoiceForm.tsx:99-103 | the items become the old items plus one default line at the end, nothing else changes |
| Form.InvoiceForm.RemoveItem | components/InvoiceForm.tsx:105-106 | the items become the old items without index i, in order, or stay the same for an index that is not a line; nothing else changes |
| Form.InvoiceForm.Validate | components/InvoiceForm.tsx:122-135 | the error record becomes the exact report for the current fields, and the answer is true exactly when it is empty, exactly when every rule holds; no other field changes |
| Form.InvoiceForm.ResetToBlank | components/InvoiceForm.tsx:191-207 | every field returns to its default with a freshly generated invoice number and the errors are cleared |
| Form.InvoiceForm.ApplyOutcome | components/InvoiceForm.tsx:175-208 | a gateway error shows "Gagal menyimpan invoice. " + its message and keeps fields and errors; a success shows the update or create message, calls `onSuccess` if there is one, and resets the form only in create mode |
| Form.InvoiceForm.HandleSubmit | components/InvoiceForm.tsx:137-209 | an invalid form sends nothing and changes nothing but the errors; a valid one sends an update of the edited id or an insert, with the payload built from the fields before submit; then the alert, the callback and the reset follow the gateway's answer; the errors always report the submitted fields |

## Left out

- The Supabase `insert` and `update` calls and their network behaviour. The gateway's answer is a parameter, and the request is returned rather than sent.
- Authentication is not modelled.
- The list page's fetching and deleting in `app/page.tsx` is not part of this model.
- The logo upload through `FileReader` (components/InvoiceForm.tsx:108-114) is asynchronous browser I/O. `logoDataUrl` is modelled only as a field.
- The header inputs' `onChange` setters in the JSX simply replace one field each. They and the rendering are not modelled.
- Locale formatting with `toLocaleString`, and the `NumericFormat` input parsing, are library behaviour that is not modelled. The number an input yields is a parameter.
- The focus moved by `setTimeout` in `addItem`, `window.scrollTo`, and the animations are not modelled.
- Money is an exact real, not an IEEE double. Rounding of the unrounded floating-point totals, infinities and `-0` are not modelled.
- `Number(value)` returning Infinity is not modelled: the coercion result is NaN or a finite number.
- Form.InvoiceForm.HandleItemChange: in the source, `[...items]` copies the array but not the line objects, so the edit also mutates the line objects shared with the previous state and with `defaultValues.items`. The model replaces the line by value and does not capture that sharing.
- Form.InvoiceForm.HandleItemChange: it requires the index to be a line. The source is only called from rendered rows, and any other index throws a TypeError there.
- Form.InvoiceForm.HandleSubmit: the intermediate `loading = true` / `alert = null` state during the await is not observable in a single step. Only the final state is stated.
- Form.InvoiceForm.HandleSubmit: double submission while loading is not modelled.
- InvoiceNumber.ParseGenerated: it requires a year from 0 on, because a negative year prints with a minus sign that the `INV-YYYYMMDD` layout cannot read back.
- InvoiceNumber.GenerateInvoiceNumber: its own contract states only the length. The layout and the suffix range are stated by InvoiceNumber.GeneratedFormat and InvoiceNumber.ParseGenerated.
- Form.InitialFields: a stored `status` string outside Draft, Sent, Paid and Overdue is not modelled, because the status is a four-valued datatype.
- Form.EditIdOf: an id is modelled as a JavaScript number or string, which is what the two callers pass. Other id values such as booleans or objects are not modelled.
- Form.InitialFields: a stored percentage of NaN is not modelled, because percentages are reals.
- Form.InvoiceForm.HandleSubmit: the browser's own constraint checks on the inputs' `min`/`max` attributes (quantity `min={1}`, discount `min={0} max={100}`, tax `min={0}`) are not modelled. The browser can stop a submit before `handleSubmit` runs, so the model allows submits from states the page would block. No stated property depends on those states being unreachable.
- The presentational components (`LoginSection.tsx`, `InvoiceList.tsx`, `DeleteInvoiceDialog.tsx`, `EditInvoiceDialog.tsx`, `BadgeComponent.tsx`) and `app/layout.tsx` are not part of this model.
