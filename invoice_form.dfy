/** The state of the `InvoiceForm` component (components/InvoiceForm.tsx) and the
    handlers that change it. Each `useState` hook is a field of the class; the
    gateway's answer, the clock and the random draw are parameters. */
module Form {
  import opened Optional
  import opened JsText
  import opened LineItems
  import opened Totals
  import opened Validation
  import opened InvoiceNumber

  datatype Status = Draft | Sent | Paid | Overdue

  /** The editable fields of the form, as `handleSubmit` puts them in the payload. */
  datatype FormFields = FormFields(
    invoiceNumber: string, client: string, clientEmail: string, clientPhone: string,
    business: string, businessContact: string, logoDataUrl: Option<string>,
    items: seq<Item>, dueDate: string, paymentMethod: string, status: Status,
    discountPercent: real, taxPercent: real)

  /** The fields of a blank form carrying the given invoice number. */
  function DefaultFields(invoiceNumber: string): FormFields
  {
    FormFields(invoiceNumber, "", "", "", "", "", None, [DefaultItem], "", "Transfer Bank",
               Draft, 0.0, 11.0)
  }

  /** The `id` of `defaultValues`: the number the list page passes
      (`Number(editingInvoice.id)`), or the row's own string id. */
  datatype IdValue = NumberId(n: Num) | TextId(s: string)

  /** JavaScript truthiness of an id: 0, NaN and "" are falsy. */
  predicate Truthy(id: IdValue)
  {
    match id
    case NumberId(n) => n.Finite? && n.r != 0.0
    case TextId(s) => s != ""
  }

  /** A stored invoice handed to the form as `defaultValues`; `None` is a property
      that is undefined or null. */
  datatype Stored = Stored(
    id: Option<IdValue>, invoiceNumber: Option<string>, client: Option<string>,
    clientEmail: Option<string>, clientPhone: Option<string>, business: Option<string>,
    businessContact: Option<string>, logoDataUrl: Option<string>, items: Option<seq<Item>>,
    dueDate: Option<string>, paymentMethod: Option<string>, status: Option<Status>,
    discountPercent: Option<real>, taxPercent: Option<real>)

  /** `v || fallback` for a string: undefined, null and "" are falsy. */
  function OrText(v: Option<string>, fallback: string): string
  {
    if v.Some? && v.value != "" then v.value else fallback
  }

  /** `v || null` for a string. */
  function OrNull(v: Option<string>): Option<string>
  {
    if v.Some? && v.value != "" then v else None
  }

  /** `v || fallback` for a number: undefined, null and 0 are falsy. */
  function OrNumber(v: Option<real>, fallback: real): real
  {
    if v.Some? && v.value != 0.0 then v.value else fallback
  }

  /** `v || fallback` for an array: every array, the empty one included, is truthy. */
  function OrItems(v: Option<seq<Item>>, fallback: seq<Item>): seq<Item>
  {
    if v.Some? then v.value else fallback
  }

  /** The initial value of every `useState` hook: `defaultValues?.x || default`. */
  function InitialFields(d: Option<Stored>): FormFields
  {
    match d
    case None => DefaultFields("")
    case Some(s) =>
      FormFields(
        OrText(s.invoiceNumber, ""), OrText(s.client, ""), OrText(s.clientEmail, ""),
        OrText(s.clientPhone, ""), OrText(s.business, ""), OrText(s.businessContact, ""),
        OrNull(s.logoDataUrl), OrItems(s.items, [DefaultItem]), OrText(s.dueDate, ""),
        OrText(s.paymentMethod, "Transfer Bank"),
        if s.status.Some? then s.status.value else Draft,
        OrNumber(s.discountPercent, 0.0), OrNumber(s.taxPercent, 11.0))
  }

  /** `defaultValues?.id`, kept only when it is truthy: it selects edit mode. */
  function EditIdOf(d: Option<Stored>): Option<IdValue>
  {
    if d.Some? && d.value.id.Some? && Truthy(d.value.id.value) then d.value.id else None
  }

  /** With a numeric id, as the list page passes it, the form edits exactly when the id
      is a number other than 0; an id of 0, or one that `Number` turned into NaN, opens
      the form in create mode, so saving it inserts a new row. */
  lemma NumericIdSelectsMode(s: Stored, n: Num)
    requires s.id == Some(NumberId(n))
    ensures EditIdOf(Some(s)) == if n.Finite? && n.r != 0.0 then Some(NumberId(n)) else None
  {
  }

  /** The record written to the `invoices` table: the fields and the derived money values. */
  datatype Payload = Payload(fields: FormFields, subtotal: real, discountValue: real,
                             taxValue: real, total: real)

  /** The payload `handleSubmit` builds from the current fields and totals. */
  function PayloadOf(f: FormFields): (p: Payload)
    ensures p.fields == f && p.subtotal == Subtotal(f.items)
    ensures p.discountValue == p.subtotal * f.discountPercent / 100.0
    ensures p.taxValue == (p.subtotal - p.discountValue) * f.taxPercent / 100.0
    ensures p.total == p.subtotal * (100.0 - f.discountPercent) * (100.0 + f.taxPercent) / 10000.0
  {
    var t := ComputeTotals(f.items, f.discountPercent, f.taxPercent);
    Payload(f, t.subtotal, t.discountValue, t.taxValue, t.total)
  }

  /** The gateway call `handleSubmit` makes: an update of row `id`, or an insert. */
  datatype Request = Insert(payload: Payload) | Update(id: IdValue, payload: Payload)

  /** The `error` the gateway returns: none, or one carrying a message. */
  datatype GatewayOutcome = Saved | Failed(message: string)

  datatype AlertKind = Success | Error
  datatype Alert = Alert(kind: AlertKind, message: string)

  /** The row the database holds after a payload has been saved under `id`, read back
      as `defaultValues`. */
  function StoredOf(p: Payload, id: Option<IdValue>): Stored
  {
    var f := p.fields;
    Stored(id, Some(f.invoiceNumber), Some(f.client), Some(f.clientEmail), Some(f.clientPhone),
           Some(f.business), Some(f.businessContact), f.logoDataUrl, Some(f.items),
           Some(f.dueDate), Some(f.paymentMethod), Some(f.status),
           Some(f.discountPercent), Some(f.taxPercent))
  }

  /** Opening a saved invoice shows the fields it was saved with, unless its tax was 0,
      its payment method empty or its logo the empty string: `||` replaces those. */
  lemma ReloadSaved(f: FormFields, id: Option<IdValue>)
    requires f.taxPercent != 0.0 && f.paymentMethod != "" && f.logoDataUrl != Some("")
    ensures InitialFields(Some(StoredOf(PayloadOf(f), id))) == f
  {
  }

  /** A saved tax of 0 percent reopens as 11 percent, while a saved discount of 0
      percent stays 0, and an empty saved list of lines stays empty. */
  lemma ReloadZeroPercents(f: FormFields, id: Option<IdValue>)
    ensures var g := InitialFields(Some(StoredOf(PayloadOf(f), id)));
            (f.taxPercent == 0.0 ==> g.taxPercent == 11.0)
            && (f.discountPercent == 0.0 ==> g.discountPercent == 0.0)
            && (f.items == [] ==> g.items == [])
  {
  }

  /** An invoice saved with a tax of 0 percent reopens with every field as it was
      saved, except the tax, which reads 11 percent. */
  lemma ReloadZeroTax(f: FormFields, id: Option<IdValue>)
    requires f.taxPercent == 0.0 && f.paymentMethod != "" && f.logoDataUrl != Some("")
    ensures InitialFields(Some(StoredOf(PayloadOf(f), id))) == f.(taxPercent := 11.0)
  {
  }

  /** A reset form cannot be submitted again as it is: it has no client, no business,
      no due date and an unnamed line. */
  lemma DefaultFieldsInvalid(invoiceNumber: string)
    ensures var f := DefaultFields(invoiceNumber);
            !Passes(f.client, f.business, f.dueDate, f.items)
  {
    assert IsBlank("");
  }

  class InvoiceForm {
    /** `defaultValues?.id` when it is truthy: the form edits that row. */
    const editId: Option<IdValue>
    /** Whether the parent passed an `onSuccess` callback. */
    const hasOnSuccess: bool

    var invoiceNumber: string
    var client: string
    var clientEmail: string
    var clientPhone: string
    var business: string
    var businessContact: string
    var logoDataUrl: Option<string>
    var items: seq<Item>
    var dueDate: string
    var paymentMethod: string
    var status: Status
    var discountPercent: real
    var taxPercent: real

    var loading: bool
    var errors: map<string, string>
    var alert: Option<Alert>

    function Fields(): FormFields
      reads this
    {
      FormFields(invoiceNumber, client, clientEmail, clientPhone, business, businessContact,
                 logoDataUrl, items, dueDate, paymentMethod, status, discountPercent, taxPercent)
    }

    /** Mounting the component: every hook takes its initial value. */
    constructor (defaults: Option<Stored>, hasOnSuccess: bool)
      ensures Fields() == InitialFields(defaults) && editId == EditIdOf(defaults)
      ensures this.hasOnSuccess == hasOnSuccess
      ensures !loading && errors == map[] && alert == None
    {
      var f := InitialFields(defaults);
      editId := EditIdOf(defaults);
      this.hasOnSuccess := hasOnSuccess;
      invoiceNumber, client, clientEmail, clientPhone := f.invoiceNumber, f.client, f.clientEmail, f.clientPhone;
      business, businessContact, logoDataUrl := f.business, f.businessContact, f.logoDataUrl;
      items, dueDate, paymentMethod, status := f.items, f.dueDate, f.paymentMethod, f.status;
      discountPercent, taxPercent := f.discountPercent, f.taxPercent;
      loading, errors, alert := false, map[], None;
    }

    /** The effect on `invoiceNumber`: an empty number is replaced by a generated one,
      and a non-empty one is kept. */
    method EnsureInvoiceNumber(c: Clock, u: real)
      requires ValidClock(c) && 0.0 <= u < 1.0
      modifies this`invoiceNumber
      ensures invoiceNumber == if old(invoiceNumber) == "" then GenerateInvoiceNumber(c, u)
                               else old(invoiceNumber)
      ensures invoiceNumber != ""
    {
      if invoiceNumber == "" {
        invoiceNumber := GenerateInvoiceNumber(c, u);
      }
    }

    /** `handleItemChange(index, field, value)`: the quantity becomes the floored number
        clamped at 0, the price the number or 0, a name or unit the text; only that field
        of that line changes. The index is one of the rendered lines. */
    method HandleItemChange(index: int, field: Field, value: Value)
      requires 0 <= index < |items|
      modifies this`items
      ensures |items| == |old(items)|
      ensures forall j :: 0 <= j < |items| && j != index ==> items[j] == old(items)[j]
      ensures field == Qty ==> items[index] == old(items)[index].(qty := QuantityOf(value.number))
      ensures field == Price ==> items[index] == old(items)[index].(price := NumberOrZero(value.number))
      ensures field == Name ==> items[index] == old(items)[index].(name := value.text)
      ensures field == Unit ==> items[index] == old(items)[index].(unit := value.text)
    {
      var updated := items;
      var it := updated[index];
      if field == Qty {
        it := it.(qty := QuantityOf(value.number));
      } else if field == Price {
        it := it.(price := NumberOrZero(value.number));
      } else if field == Name {
        it := it.(name := value.text);
      } else {
        it := it.(unit := value.text);
      }
      updated := updated[index := it];
      items := updated;
    }

    /** `addItem`: one blank line at the end, the others kept in order. */
    method AddItem()
      modifies this`items
      ensures items == LineItems.AddItem(old(items))
      ensures |items| == |old(items)| + 1 && items[..|old(items)|] == old(items)
      ensures items[|old(items)|] == DefaultItem
    {
      items := LineItems.AddItem(items);
    }

    /** `removeItem(index)`: exactly line `index` is cut out, the rest keep their order;
        an index that is not a line changes nothing. */
    method RemoveItem(index: int)
      modifies this`items
      ensures items == LineItems.RemoveItem(old(items), index)
      ensures items == if 0 <= index < |old(items)| then old(items)[..index] + old(items)[index + 1..]
                       else old(items)
    {
      RemoveItemSplices(items, index);
      items := LineItems.RemoveItem(items, index);
    }

    /** `validate()`: the error record becomes the report for the current fields, and the
        answer is whether it is empty. */
    method Validate() returns (ok: bool)
      modifies this`errors
      ensures Reports(errors, client, business, dueDate, items)
      ensures ok <==> errors == map[]
      ensures ok <==> Passes(client, business, dueDate, items)
    {
      var e := CollectErrors(client, business, dueDate, items);
      errors := e;
      ok := |e.Keys| == 0;
    }

    /** The reset of a successful create: every field back to its default with a freshly
        generated invoice number, and no errors. */
    method ResetToBlank(c: Clock, u: real)
      requires ValidClock(c) && 0.0 <= u < 1.0
      modifies this
      ensures Fields() == DefaultFields(GenerateInvoiceNumber(c, u)) && errors == map[]
      ensures loading == old(loading) && alert == old(alert)
    {
      var f := DefaultFields(GenerateInvoiceNumber(c, u));
      invoiceNumber, client, clientEmail, clientPhone := f.invoiceNumber, f.client, f.clientEmail, f.clientPhone;
      business, businessContact, logoDataUrl := f.business, f.businessContact, f.logoDataUrl;
      items, dueDate, paymentMethod, status := f.items, f.dueDate, f.paymentMethod, f.status;
      discountPercent, taxPercent := f.discountPercent, f.taxPercent;
      errors := map[];
    }

    /** What `handleSubmit` does with the gateway's answer: a failure shows its message and
        keeps the fields; a success shows a confirmation, calls `onSuccess` when there is one, and
        resets the form when it was creating a new invoice. */
    method ApplyOutcome(outcome: GatewayOutcome, c: Clock, u: real) returns (onSuccessCalled: bool)
      requires ValidClock(c) && 0.0 <= u < 1.0
      modifies this
      ensures onSuccessCalled <==> outcome.Saved? && hasOnSuccess
      ensures loading == old(loading)
      ensures outcome.Failed? ==>
                alert == Some(Alert(Error, "Gagal menyimpan invoice. " + outcome.message))
                && Fields() == old(Fields()) && errors == old(errors)
      ensures outcome.Saved? ==>
                alert == Some(Alert(Success, if editId.Some? then "Invoice berhasil diupdate!"
                                             else "Invoice berhasil dibuat!"))
      ensures outcome.Saved? && editId.Some? ==> Fields() == old(Fields()) && errors == old(errors)
      ensures outcome.Saved? && editId.None? ==>
                Fields() == DefaultFields(GenerateInvoiceNumber(c, u)) && errors == map[]
    {
      if outcome.Failed? {
        alert := Some(Alert(Error, "Gagal menyimpan invoice. " + outcome.message));
        onSuccessCalled := false;
      } else {
        alert := Some(Alert(Success, if editId.Some? then "Invoice berhasil diupdate!"
                                     else "Invoice berhasil dibuat!"));
        onSuccessCalled := hasOnSuccess;
        if editId.None? {
          ResetToBlank(c, u);
        }
      }
    }

    /** `handleSubmit`: an invalid form stops after validation; a valid one is sent as an
        update of `editId` or as an insert of the payload built from the fields, and the
        gateway's answer is applied. */
    method HandleSubmit(outcome: GatewayOutcome, c: Clock, u: real)
      returns (request: Option<Request>, onSuccessCalled: bool)
      requires ValidClock(c) && 0.0 <= u < 1.0
      modifies this
      ensures Reports(errors, old(client), old(business), old(dueDate), old(items))
      ensures request.Some? <==> Passes(old(client), old(business), old(dueDate), old(items))
      ensures request.None? ==>
                !onSuccessCalled && Fields() == old(Fields()) && alert == old(alert)
                && loading == old(loading)
      ensures request.Some? ==>
                request.value == (if editId.Some? then Update(editId.value, PayloadOf(old(Fields())))
                                  else Insert(PayloadOf(old(Fields()))))
                && !loading
      ensures onSuccessCalled <==> request.Some? && outcome.Saved? && hasOnSuccess
      ensures request.Some? && outcome.Failed? ==>
                alert == Some(Alert(Error, "Gagal menyimpan invoice. " + outcome.message))
                && Fields() == old(Fields())
      ensures request.Some? && outcome.Saved? ==>
                alert == Some(Alert(Success, if editId.Some? then "Invoice berhasil diupdate!"
                                             else "Invoice berhasil dibuat!"))
                && Fields() == if editId.Some? then old(Fields())
                               else DefaultFields(GenerateInvoiceNumber(c, u))
    {
      var ok := Validate();
      if !ok {
        request, onSuccessCalled := None, false;
        return;
      }
      loading := true;
      alert := None;

      var payload := PayloadOf(Fields());
      if editId.Some? {
        request := Some(Update(editId.value, payload));
      } else {
        request := Some(Insert(payload));
      }

      loading := false;
      onSuccessCalled := ApplyOutcome(outcome, c, u);
    }
  }
}
