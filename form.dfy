/** The create/edit form: the field schema, and the submit handler that builds
    the payload and sends it to create (new invoice) or update (existing one). */
module InvoiceForm {
  import opened Wrappers
  import opened Invoices
  import opened Dates
  import opened InvoiceActions

  datatype Field = Name | InvoiceNumber | Amount | DueDate | Status

  /** The schema's messages, one per failing field. */
  type FieldErrors = map<Field, string>

  const NameRequired := "Name is required"
  const InvoiceNumberRequired := "Invoice Number is required"
  const AmountInvalid := "Amount must be a positive number"
  const DueDateRequired := "Due Date is required"
  const DueDateInvalid := "Due Date must be a valid date in the format YYYY-MM-DD"
  const StatusInvalid := "Status should be either Unpaid, Pending, or Paid"
  const SubmitFailed := "An error occurred while submitting the form"

  /** The form values the schema checks. `amount` and `status` are given as
      already converted by `parseFloat` and `parseInt` (or already numbers);
      None stands for NaN. */
  datatype FormInput = FormInput(
    name: string,
    invoiceNumber: string,
    amount: Option<real>,
    dueDate: string,
    status: Option<int>)

  /** `!isNaN(val) && val > 0`. */
  predicate AmountAccepted(amount: Option<real>)
  {
    amount.Some? && amount.value > 0.0
  }

  /** `!isNaN(val) && val <= 2`: there is no lower bound. */
  predicate StatusAccepted(status: Option<int>)
  {
    status.Some? && status.value <= 2
  }

  /** The first message the due-date rule reports, if any: the emptiness check
      comes first, then the calendar check. */
  function DueDateError(text: string): (e: Option<string>)
    ensures e.None? <==> ParseDate(text).Some?
    ensures text == "" ==> e == Some(DueDateRequired)
    ensures text != "" && e.Some? ==> e == Some(DueDateInvalid)
  {
    if text == "" then Some(DueDateRequired)
    else if ParseDate(text).None? then Some(DueDateInvalid)
    else None
  }

  function Only(failing: bool, field: Field, message: string): FieldErrors
  {
    if failing then map[field := message] else map[]
  }

  /** The field errors the schema reports for the input. */
  function Errors(i: FormInput): (errs: FieldErrors)
    ensures Name in errs <==> i.name == ""
    ensures InvoiceNumber in errs <==> i.invoiceNumber == ""
    ensures Amount in errs <==> !AmountAccepted(i.amount)
    ensures DueDate in errs <==> ParseDate(i.dueDate).None?
    ensures Status in errs <==> !StatusAccepted(i.status)
    ensures Name in errs ==> errs[Name] == NameRequired
    ensures InvoiceNumber in errs ==> errs[InvoiceNumber] == InvoiceNumberRequired
    ensures Amount in errs ==> errs[Amount] == AmountInvalid
    ensures DueDate in errs ==> errs[DueDate] == DueDateError(i.dueDate).value
    ensures Status in errs ==> errs[Status] == StatusInvalid
  {
    var due := DueDateError(i.dueDate);
    Only(i.name == "", Name, NameRequired)
    + Only(i.invoiceNumber == "", InvoiceNumber, InvoiceNumberRequired)
    + Only(!AmountAccepted(i.amount), Amount, AmountInvalid)
    + Only(due.Some?, DueDate, if due.Some? then due.value else "")
    + Only(!StatusAccepted(i.status), Status, StatusInvalid)
  }

  /** `invoiceSchema`: either the normalised invoice (the due date read as a
      calendar date) or the field errors. */
  function Validate(i: FormInput): (r: Result<InvoiceData, FieldErrors>)
    ensures r.Success? <==>
      i.name != "" && i.invoiceNumber != "" && AmountAccepted(i.amount)
      && ParseDate(i.dueDate).Some? && StatusAccepted(i.status)
    ensures r.Failure? ==> r.error == Errors(i) && r.error != map[]
    ensures r.Success? ==>
      r.value.name == i.name && r.value.invoiceNumber == i.invoiceNumber
      && Some(r.value.amount) == i.amount && Some(r.value.dueDate) == ParseDate(i.dueDate)
      && Some(r.value.status) == i.status
  {
    var errs := Errors(i);
    if errs == map[] then
      Success(InvoiceData(i.name, i.invoiceNumber, i.amount.value, ParseDate(i.dueDate).value, i.status.value))
    else
      assert exists f :: f in errs;
      Failure(errs)
  }

  /** What an accepted input always satisfies. The status is at most 2 but may
      be negative. */
  lemma ValidatedInvoice(i: FormInput)
    requires Validate(i).Success?
    ensures var d := Validate(i).value;
            d.name != "" && d.invoiceNumber != "" && d.amount > 0.0
            && Spellable(d.dueDate) && d.status <= 2
            && FormatDate(d.dueDate) == i.dueDate
  {
    FormatParse(i.dueDate);
  }

  /** The missing lower bound: a status of -1 passes the schema. */
  lemma NegativeStatusAccepted()
    ensures var i := FormInput("Acme", "INV-1", Some(10.0), FormatDate(Date(2024, 2, 29)), Some(-1));
            Validate(i).Success? && Validate(i).value.status == -1
  {
    ParseFormat(Date(2024, 2, 29));
  }

  /** 29 February is accepted in a leap year and refused in a common year. */
  lemma LeapDayRule()
    ensures Validate(FormInput("Acme", "INV-1", Some(10.0), FormatDate(Date(2024, 2, 29)), Some(0))).Success?
    ensures forall s :: ParseDate(s) != Some(Date(2023, 2, 29))
    ensures forall s :: ParseDate(s).Some? ==> ParseDate(s).value.day <= 31
  {
    ParseFormat(Date(2024, 2, 29));
  }

  /** An entry of the form's status picker. */
  datatype StatusOption = StatusOption(caption: string, value: int)

  /** The picker's entries, with their values already read as integers. */
  const StatusOptions := [
    StatusOption("Unpaid", Unpaid),
    StatusOption("Pending", Pending),
    StatusOption("Paid", Paid)
  ]

  /** What `submitHandler` receives: the schema fields, and the picker's
      `_status` selection when it is present. */
  datatype SubmitValues = SubmitValues(fields: InvoiceData, selection: Option<StatusOption>)

  /** The payload: every schema field as received, with the status taken from
      the selection when one is present and left as received otherwise. The
      payload has only the table's columns: `_status` itself is not sent. */
  function Payload(v: SubmitValues): (p: InvoiceData)
    ensures p.status == (if v.selection.Some? then v.selection.value.value else v.fields.status)
    ensures p.name == v.fields.name && p.invoiceNumber == v.fields.invoiceNumber
    ensures p.amount == v.fields.amount && p.dueDate == v.fields.dueDate
  {
    var status := if v.selection.Some? then v.selection.value.value else v.fields.status;
    v.fields.(status := status)
  }

  /** Which server action a submit calls: create when not editing, update of
      the edited id otherwise. */
  datatype ActionCall = CreateCall(data: InvoiceData) | UpdateCall(id: int, data: InvoiceData)

  function DispatchCall(isEdit: Option<int>, payload: InvoiceData): (c: ActionCall)
    ensures c.CreateCall? <==> isEdit.None?
    ensures c.UpdateCall? ==> c.id == isEdit.value
    ensures c.data == payload
  {
    if isEdit.None? then CreateCall(payload) else UpdateCall(isEdit.value, payload)
  }

  /** The effect of that call on the table. A create adds the payload under
      the next id; an edit replaces every column of the edited row, keeps its
      id, and never adds a row or moves the counter. */
  function Dispatch(db: Db, isEdit: Option<int>, payload: InvoiceData, dbFails: bool): (w: Written)
    requires WellKeyed(db)
    ensures WellKeyed(w.after)
    ensures w.response.status <==> !dbFails && (isEdit.None? || isEdit.value in db.rows)
    ensures !w.response.status ==> w.after == db && w.response.data.None?
    ensures w.response.message == if isEdit.None? then (if w.response.status then CreateOk else CreateError)
                                  else (if w.response.status then UpdateOk else UpdateError)
    ensures isEdit.None? && w.response.status ==>
      db.nextId !in db.rows
      && w.after.rows == db.rows[db.nextId := WithId(db.nextId, payload)]
      && w.response.data == Some(WithId(db.nextId, payload))
      && w.after.nextId == db.nextId + 1
    ensures isEdit.Some? && w.response.status ==>
      w.after.rows == db.rows[isEdit.value := WithId(isEdit.value, payload)]
      && w.response.data == Some(WithId(isEdit.value, payload))
    ensures isEdit.Some? ==> w.after.rows.Keys == db.rows.Keys && w.after.nextId == db.nextId
  {
    if isEdit.None? then CreateStep(db, payload, dbFails)
    else
      var w := UpdateStep(db, isEdit.value, FullPatch(payload), dbFails);
      if isEdit.value in db.rows then
        FullPatchReplaces(db.rows[isEdit.value], payload);
        w
      else w
  }

  /** As written: the form library hands `submitHandler` the schema's parsed
      output, and the schema has no `_status` key (an object schema drops keys
      it does not declare), so the picker's selection never arrives. */
  function ResolvedAsWritten(parsed: InvoiceData, selection: Option<StatusOption>): (v: SubmitValues)
    ensures v.fields == parsed && v.selection == None
  {
    SubmitValues(parsed, None)
  }

  /** Corrected: the selection reaches `submitHandler` alongside the fields.
      The fix also keeps `_status` out of what is sent to the server (the
      spread on the payload line would otherwise pass it on, and the ORM
      refuses a column it does not know); `Payload` builds only the table's
      columns. */
  function Resolved(parsed: InvoiceData, selection: Option<StatusOption>): (v: SubmitValues)
    ensures v.fields == parsed && v.selection == selection
  {
    SubmitValues(parsed, selection)
  }

  /** As written, a new invoice whose picker says Paid is stored as Unpaid,
      because the hidden `status` value keeps its default of 0. */
  lemma StatusSelectionDropped(db: Db)
    requires WellKeyed(db)
    ensures var parsed := InvoiceData("Acme", "INV-1", 10.0, Date(2024, 1, 1), Unpaid);
            var w := Dispatch(db, None, Payload(ResolvedAsWritten(parsed, Some(StatusOptions[2]))), false);
            w.response.data.Some? && w.response.data.value.status == Unpaid != StatusOptions[2].value
  {
  }

  /** Corrected, the stored status is the one picked; with no selection it is
      the submitted status. */
  lemma SelectionReachesPayload(parsed: InvoiceData, selection: Option<StatusOption>)
    ensures Payload(Resolved(parsed, selection)).status
            == if selection.Some? then selection.value.value else parsed.status
    ensures forall k :: 0 <= k < |StatusOptions| ==>
            Payload(Resolved(parsed, Some(StatusOptions[k]))).status == k
  {
  }

  /** The success notice as the page renders it: shown only while the form
      library's `isSubmitSuccessful` flag holds, with the server message when
      it is a non-empty text and a fixed sentence otherwise. */
  function SuccessNotice(submitSuccessful: bool, serverMessage: Option<string>, isEdit: Option<int>): (b: Option<string>)
    ensures b.Some? <==> submitSuccessful
    ensures b.Some? && serverMessage.Some? && serverMessage.value != "" ==> b.value == serverMessage.value
    ensures b.Some? && (serverMessage.None? || serverMessage.value == "") ==>
      b.value == if isEdit.Some? then "Invoice updated successfully" else "Invoice created successfully"
  {
    if !submitSuccessful then None
    else if serverMessage.Some? && serverMessage.value != "" then Some(serverMessage.value)
    else if isEdit.Some? then Some("Invoice updated successfully")
    else Some("Invoice created successfully")
  }

  /** The form's state: the `serverMessage` cell, the form library's
      `isSubmitSuccessful` flag (which decides whether the success notice is
      shown), the root error, the field errors, and the record of server
      actions called. `isEdit` is the id of the record being edited, None
      when creating. */
  class FormView {
    const store: InvoiceStore
    const isEdit: Option<int>
    var serverMessage: Option<string>
    var submitSuccessful: bool
    var rootError: Option<string>
    var fieldErrors: FieldErrors
    ghost var calls: seq<ActionCall>

    constructor (store: InvoiceStore, isEdit: Option<int>)
      ensures this.store == store && this.isEdit == isEdit
      ensures serverMessage == None && !submitSuccessful && rootError == None && fieldErrors == map[] && calls == []
    {
      this.store := store;
      this.isEdit := isEdit;
      serverMessage, submitSuccessful, rootError, fieldErrors := None, false, None, map[];
      calls := [];
    }

    /** `submitHandler`: exactly one server action is called; a failed answer
      sets the root error and leaves `serverMessage` alone, a successful one
      sets `serverMessage` to the answer's message. */
    method SubmitHandler(v: SubmitValues, dbFails: bool)
      requires store.Valid()
      modifies this`serverMessage, this`rootError, this`calls, store
      ensures store.Valid()
      ensures calls == old(calls) + [DispatchCall(isEdit, Payload(v))]
      ensures var w := Dispatch(old(store.State()), isEdit, Payload(v), dbFails);
        store.State() == w.after
        && store.revalidated == old(store.revalidated) + Revalidations(w.response)
        && (w.response.status ==> serverMessage == Some(w.response.message) && rootError == old(rootError))
        && (!w.response.status ==> rootError == Some(SubmitFailed) && serverMessage == old(serverMessage))
    {
      var payload := Payload(v);
      var response;
      if isEdit.None? {
        calls := calls + [CreateCall(payload)];
        response := store.CreateInvoice(payload, dbFails);
      } else {
        calls := calls + [UpdateCall(isEdit.value, payload)];
        response := store.UpdateInvoice(isEdit.value, FullPatch(payload), dbFails);
      }
      if !response.status {
        rootError := Some(SubmitFailed);
      } else {
        serverMessage := Some(response.message);
      }
    }

    /** Pressing the submit button, as written: the schema runs first
      (clearing the previous root error); an input it rejects shows its field
      errors and calls no server action; an accepted one is handed to
      `submitHandler` without the picker's selection. */
    method HandleSubmit(input: FormInput, selection: Option<StatusOption>, dbFails: bool)
      requires store.Valid()
      modifies this`serverMessage, this`submitSuccessful, this`rootError, this`fieldErrors, this`calls, store
      ensures store.Valid()
      ensures fieldErrors == Errors(input)
      ensures Validate(input).Failure? ==>
        calls == old(calls) && unchanged(store) && serverMessage == old(serverMessage) && rootError == None
        && !submitSuccessful
      ensures Validate(input).Success? ==>
        var payload := Payload(ResolvedAsWritten(Validate(input).value, selection));
        var w := Dispatch(old(store.State()), isEdit, payload, dbFails);
        calls == old(calls) + [DispatchCall(isEdit, payload)]
        && store.State() == w.after
        && store.revalidated == old(store.revalidated) + Revalidations(w.response)
        && (w.response.status ==> serverMessage == Some(w.response.message) && rootError == None)
        && (!w.response.status ==> rootError == Some(SubmitFailed) && serverMessage == old(serverMessage))
        && submitSuccessful == w.response.status
    {
      fieldErrors := Errors(input);
      rootError := None;
      submitSuccessful := false;
      match Validate(input)
      case Failure(_) =>
      case Success(parsed) =>
        SubmitHandler(ResolvedAsWritten(parsed, selection), dbFails);
        submitSuccessful := rootError == None;
    }

    /** The submit with the corrected resolver: the same steps, but the
      picker's selection reaches `submitHandler`. */
    method HandleSubmitCorrected(input: FormInput, selection: Option<StatusOption>, dbFails: bool)
      requires store.Valid()
      modifies this`serverMessage, this`submitSuccessful, this`rootError, this`fieldErrors, this`calls, store
      ensures store.Valid()
      ensures fieldErrors == Errors(input)
      ensures Validate(input).Failure? ==>
        calls == old(calls) && unchanged(store) && serverMessage == old(serverMessage) && rootError == None
        && !submitSuccessful
      ensures Validate(input).Success? ==>
        var payload := Payload(Resolved(Validate(input).value, selection));
        var w := Dispatch(old(store.State()), isEdit, payload, dbFails);
        calls == old(calls) + [DispatchCall(isEdit, payload)]
        && store.State() == w.after
        && store.revalidated == old(store.revalidated) + Revalidations(w.response)
        && (w.response.status ==> serverMessage == Some(w.response.message) && rootError == None)
        && (!w.response.status ==> rootError == Some(SubmitFailed) && serverMessage == old(serverMessage))
        && submitSuccessful == w.response.status
    {
      fieldErrors := Errors(input);
      rootError := None;
      submitSuccessful := false;
      match Validate(input)
      case Failure(_) =>
      case Success(parsed) =>
        SubmitHandler(Resolved(parsed, selection), dbFails);
        submitSuccessful := rootError == None;
    }
  }
}
