/**
 * The expense edit form: loading the stored expense into the form, the
 * same receipt checks and photo removal as the new-expense form, and the
 * update submit with its `submitting` flag.
 */
module ExpenseEdit {
  import opened Js
  import opened ExpenseForm

  const UpdateError := "Error updating expense"
  const LoadError := "Error loading expense"

  /** An expense as the backend returns it; the amount is a JavaScript number (Blank when null). */
  datatype StoredExpense = StoredExpense(name: Value, amount: NumInput, expenseDate: Value, notes: Value, receiptPhoto: Value)

  /** The form filled from a stored expense: notes default to '', the rest copied as is. */
  function LoadedFields(e: StoredExpense): (r: ExpenseFields)
    ensures r.name == e.name && r.amount == e.amount && r.expenseDate == e.expenseDate
    ensures Truthy(e.notes) ==> r.notes == e.notes
    ensures !Truthy(e.notes) ==> r.notes == Text("")
  {
    ExpenseFields(e.name, e.amount, e.expenseDate, Or(e.notes, Text("")))
  }

  /** A loaded amount of the number 0 fails the required-field check. */
  lemma LoadedZeroAmountIsMissing(e: StoredExpense)
    requires e.amount == Stored(0.0)
    ensures MissingRequired(LoadedFields(e))
  {
  }

  class EditExpense {
    var formData: ExpenseFields
    var receiptPhoto: Option<ReceiptFile>
    var receiptPreview: Value
    var error: Value
    var loading: bool
    var submitting: bool

    /** The page as mounted: empty fields, loading. */
    constructor ()
      ensures formData == ExpenseFields(Text(""), Blank, Text(""), Text(""))
      ensures receiptPhoto.None? && receiptPreview == Null && error == Text("") && loading && !submitting
    {
      formData := ExpenseFields(Text(""), Blank, Text(""), Text(""));
      receiptPhoto := None;
      receiptPreview := Null;
      error := Text("");
      loading := true;
      submitting := false;
    }

    /**
     * `loadExpense`: the stored expense fills the form; its photo becomes
     * the preview only when it has one. `reply` is None when the request
     * failed, and also when the body is null or undefined, because reading
     * `expense.name` then throws into the same catch. A failure sets the
     * load error. Loading ends either way.
     */
    method LoadExpense(reply: Option<StoredExpense>)
      modifies this`formData, this`receiptPreview, this`error, this`loading
      ensures !loading
      ensures reply.Some? ==> formData == LoadedFields(reply.value) && error == old(error)
      ensures reply.Some? && Truthy(reply.value.receiptPhoto) ==> receiptPreview == reply.value.receiptPhoto
      ensures reply.Some? && !Truthy(reply.value.receiptPhoto) ==> receiptPreview == old(receiptPreview)
      ensures reply.None? ==>
        formData == old(formData) && receiptPreview == old(receiptPreview) && error == Text(LoadError)
    {
      if reply.Some? {
        var e := reply.value;
        formData := LoadedFields(e);
        if Truthy(e.receiptPhoto) {
          receiptPreview := e.receiptPhoto;
        }
      } else {
        error := Text(LoadError);
      }
      loading := false;
    }

    /** `handleFileChange`: the same checks, in the same order, as the new-expense form. */
    method HandleFileChange(file: Option<ReceiptFile>)
      modifies this`receiptPhoto, this`error
      ensures CheckReceipt(file).Accepted? ==> receiptPhoto == file && error == old(error)
      ensures CheckReceipt(file).TooLarge? ==> receiptPhoto == old(receiptPhoto) && error == Text(TooLargeError)
      ensures CheckReceipt(file).NotImage? ==> receiptPhoto == old(receiptPhoto) && error == Text(NotImageError)
      ensures CheckReceipt(file).NoFile? ==> receiptPhoto == old(receiptPhoto) && error == old(error)
    {
      var check := CheckReceipt(file);
      match check {
        case NoFile =>
        case TooLarge => error := Text(FileError(check));
        case NotImage => error := Text(FileError(check));
        case Accepted(f) => receiptPhoto := Some(f);
      }
    }

    /** The reader's `onloadend`: the data URL becomes the preview. */
    method PreviewLoaded(dataUrl: string)
      modifies this`receiptPreview
      ensures receiptPreview == Text(dataUrl)
    {
      receiptPreview := Text(dataUrl);
    }

    /** `removePhoto`: photo and preview both cleared. */
    method RemovePhoto()
      modifies this`receiptPhoto, this`receiptPreview
      ensures receiptPhoto.None? && receiptPreview == Null
    {
      receiptPhoto := None;
      receiptPreview := Null;
    }

    /**
     * `handleSubmit`: a missing name or amount sets the required-fields
     * error and sends nothing; otherwise the update carries `BuildExpense`'s
     * payload and a failed request shows `SaveErrorMessage`. `submitting`
     * is false when the handler is done.
     */
    method HandleSubmit(reply: Reply) returns (sent: Option<ExpensePayload>)
      modifies this`error, this`submitting
      ensures !submitting
      ensures MissingRequired(formData) ==> sent.None? && error == Text(RequiredError)
      ensures !MissingRequired(formData) ==> sent == Some(BuildExpense(formData, receiptPreview))
      ensures !MissingRequired(formData) && reply.Done? ==> error == Text("")
      ensures !MissingRequired(formData) && reply.Failed? ==> error == SaveErrorMessage(reply.data, UpdateError)
    {
      error := Text("");
      submitting := true;
      if MissingRequired(formData) {
        error := Text(RequiredError);
        submitting := false;
        sent := None;
        return;
      }
      sent := Some(BuildExpense(formData, receiptPreview));
      if reply.Failed? {
        error := SaveErrorMessage(reply.data, UpdateError);
      }
      submitting := false;
    }
  }
}
