/**
 * The new-expense form: the receipt-file checks, removing the photo, the
 * required-field check and the payload of the submit step. The receipt
 * checks, the required-field check and the payload shape are shared with
 * the edit form.
 */
module ExpenseForm {
  import opened Js

  /** 5 MiB, the largest receipt accepted. */
  const MaxReceiptBytes := 5 * 1024 * 1024
  const ImagePrefix := "image/"

  const TooLargeError := "File size must be less than 5MB"
  const NotImageError := "Please select an image file"
  const RequiredError := "Please fill in all required fields"
  const CreateError := "Error creating expense"

  /** What the file input reports of the chosen file. */
  datatype ReceiptFile = ReceiptFile(size: nat, mimeType: string)

  datatype FileCheck = NoFile | TooLarge | NotImage | Accepted(file: ReceiptFile)

  /**
   * The checks of `handleFileChange`, in order: no file does nothing, a
   * file over 5 MiB is refused before its type is looked at, and a type
   * not starting with 'image/' is refused.
   */
  function CheckReceipt(file: Option<ReceiptFile>): (r: FileCheck)
    ensures r.NoFile? <==> file.None?
    ensures r.TooLarge? <==> file.Some? && file.value.size > MaxReceiptBytes
    ensures r.NotImage? <==>
      file.Some? && file.value.size <= MaxReceiptBytes && !StartsWith(file.value.mimeType, ImagePrefix)
    ensures r.Accepted? ==>
      file == Some(r.file) && r.file.size <= MaxReceiptBytes && StartsWith(r.file.mimeType, ImagePrefix)
  {
    match file
    case None => NoFile
    case Some(f) =>
      if f.size > MaxReceiptBytes then TooLarge
      else if !StartsWith(f.mimeType, ImagePrefix) then NotImage
      else Accepted(f)
  }

  /** The message a refused file shows. */
  function FileError(check: FileCheck): string
    requires check.TooLarge? || check.NotImage?
  {
    if check.TooLarge? then TooLargeError else NotImageError
  }

  /** A file of exactly 5 MiB passes the size check; one byte more does not. */
  lemma SizeLimitBoundary(mimeType: string)
    ensures !CheckReceipt(Some(ReceiptFile(MaxReceiptBytes, mimeType))).TooLarge?
    ensures CheckReceipt(Some(ReceiptFile(MaxReceiptBytes + 1, mimeType))) == TooLarge
  {
  }

  /** The expense form's fields; `name`, `expenseDate` and `notes` are as JavaScript holds them. */
  datatype ExpenseFields = ExpenseFields(name: Value, amount: NumInput, expenseDate: Value, notes: Value)

  /** `!formData.name || !formData.amount`. */
  predicate MissingRequired(f: ExpenseFields) {
    !Truthy(f.name) || !NumTruthy(f.amount)
  }

  /** The body sent to the backend; the receipt is the preview's data URL (or null). */
  datatype ExpensePayload = ExpensePayload(
    name: Value, amount: Option<real>, expenseDate: Value, notes: Value, receiptPhoto: Value)

  /** The payload for filled-in fields: the fields as they are, the amount through `parseFloat`. */
  function BuildExpense(f: ExpenseFields, preview: Value): (r: ExpensePayload)
    requires !MissingRequired(f)
    ensures r.amount == Some(OrZero(f.amount))
    ensures r.name == f.name && Truthy(r.name)
    ensures r.expenseDate == f.expenseDate && r.notes == f.notes && r.receiptPhoto == preview
  {
    ExpensePayload(f.name, ParseFloat(f.amount), f.expenseDate, f.notes, preview)
  }

  /** `err.response?.data?.message || err.response?.data || fallback`. */
  function SaveErrorMessage(data: Value, fallback: string): (r: Value)
    ensures Truthy(Member(data, "message")) ==> r == Member(data, "message")
    ensures !Truthy(Member(data, "message")) && Truthy(data) ==> r == data
    ensures !Truthy(data) ==> r == Text(fallback)
  {
    Or(Member(data, "message"), Or(data, Text(fallback)))
  }

  class NewExpense {
    var formData: ExpenseFields
    var receiptPhoto: Option<ReceiptFile>
    var receiptPreview: Value
    var error: Value
    var loading: bool

    /** An empty form dated today. */
    constructor (today: string)
      ensures formData == ExpenseFields(Text(""), Blank, Text(today), Text(""))
      ensures receiptPhoto.None? && receiptPreview == Null && error == Text("") && !loading
    {
      formData := ExpenseFields(Text(""), Blank, Text(today), Text(""));
      receiptPhoto := None;
      receiptPreview := Null;
      error := Text("");
      loading := false;
    }

    /**
     * `handleFileChange`: an accepted file becomes the receipt photo; a
     * refused one sets its message and leaves the photo as it was; no
     * file changes nothing.
     */
    method HandleFileChange(file: Option<ReceiptFile>)
      modifies this`receiptPhoto, this`error
      ensures CheckReceipt(file).Accepted? ==> receiptPhoto == file && error == old(error)
      ensures CheckReceipt(file).TooLarge? ==> receiptPhoto == old(receiptPhoto) && error == Text(TooLargeError)
      ensures CheckReceipt(file).NotImage? ==> receiptPhoto == old(receiptPhoto) && error == Text(NotImageError)
      ensures CheckReceipt(file).NoFile? ==> receiptPhoto == old(receiptPhoto) && error == old(error)
    {
      var check := CheckReceipt(file);
      match check {
        case NoFile =>
        case TooLarge => error := Text(FileError(check));
        case NotImage => error := Text(FileError(check));
        case Accepted(f) => receiptPhoto := Some(f);
      }
    }

    /** The reader's `onloadend`: the data URL becomes the preview. */
    method PreviewLoaded(dataUrl: string)
      modifies this`receiptPreview
      ensures receiptPreview == Text(dataUrl)
    {
      receiptPreview := Text(dataUrl);
    }

    /** `removePhoto`: photo and preview both cleared. */
    method RemovePhoto()
      modifies this`receiptPhoto, this`receiptPreview
      ensures receiptPhoto.None? && receiptPreview == Null
    {
      receiptPhoto := None;
      receiptPreview := Null;
    }

    /**
     * `handleSubmit`: a missing name or amount sets the required-fields
     * error and sends nothing; otherwise `BuildExpense`'s payload is sent
     * and a failed request shows `SaveErrorMessage`. `loading` is false
     * when the handler is done.
     */
    method HandleSubmit(reply: Reply) returns (sent: Option<ExpensePayload>)
      modifies this`error, this`loading
      ensures !loading
      ensures MissingRequired(formData) ==> sent.None? && error == Text(RequiredError)
      ensures !MissingRequired(formData) ==> sent == Some(BuildExpense(formData, receiptPreview))
      ensures !MissingRequired(formData) && reply.Done? ==> error == Text("")
      ensures !MissingRequired(formData) && reply.Failed? ==> error == SaveErrorMessage(reply.data, CreateError)
    {
      error := Text("");
      loading := true;
      if MissingRequired(formData) {
        error := Text(RequiredError);
        loading := false;
        sent := None;
        return;
      }
      sent := Some(BuildExpense(formData, receiptPreview));
      if reply.Failed? {
        error := SaveErrorMessage(reply.data, CreateError);
      }
      loading := false;
    }
  }
}
