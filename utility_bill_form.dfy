/**
 * The upload step: one required file, sent with the record so far to create
 * the customer remotely. Only an ok response commits the file and the new
 * customer id; every other outcome leaves an error message.
 */
module UtilityBill {
  import opened Wrappers
  import opened Text
  import opened Forms
  import opened Remote
  import opened Index

  const BillRequired := "Utility bill is required"
  const UploadFailedPrefix := "Failed to upload file: "
  const TryAgain := "Please try again."
  // Written in two pieces so that the verifier can look at its characters.
  const NetworkError := "Network error. " + "Please check your connection and try again."

  /** The message of a non-ok response: the server's message when it has a
      non-empty one, else the generic retry hint. */
  function UploadFailure(message: Option<string>): (e: string)
    ensures StartsWith(e, UploadFailedPrefix)
    ensures Truthy(message) ==> e[|UploadFailedPrefix|..] == message.value
    ensures !Truthy(message) ==> e[|UploadFailedPrefix|..] == TryAgain
  {
    UploadFailedPrefix + OrElse(message, TryAgain)
  }

  /** Each outcome leaves its own message: none of the three failure
      messages can be mistaken for another, and none is empty. */
  lemma FailureMessagesDistinct(message: Option<string>)
    ensures UploadFailure(message) != BillRequired
    ensures UploadFailure(message) != NetworkError
    ensures UploadFailure(message) != ""
    ensures BillRequired != NetworkError
  {
    var e := UploadFailure(message);
    assert e[0] == 'F';
    assert NetworkError[0] == 'N';
  }

  /** The request of a submit: the record's contact block, location and zip
      code, and the chosen file. */
  function UploadRequest(f: FormData, file: File): (q: Request)
    ensures q.CreateCustomer? && q.utilityBill == file
    ensures q.personalInfo == f.personalInfo
    ensures q.location == Some(f.location) && q.zipCode == Some(f.zipCode)
  {
    CreateCustomer(f.personalInfo, Some(f.location), Some(f.zipCode), file)
  }

  /** The `setFormData` updater of an ok response: the file and the returned
      id are stored; nothing else changes. */
  function WithBill(prev: FormData, file: File, id: string): (r: FormData)
    ensures r.utilityBill == Some(file) && r.customerId == Some(id)
    ensures r.(utilityBill := prev.utilityBill, customerId := prev.customerId) == prev
  {
    prev.(utilityBill := Some(file), customerId := Some(id))
  }

  /** A commit keeps a canonical phone canonical, and a non-empty id makes
      the customer known to the later steps. */
  lemma WithBillKeepsRecord(prev: FormData, file: File, id: string)
    requires PhoneIsCanonical(prev)
    ensures PhoneIsCanonical(WithBill(prev, file, id))
    ensures HasCustomer(WithBill(prev, file, id)) <==> id != ""
  {
  }

  class UtilityBillForm {
    var uploadedFile: Option<File>
    var error: string
    var isSubmitting: bool

    constructor (formData: FormData)
      ensures uploadedFile == formData.utilityBill
      ensures error == "" && !isSubmitting
      ensures SubmitDisabled() <==> formData.utilityBill.None?
    {
      uploadedFile := formData.utilityBill;
      error := "";
      isSubmitting := false;
    }

    /** The Continue button is disabled without a file or while submitting. */
    predicate SubmitDisabled()
      reads this
    {
      uploadedFile.None? || isSubmitting
    }

    /** Choosing a file clears a shown error; clearing the file keeps it. */
    method HandleFileChange(file: Option<File>)
      modifies this
      ensures uploadedFile == file && isSubmitting == old(isSubmitting)
      ensures error == if file.Some? then "" else old(error)
    {
      uploadedFile := file;
      if file.Some? && error != "" {
        error := "";
      }
    }

    /** Without a file: the required-file error, no call, no change to the
        wizard. With one: the create call is made with the record so far, and
        its outcome decides. Only `Ok` commits and advances; a non-ok
        response or a thrown call only sets its message. */
    method HandleSubmit(w: Wizard, response: Response) returns (sent: Option<Request>)
      requires w.Valid()
      modifies this, w
      ensures w.Valid()
      ensures uploadedFile == old(uploadedFile)
      ensures uploadedFile.None? ==>
                sent == None && error == BillRequired && isSubmitting == old(isSubmitting)
                && w.formData == old(w.formData) && w.currentStep == old(w.currentStep)
      ensures uploadedFile.Some? ==>
                sent == Some(UploadRequest(old(w.formData), uploadedFile.value)) && !isSubmitting
      ensures uploadedFile.Some? && response.Ok? ==>
                error == ""
                && w.formData == WithBill(old(w.formData), uploadedFile.value, response.id)
                && w.currentStep == Advance(old(w.currentStep))
      ensures uploadedFile.Some? && !response.Ok? ==>
                w.formData == old(w.formData) && w.currentStep == old(w.currentStep)
      ensures uploadedFile.Some? && response.NotOk? ==> error == UploadFailure(response.message)
      ensures uploadedFile.Some? && response.Threw? ==> error == NetworkError
      ensures !old(isSubmitting) ==> !isSubmitting && (SubmitDisabled() <==> uploadedFile.None?)
      ensures !old(isSubmitting) ==> (old(SubmitDisabled()) <==> sent == None)
    {
      if uploadedFile.None? {
        error := BillRequired;
        return None;
      }
      isSubmitting := true;
      error := "";
      var file := uploadedFile.value;
      sent := Some(UploadRequest(w.formData, file));
      match response {
        case Ok(id) =>
          w.SetFormData(WithBill(w.formData, file, id));
          w.NextStep();
        case NotOk(message) =>
          error := UploadFailure(message);
        case Threw =>
          error := NetworkError;
      }
      isSubmitting := false;
    }
  }
}
