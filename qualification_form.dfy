/**
 * The one-page qualification form (not placed in the wizard's table): the
 * five contact fields and the bill together, validated at once and sent to
 * create the customer. Only an ok response commits and advances; every
 * other outcome changes nothing.
 */
module Qualification {
  import opened Wrappers
  import opened Text
  import opened Email
  import opened Forms
  import opened Remote
  import opened Index
  import Personal
  import Contact
  import UtilityBill

  const PhoneInvalid := "Please enter a valid phone number"
  const AddressRequired := "Address is required"

  /** The local `personalInfo` state: five strings, '' when not yet filled. */
  datatype Details = Details(firstName: string, lastName: string, phone: string,
                             email: string, address: string)

  /** The input names, which are also the error keys of the fields. */
  const FieldNames: set<string> := {"firstName", "lastName", "phone", "email", "address"}

  function InitialDetails(f: FormData): (d: Details)
    ensures d.firstName == OrElse(f.personalInfo.firstName, "")
    ensures d.lastName == OrElse(f.personalInfo.lastName, "")
    ensures d.phone == OrElse(f.personalInfo.phone, "")
    ensures d.email == OrElse(f.personalInfo.email, "")
    ensures d.address == OrElse(f.personalInfo.address, "")
  {
    var p := f.personalInfo;
    Details(OrElse(p.firstName, ""), OrElse(p.lastName, ""), OrElse(p.phone, ""),
            OrElse(p.email, ""), OrElse(p.address, ""))
  }

  /** The phone check of this form: blank is "required"; otherwise at least
      ten digits must remain once non-digits are stripped. */
  function PhoneError(phone: string): (e: Option<string>)
    ensures e.Some? <==> IsBlank(phone) || |Digits(phone)| < 10
    ensures e == Some(Contact.PhoneRequired) <==> IsBlank(phone)
    ensures e == Some(PhoneInvalid) <==> !IsBlank(phone) && |Digits(phone)| < 10
  {
    if IsBlank(phone) then Some(Contact.PhoneRequired)
    else if |Digits(phone)| < 10 then Some(PhoneInvalid)
    else None
  }

  /** A whitespace-only phone is reported as missing, not as malformed. */
  lemma WhitespacePhoneIsMissing(phone: string)
    requires Trim(phone) == ""
    ensures PhoneError(phone) == Some(Contact.PhoneRequired)
  {
    BlankIffTrimEmpty(phone);
  }

  /** Every phone the contact step accepts (exactly ten digits) is accepted
      here (at least ten), but not the other way round. */
  lemma ContactPhoneAccepted(phone: string)
    ensures |Digits(phone)| == 10 ==> PhoneError(phone) == None
    ensures PhoneError("12345678901") == None && Contact.PhoneError("12345678901").Some?
  {
    if |Digits(phone)| == 10 {
      DigitsNotBlank(phone);
    }
    DigitsNotBlank("12345678901");
  }

  /** The submitted contact block: every field present, as typed. */
  function AsPersonalInfo(d: Details): (p: PersonalInfo)
    ensures p == PersonalInfo(Some(d.firstName), Some(d.lastName), Some(d.phone),
                              Some(d.email), Some(d.address))
  {
    PersonalInfo(Some(d.firstName), Some(d.lastName), Some(d.phone), Some(d.email), Some(d.address))
  }

  /** The `setFormData` updater of an ok response: the contact block is
      replaced by the local fields, the file and the new id are stored, and
      nothing else changes. */
  function WithQualification(prev: FormData, d: Details, file: Option<File>, id: string): (r: FormData)
    ensures r.personalInfo == AsPersonalInfo(d)
    ensures r.utilityBill == file && r.customerId == Some(id)
    ensures r.(personalInfo := prev.personalInfo, utilityBill := prev.utilityBill,
               customerId := prev.customerId) == prev
  {
    prev.(personalInfo := AsPersonalInfo(d), utilityBill := file, customerId := Some(id))
  }

  /** Unlike the contact step, this commit stores the phone as typed, so a
      formatted phone leaves the record with a non-digit phone. */
  lemma CommitKeepsTypedPhone(prev: FormData, d: Details, file: Option<File>, id: string)
    requires d.phone == "(312) 555-1212"
    ensures !PhoneIsCanonical(WithQualification(prev, d, file, id))
  {
    var p := WithQualification(prev, d, file, id).personalInfo.phone.value;
    assert !IsDigit(p[0]);
  }

  /** The create request: the contact block and the file, with neither
      location nor zip code. */
  function SubmitRequest(d: Details, file: File): (q: Request)
    ensures q.CreateCustomer? && q.personalInfo == AsPersonalInfo(d) && q.utilityBill == file
    ensures q.location == None && q.zipCode == None
  {
    CreateCustomer(AsPersonalInfo(d), None, None, file)
  }

  /** `validateForm`'s error map, filled one check after the other: each
      key is present exactly when its check fails, with that check's
      message. */
  method BuildErrors(d: Details, file: Option<File>) returns (newErrors: map<string, string>)
    ensures newErrors.Keys <= FieldNames + {"utilityBill"}
    ensures ("firstName" in newErrors <==> IsBlank(d.firstName))
            && ("firstName" in newErrors ==> newErrors["firstName"] == Personal.FirstNameRequired)
    ensures ("lastName" in newErrors <==> IsBlank(d.lastName))
            && ("lastName" in newErrors ==> newErrors["lastName"] == Personal.LastNameRequired)
    ensures ("phone" in newErrors <==> PhoneError(d.phone).Some?)
            && ("phone" in newErrors ==> newErrors["phone"] == PhoneError(d.phone).value)
    ensures ("email" in newErrors <==> Contact.EmailError(d.email).Some?)
            && ("email" in newErrors ==> newErrors["email"] == Contact.EmailError(d.email).value)
    ensures ("address" in newErrors <==> IsBlank(d.address))
            && ("address" in newErrors ==> newErrors["address"] == AddressRequired)
    ensures ("utilityBill" in newErrors <==> file.None?)
            && ("utilityBill" in newErrors ==> newErrors["utilityBill"] == UtilityBill.BillRequired)
  {
    newErrors := map[];
    if IsBlank(d.firstName) {
      newErrors := newErrors["firstName" := Personal.FirstNameRequired];
    }
    if IsBlank(d.lastName) {
      newErrors := newErrors["lastName" := Personal.LastNameRequired];
    }
    var phoneError := PhoneError(d.phone);
    if phoneError.Some? {
      newErrors := newErrors["phone" := phoneError.value];
    }
    var emailError := Contact.EmailError(d.email);
    if emailError.Some? {
      newErrors := newErrors["email" := emailError.value];
    }
    if IsBlank(d.address) {
      newErrors := newErrors["address" := AddressRequired];
    }
    if file.None? {
      newErrors := newErrors["utilityBill" := UtilityBill.BillRequired];
    }
  }

  /** Every check of the form passes. */
  predicate AllChecksPass(d: Details, file: Option<File>) {
    && !IsBlank(d.firstName) && !IsBlank(d.lastName) && PhoneError(d.phone).None?
    && Contact.EmailError(d.email).None? && !IsBlank(d.address) && file.Some?
  }

  class QualificationForm {
    var info: Details
    var uploadedFile: Option<File>
    var errors: map<string, string>
    var isSubmitting: bool

    constructor (formData: FormData)
      ensures info == InitialDetails(formData) && uploadedFile == formData.utilityBill
      ensures errors == map[] && !isSubmitting
    {
      info := InitialDetails(formData);
      uploadedFile := formData.utilityBill;
      errors := map[];
      isSubmitting := false;
    }

    /** Rebuilds the error map from the current fields; the form is valid
        exactly when no check fails. */
    method ValidateForm() returns (valid: bool)
      modifies this
      ensures info == old(info) && uploadedFile == old(uploadedFile) && isSubmitting == old(isSubmitting)
      ensures errors.Keys <= FieldNames + {"utilityBill"}
      ensures ("firstName" in errors <==> IsBlank(info.firstName))
              && ("firstName" in errors ==> errors["firstName"] == Personal.FirstNameRequired)
      ensures ("lastName" in errors <==> IsBlank(info.lastName))
              && ("lastName" in errors ==> errors["lastName"] == Personal.LastNameRequired)
      ensures ("phone" in errors <==> PhoneError(info.phone).Some?)
              && ("phone" in errors ==> errors["phone"] == PhoneError(info.phone).value)
      ensures ("email" in errors <==> Contact.EmailError(info.email).Some?)
              && ("email" in errors ==> errors["email"] == Contact.EmailError(info.email).value)
      ensures ("address" in errors <==> IsBlank(info.address))
              && ("address" in errors ==> errors["address"] == AddressRequired)
      ensures ("utilityBill" in errors <==> uploadedFile.None?)
              && ("utilityBill" in errors ==> errors["utilityBill"] == UtilityBill.BillRequired)
      ensures valid <==> errors == map[]
      ensures valid <==> AllChecksPass(info, uploadedFile)
    {
      errors := BuildErrors(info, uploadedFile);
      valid := |errors| == 0;
      assert "firstName" in errors ==> !valid;
    }

    /** An input's `onChange`: the named field takes the value (a name that
        is not one of the five leaves them all as they are), and a shown
        error under that name is cleared to ''. */
    method HandlePersonalInfoChange(name: string, value: string)
      modifies this
      ensures info == match name
                      case "firstName" => old(info).(firstName := value)
                      case "lastName" => old(info).(lastName := value)
                      case "phone" => old(info).(phone := value)
                      case "email" => old(info).(email := value)
                      case "address" => old(info).(address := value)
                      case _ => old(info)
      ensures errors == if name in old(errors) && old(errors)[name] != "" then old(errors)[name := ""] else old(errors)
      ensures uploadedFile == old(uploadedFile) && isSubmitting == old(isSubmitting)
    {
      match name {
        case "firstName" => info := info.(firstName := value);
        case "lastName" => info := info.(lastName := value);
        case "phone" => info := info.(phone := value);
        case "email" => info := info.(email := value);
        case "address" => info := info.(address := value);
        case _ =>
      }
      if name in errors && errors[name] != "" {
        errors := errors[name := ""];
      }
    }

    /** Choosing a file clears a shown bill error; clearing the file keeps it. */
    method HandleFileChange(file: Option<File>)
      modifies this
      ensures uploadedFile == file && info == old(info) && isSubmitting == old(isSubmitting)
      ensures errors == if file.Some? && "utilityBill" in old(errors) && old(errors)["utilityBill"] != ""
                        then old(errors)["utilityBill" := ""] else old(errors)
    {
      uploadedFile := file;
      if file.Some? && "utilityBill" in errors && errors["utilityBill"] != "" {
        errors := errors["utilityBill" := ""];
      }
    }

    /** An invalid form makes no call. A valid one sends the fields and the
        file; only an ok response commits them with the new id and advances. */
    method HandleSubmit(w: Wizard, response: Response) returns (sent: Option<Request>)
      requires w.Valid()
      modifies this, w
      ensures w.Valid() && info == old(info) && uploadedFile == old(uploadedFile)
      ensures errors.Keys <= FieldNames + {"utilityBill"}
      ensures ("firstName" in errors <==> IsBlank(info.firstName))
              && ("firstName" in errors ==> errors["firstName"] == Personal.FirstNameRequired)
      ensures ("lastName" in errors <==> IsBlank(info.lastName))
              && ("lastName" in errors ==> errors["lastName"] == Personal.LastNameRequired)
      ensures ("phone" in errors <==> PhoneError(info.phone).Some?)
              && ("phone" in errors ==> errors["phone"] == PhoneError(info.phone).value)
      ensures ("email" in errors <==> Contact.EmailError(info.email).Some?)
              && ("email" in errors ==> errors["email"] == Contact.EmailError(info.email).value)
      ensures ("address" in errors <==> IsBlank(info.address))
              && ("address" in errors ==> errors["address"] == AddressRequired)
      ensures ("utilityBill" in errors <==> uploadedFile.None?)
              && ("utilityBill" in errors ==> errors["utilityBill"] == UtilityBill.BillRequired)
      ensures errors == map[] <==> AllChecksPass(info, uploadedFile)
      ensures errors != map[] ==>
                sent == None && isSubmitting == old(isSubmitting)
                && w.formData == old(w.formData) && w.currentStep == old(w.currentStep)
      ensures errors == map[] ==>
                uploadedFile.Some? && sent == Some(SubmitRequest(info, uploadedFile.value)) && !isSubmitting
      ensures errors == map[] && response.Ok? ==>
                w.formData == WithQualification(old(w.formData), info, uploadedFile, response.id)
                && w.currentStep == Advance(old(w.currentStep))
      ensures !response.Ok? ==> w.formData == old(w.formData) && w.currentStep == old(w.currentStep)
    {
      var valid := ValidateForm();
      if !valid {
        return None;
      }
      isSubmitting := true;
      sent := Some(SubmitRequest(info, uploadedFile.value));
      if response.Ok? {
        w.SetFormData(WithQualification(w.formData, info, uploadedFile, response.id));
        w.NextStep();
      }
      isSubmitting := false;
    }
  }
}
