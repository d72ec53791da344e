/** The name step: first and last name, both required once trimmed. */
module Personal {
  import opened Wrappers
  import opened Text
  import opened Forms
  import opened Index

  const FirstNameRequired := "First name is required"
  const LastNameRequired := "Last name is required"

  /** The `setFormData` updater of a valid submit: the trimmed names are
      merged into `personalInfo`; its other fields and the rest of the
      record are kept. */
  function WithNames(prev: FormData, firstName: string, lastName: string): (r: FormData)
    ensures r.personalInfo.firstName == Some(Trim(firstName))
    ensures r.personalInfo.lastName == Some(Trim(lastName))
    ensures r.personalInfo.(firstName := prev.personalInfo.firstName,
                            lastName := prev.personalInfo.lastName) == prev.personalInfo
    ensures r.(personalInfo := prev.personalInfo) == prev
  {
    prev.(personalInfo := prev.personalInfo.(firstName := Some(Trim(firstName)),
                                              lastName := Some(Trim(lastName))))
  }

  /** After a valid submit the stored names are not blank. */
  lemma CommittedNamesNotBlank(prev: FormData, firstName: string, lastName: string)
    requires !IsBlank(firstName) && !IsBlank(lastName)
    ensures var p := WithNames(prev, firstName, lastName).personalInfo;
            p.firstName.value != "" && !IsWhitespace(p.firstName.value[0])
            && p.lastName.value != "" && !IsWhitespace(p.lastName.value[0])
  {
    BlankIffTrimEmpty(firstName);
    BlankIffTrimEmpty(lastName);
    TrimEnds(firstName);
    TrimEnds(lastName);
  }

  /** A commit leaves a canonical phone canonical. */
  lemma WithNamesKeepsPhone(prev: FormData, firstName: string, lastName: string)
    requires PhoneIsCanonical(prev)
    ensures PhoneIsCanonical(WithNames(prev, firstName, lastName))
  {
  }

  class PersonalInfoForm {
    var firstName: string
    var lastName: string
    var errors: map<string, string>

    constructor (formData: FormData)
      ensures firstName == OrElse(formData.personalInfo.firstName, "")
      ensures lastName == OrElse(formData.personalInfo.lastName, "")
      ensures errors == map[]
    {
      firstName := OrElse(formData.personalInfo.firstName, "");
      lastName := OrElse(formData.personalInfo.lastName, "");
      errors := map[];
    }

    /** Rebuilds the error map: one entry per blank field, with its message. */
    method ValidateForm() returns (valid: bool)
      modifies this
      ensures firstName == old(firstName) && lastName == old(lastName)
      ensures "firstName" in errors <==> IsBlank(firstName)
      ensures "lastName" in errors <==> IsBlank(lastName)
      ensures errors.Keys <= {"firstName", "lastName"}
      ensures "firstName" in errors ==> errors["firstName"] == FirstNameRequired
      ensures "lastName" in errors ==> errors["lastName"] == LastNameRequired
      ensures valid <==> errors == map[]
      ensures valid <==> !IsBlank(firstName) && !IsBlank(lastName)
    {
      var newErrors: map<string, string> := map[];
      if IsBlank(firstName) {
        newErrors := newErrors["firstName" := FirstNameRequired];
      }
      if IsBlank(lastName) {
        newErrors := newErrors["lastName" := LastNameRequired];
      }
      errors := newErrors;
      valid := |newErrors| == 0;
      assert "firstName" in errors ==> !valid;
    }

    /** The error map is rebuilt, one entry per blank name. An invalid form
        changes nothing in the wizard; a valid one commits the trimmed names
        and advances once. */
    method HandleSubmit(w: Wizard)
      requires w.Valid()
      modifies this, w
      ensures w.Valid()
      ensures firstName == old(firstName) && lastName == old(lastName)
      ensures errors.Keys <= {"firstName", "lastName"}
      ensures "firstName" in errors <==> IsBlank(firstName)
      ensures "lastName" in errors <==> IsBlank(lastName)
      ensures "firstName" in errors ==> errors["firstName"] == FirstNameRequired
      ensures "lastName" in errors ==> errors["lastName"] == LastNameRequired
      ensures IsBlank(firstName) || IsBlank(lastName) ==>
                w.formData == old(w.formData) && w.currentStep == old(w.currentStep) && errors != map[]
      ensures !IsBlank(firstName) && !IsBlank(lastName) ==>
                w.formData == WithNames(old(w.formData), firstName, lastName)
                && w.currentStep == Advance(old(w.currentStep)) && errors == map[]
    {
      var valid := ValidateForm();
      if !valid {
        return;
      }
      w.SetFormData(WithNames(w.formData, firstName, lastName));
      w.NextStep();
    }

    /** Any field name other than 'firstName' edits the last name; a shown
        error of the edited field is cleared to '' and no other entry changes. */
    method HandleInputChange(field: string, value: string)
      modifies this
      ensures field == "firstName" ==> firstName == value && lastName == old(lastName)
      ensures field != "firstName" ==> lastName == value && firstName == old(firstName)
      ensures var key := if field == "firstName" then "firstName" else "lastName";
              errors == if key in old(errors) && old(errors)[key] != "" then old(errors)[key := ""] else old(errors)
    {
      if field == "firstName" {
        firstName := value;
        if "firstName" in errors && errors["firstName"] != "" {
          errors := errors["firstName" := ""];
        }
      } else {
        lastName := value;
        if "lastName" in errors && errors["lastName"] != "" {
          errors := errors["lastName" := ""];
        }
      }
    }
  }
}
