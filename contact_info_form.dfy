/**
 * The contact step: a phone number, reformatted as it is typed and stored
 * as digits only, and an email address.
 */
module Contact {
  import opened Wrappers
  import opened Text
  import opened Email
  import opened Forms
  import opened Index

  const PhoneRequired := "Phone number is required"
  const PhoneInvalid := "Please enter a valid 10-digit phone number"
  const EmailRequired := "Email is required"
  const EmailInvalid := "Please enter a valid email address"

  /** The first ten characters of a digit string (`slice(0, 10)`). */
  function FirstTen(d: string): (r: string)
    ensures |r| == if |d| <= 10 then |d| else 10
    ensures r == d[..|r|]
  {
    if |d| <= 10 then d else d[..10]
  }

  /** `formatPhoneNumber`: up to three digits bare, up to six as `(ddd) rest`,
      more as `(ddd) ddd-rest`, dropping digits past the tenth. */
  function FormatPhone(value: string): (r: string)
    ensures |r| <= 14
  {
    var d := Digits(value);
    if |d| <= 3 then d
    else if |d| <= 6 then "(" + d[..3] + ") " + d[3..]
    else "(" + d[..3] + ") " + d[3..6] + "-" + d[6..|FirstTen(d)|]
  }

  lemma DigitsOfPunctuation()
    ensures Digits("(") == "" && Digits(") ") == "" && Digits("-") == ""
  {
    DigitsOfNonDigits("(");
    DigitsOfNonDigits(") ");
    DigitsOfNonDigits("-");
  }

  lemma DigitsOfTwoGroups(a: string, b: string)
    requires AllDigits(a) && AllDigits(b)
    ensures Digits("(" + a + ") " + b) == a + b
  {
    DigitsOfPunctuation();
    var x := "(" + a;
    DigitsAppend("(", a);
    assert Digits(x) == a;
    var y := x + ") ";
    DigitsAppend(x, ") ");
    assert Digits(y) == a;
    DigitsAppend(y, b);
  }

  lemma DigitsOfThreeGroups(a: string, b: string, c: string)
    requires AllDigits(a) && AllDigits(b) && AllDigits(c)
    ensures Digits("(" + a + ") " + b + "-" + c) == a + b + c
  {
    DigitsOfPunctuation();
    var y := "(" + a + ") " + b;
    DigitsOfTwoGroups(a, b);
    var z := y + "-";
    DigitsAppend(y, "-");
    assert Digits(z) == a + b;
    DigitsAppend(z, c);
  }

  /** The digits of the formatted value are the first ten digits of the input. */
  lemma FormatPhoneDigits(value: string)
    ensures Digits(FormatPhone(value)) == FirstTen(Digits(value))
  {
    var d := Digits(value);
    if |d| <= 3 {
    } else if |d| <= 6 {
      DigitsOfTwoGroups(d[..3], d[3..]);
      assert d[..3] + d[3..] == d;
    } else {
      var n := |FirstTen(d)|;
      DigitsOfThreeGroups(d[..3], d[3..6], d[6..n]);
      assert d[..3] + d[3..6] + d[6..n] == d[..n];
    }
  }

  /** Formatting an already formatted value changes nothing. */
  lemma FormatPhoneIdempotent(value: string)
    ensures FormatPhone(FormatPhone(value)) == FormatPhone(value)
  {
    FormatPhoneDigits(value);
    var d := Digits(value);
    var e := FirstTen(d);
    assert Digits(FormatPhone(value)) == e;
    if |d| > 6 {
      assert e[..3] == d[..3] && e[3..6] == d[3..6];
      assert e[6..|FirstTen(e)|] == d[6..|e|];
    }
  }

  /** The formatted value has exactly one of the three shapes, chosen by the
      number of digits in the input. */
  lemma FormatPhoneShape(value: string)
    ensures var d := Digits(value); var r := FormatPhone(value);
            && (|d| <= 3 ==> r == d)
            && (4 <= |d| <= 6 ==> |r| == |d| + 3 && r[0] == '(' && r[4..6] == ") ")
            && (7 <= |d| ==> |r| == |FirstTen(d)| + 4 && r[0] == '(' && r[4..6] == ") " && r[9] == '-')
  {
  }

  /** Any input whose digits are 3125551212 formats as "(312) 555-1212". */
  lemma FormatsAsExample(value: string)
    requires Digits(value) == "3125551212"
    ensures FormatPhone(value) == "(312) 555-1212"
  {
    var d := "3125551212";
    assert FirstTen(d) == d;
    assert d[..3] == "312" && d[3..6] == "555" && d[6..10] == "1212";
    assert "(" + "312" + ") " + "555" + "-" + "1212" == "(312) 555-1212";
  }

  /** An example value, beside the general `FormatPhoneIdempotent` and
      `FormatPhoneDigits`: a fully formatted number is a fixed point, and
      its canonical form is the ten digits. */
  lemma FormattedExample()
    ensures Digits("(312) 555-1212") == "3125551212"
    ensures FormatPhone("(312) 555-1212") == "(312) 555-1212"
  {
    var s := "(" + "312" + ") " + "555" + "-" + "1212";
    DigitsOfThreeGroups("312", "555", "1212");
    assert "312" + "555" + "1212" == "3125551212";
    FormatsAsExample(s);
    assert s == "(312) 555-1212";
  }

  /** The phone error `validateForm` reports, if any. */
  function PhoneError(phone: string): (e: Option<string>)
    ensures e.Some? <==> |Digits(phone)| != 10
    ensures e == Some(PhoneRequired) <==> Digits(phone) == ""
  {
    var d := Digits(phone);
    if d == "" then Some(PhoneRequired)
    else if |d| != 10 then Some(PhoneInvalid)
    else None
  }

  /** The email error `validateForm` reports, if any. The pattern is tested
      on the untrimmed value. */
  function EmailError(email: string): (e: Option<string>)
    ensures e.Some? <==> IsBlank(email) || !LooksLikeEmail(email)
    ensures e == Some(EmailRequired) <==> IsBlank(email)
  {
    if IsBlank(email) then Some(EmailRequired)
    else if !LooksLikeEmail(email) then Some(EmailInvalid)
    else None
  }

  /** The `setFormData` updater of a valid submit: the phone is stored as
      digits only and the email trimmed; nothing else changes. */
  function WithContact(prev: FormData, phone: string, email: string): (r: FormData)
    ensures r.personalInfo.phone == Some(Digits(phone))
    ensures r.personalInfo.email == Some(Trim(email))
    ensures r.personalInfo.(phone := prev.personalInfo.phone,
                            email := prev.personalInfo.email) == prev.personalInfo
    ensures r.(personalInfo := prev.personalInfo) == prev
    ensures PhoneIsCanonical(r)
  {
    prev.(personalInfo := prev.personalInfo.(phone := Some(Digits(phone)),
                                              email := Some(Trim(email))))
  }

  class ContactInfoForm {
    var phone: string
    var email: string
    var errors: map<string, string>

    /** The local fields start from the record as stored (the phone unformatted). */
    constructor (formData: FormData)
      ensures phone == OrElse(formData.personalInfo.phone, "")
      ensures email == OrElse(formData.personalInfo.email, "")
      ensures errors == map[]
    {
      phone := OrElse(formData.personalInfo.phone, "");
      email := OrElse(formData.personalInfo.email, "");
      errors := map[];
    }

    /** Rebuilds the error map from the two field checks. */
    method ValidateForm() returns (valid: bool)
      modifies this
      ensures phone == old(phone) && email == old(email)
      ensures errors.Keys <= {"phone", "email"}
      ensures "phone" in errors <==> PhoneError(phone).Some?
      ensures "phone" in errors ==> errors["phone"] == PhoneError(phone).value
      ensures "email" in errors <==> EmailError(email).Some?
      ensures "email" in errors ==> errors["email"] == EmailError(email).value
      ensures valid <==> errors == map[]
      ensures valid <==> |Digits(phone)| == 10 && !IsBlank(email) && LooksLikeEmail(email)
    {
      var newErrors: map<string, string> := map[];
      var phoneDigits := Digits(phone);
      if phoneDigits == "" {
        newErrors := newErrors["phone" := PhoneRequired];
      } else if |phoneDigits| != 10 {
        newErrors := newErrors["phone" := PhoneInvalid];
      }
      if IsBlank(email) {
        newErrors := newErrors["email" := EmailRequired];
      } else if !LooksLikeEmail(email) {
        newErrors := newErrors["email" := EmailInvalid];
      }
      errors := newErrors;
      valid := |newErrors| == 0;
      assert "phone" in errors ==> !valid;
    }

    /** The error map is rebuilt from the two checks, and it is what an
        invalid submit shows. An invalid form changes nothing in the wizard;
        a valid one stores the digits-only phone and the trimmed email and
        advances once. */
    method HandleSubmit(w: Wizard)
      requires w.Valid()
      modifies this, w
      ensures w.Valid()
      ensures phone == old(phone) && email == old(email)
      ensures errors.Keys <= {"phone", "email"}
      ensures "phone" in errors <==> PhoneError(phone).Some?
      ensures "phone" in errors ==> errors["phone"] == PhoneError(phone).value
      ensures "email" in errors <==> EmailError(email).Some?
      ensures "email" in errors ==> errors["email"] == EmailError(email).value
      ensures var ok := |Digits(phone)| == 10 && !IsBlank(email) && LooksLikeEmail(email);
              && (!ok ==> w.formData == old(w.formData) && w.currentStep == old(w.currentStep))
              && (ok ==> w.formData == WithContact(old(w.formData), phone, email)
                         && |w.formData.personalInfo.phone.value| == 10
                         && w.currentStep == Advance(old(w.currentStep)))
    {
      var valid := ValidateForm();
      if !valid {
        return;
      }
      w.SetFormData(WithContact(w.formData, phone, email));
      w.NextStep();
    }

    /** The phone input shows the formatted value; a shown phone error is
        cleared to ''. */
    method HandlePhoneChange(value: string)
      modifies this
      ensures phone == FormatPhone(value) && email == old(email)
      ensures |Digits(phone)| <= 10
      ensures errors == if "phone" in old(errors) && old(errors)["phone"] != ""
                        then old(errors)["phone" := ""] else old(errors)
    {
      FormatPhoneDigits(value);
      phone := FormatPhone(value);
      if "phone" in errors && errors["phone"] != "" {
        errors := errors["phone" := ""];
      }
    }

    method HandleEmailChange(value: string)
      modifies this
      ensures email == value && phone == old(phone)
      ensures errors == if "email" in old(errors) && old(errors)["email"] != ""
                        then old(errors)["email" := ""] else old(errors)
    {
      email := value;
      if "email" in errors && errors["email"] != "" {
        errors := errors["email" := ""];
      }
    }
  }
}
