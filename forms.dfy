/**
 * The shared `formData` record that the wizard owns and hands to the
 * data-collecting steps. Every field a step may leave unset is optional.
 */
module Forms {
  import opened Wrappers
  import opened Text

  /** An uploaded file, as far as the wizard reads it. */
  datatype File = File(name: string, size: nat)

  /** `location` starts as the empty object `{}` and becomes a string once
      the address step commits. */
  datatype Location = EmptyObject | Address(text: string)

  /** `personalInfo` starts as `{}`; each field is absent until a step writes it. */
  datatype PersonalInfo = PersonalInfo(
    firstName: Option<string>,
    lastName: Option<string>,
    phone: Option<string>,
    email: Option<string>,
    address: Option<string>)

  const NoPersonalInfo := PersonalInfo(None, None, None, None, None)

  datatype FormData = FormData(
    zipCode: string,
    location: Location,
    personalInfo: PersonalInfo,
    utilityBill: Option<File>,
    quizAnswers: map<int, string>,
    savingsReportDelivery: string,
    customerId: Option<string>,
    scheduledDate: Option<int>,
    scheduledTime: Option<string>)

  /** The record the wizard starts from. */
  const InitialFormData := FormData("", EmptyObject, NoPersonalInfo, None, map[], "", None, None, None)

  /** `if (formData.customerId)`: a customer has been created remotely. */
  predicate HasCustomer(f: FormData) {
    Truthy(f.customerId)
  }

  /** The stored phone, when there is one, is digits only. */
  predicate PhoneIsCanonical(f: FormData) {
    f.personalInfo.phone.Some? ==> AllDigits(f.personalInfo.phone.value)
  }
}
