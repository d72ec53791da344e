/** The address step: one free-text field committed verbatim to `location`. */
module ZipCode {
  import opened Forms
  import opened Index

  /** The local address a fresh form shows: the committed address, or ''
      while `location` is still the initial empty object. */
  function InitialAddress(f: FormData): (a: string)
    ensures f.location == Address(a) || (f.location == EmptyObject && a == "")
  {
    if f.location.Address? then f.location.text else ""
  }

  /** The `setFormData` updater of a submit: `location` becomes the address as
      typed (not trimmed) and nothing else changes. */
  function WithLocation(prev: FormData, fullAddress: string): (r: FormData)
    ensures r.location == Address(fullAddress)
    ensures r.(location := prev.location) == prev
  {
    prev.(location := Address(fullAddress))
  }

  /** Re-opening the step after a commit shows the committed address. */
  lemma CommittedAddressReloads(prev: FormData, fullAddress: string)
    ensures InitialAddress(WithLocation(prev, fullAddress)) == fullAddress
  {
  }

  class ZipCodeForm {
    var fullAddress: string

    constructor (formData: FormData)
      ensures fullAddress == InitialAddress(formData)
    {
      fullAddress := InitialAddress(formData);
    }

    /** The input's `onChange`. */
    method SetFullAddress(value: string)
      modifies this
      ensures fullAddress == value
    {
      fullAddress := value;
    }

    /** An empty address does nothing; otherwise the address is committed and
        the wizard advances once. */
    method HandleSubmit(w: Wizard)
      requires w.Valid()
      modifies w
      ensures w.Valid()
      ensures fullAddress == "" ==> w.formData == old(w.formData) && w.currentStep == old(w.currentStep)
      ensures fullAddress != "" ==> w.formData == WithLocation(old(w.formData), fullAddress)
                                    && w.currentStep == Advance(old(w.currentStep))
    {
      if fullAddress == "" {
        return;
      }
      w.SetFormData(WithLocation(w.formData, fullAddress));
      w.NextStep();
    }
  }
}
