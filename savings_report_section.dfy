/**
 * The delivery step: the customer picks how to receive the savings report.
 * The choice is saved remotely when a customer exists; whatever the
 * response, it is committed unless the call throws.
 */
module SavingsReport {
  import opened Wrappers
  import opened Text
  import opened Forms
  import opened Remote
  import opened Index

  /** The two radio values. */
  const DeliveryOptions: seq<string> := ["inperson", "virtual"]

  /** The `setFormData` updater: only `savingsReportDelivery` changes. */
  function WithDelivery(prev: FormData, deliveryMethod: string): (r: FormData)
    ensures r.savingsReportDelivery == deliveryMethod
    ensures r.(savingsReportDelivery := prev.savingsReportDelivery) == prev
  {
    prev.(savingsReportDelivery := deliveryMethod)
  }

  /** The save request, made only when a customer exists. */
  function SaveRequest(f: FormData, deliveryMethod: string): (sent: Option<Request>)
    ensures sent.Some? <==> HasCustomer(f)
    ensures sent.Some? ==> sent.value == UpdateCustomer(f.customerId.value, SavingsReportDelivery(deliveryMethod))
  {
    if HasCustomer(f) then Some(UpdateCustomer(f.customerId.value, SavingsReportDelivery(deliveryMethod)))
    else None
  }

  class SavingsReportSection {
    var deliveryMethod: string
    var isSubmitting: bool

    /** The local choice starts as the committed one ('' before any). */
    constructor (formData: FormData)
      ensures deliveryMethod == formData.savingsReportDelivery && !isSubmitting
      ensures SubmitDisabled() <==> formData.savingsReportDelivery == ""
    {
      deliveryMethod := formData.savingsReportDelivery;
      isSubmitting := false;
    }

    /** The radio group's `onValueChange`. */
    method SetDeliveryMethod(value: string)
      modifies this
      ensures deliveryMethod == value && isSubmitting == old(isSubmitting)
    {
      deliveryMethod := value;
    }

    /** The Continue button is disabled without a choice or while submitting. */
    predicate SubmitDisabled()
      reads this
    {
      deliveryMethod == "" || isSubmitting
    }

    /** An empty choice does nothing. Otherwise the save call is made when a
        customer exists; the choice is committed and the wizard advances
        unless that call throws. */
    method HandleSubmit(w: Wizard, response: Response) returns (sent: Option<Request>)
      requires w.Valid()
      modifies this, w
      ensures w.Valid() && deliveryMethod == old(deliveryMethod)
      ensures !old(isSubmitting) ==> !isSubmitting
      ensures old(SubmitDisabled()) && !old(isSubmitting) ==>
                sent == None && w.formData == old(w.formData) && w.currentStep == old(w.currentStep)
      ensures !old(SubmitDisabled()) && !(sent.Some? && response.Threw?) ==>
                w.currentStep == Advance(old(w.currentStep))
      ensures deliveryMethod == "" ==>
                sent == None && isSubmitting == old(isSubmitting)
                && w.formData == old(w.formData) && w.currentStep == old(w.currentStep)
      ensures deliveryMethod != "" ==>
                sent == SaveRequest(old(w.formData), deliveryMethod) && !isSubmitting
      ensures deliveryMethod != "" && sent.Some? && response.Threw? ==>
                w.formData == old(w.formData) && w.currentStep == old(w.currentStep)
      ensures deliveryMethod != "" && !(sent.Some? && response.Threw?) ==>
                w.formData == WithDelivery(old(w.formData), deliveryMethod)
                && w.currentStep == Advance(old(w.currentStep))
    {
      if deliveryMethod == "" {
        return None;
      }
      isSubmitting := true;
      sent := SaveRequest(w.formData, deliveryMethod);
      if sent.Some? && response.Threw? {
        isSubmitting := false;
        return;
      }
      w.SetFormData(WithDelivery(w.formData, deliveryMethod));
      w.NextStep();
      isSubmitting := false;
    }
  }
}
