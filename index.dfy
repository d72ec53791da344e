/**
 * The wizard page: a fixed table of twelve sections, the current position
 * in it, and the shared form record. The only moves are one step forward
 * and one step back.
 */
module Index {
  import opened Wrappers
  import opened Forms

  datatype Section = Section(id: string, needsFormData: bool)

  /** The `sections` table, in order. */
  const Sections: seq<Section> := [
    Section("hero", false),
    Section("education", false),
    Section("ppa", false),
    Section("comparison", false),
    Section("zipcode", true),
    Section("personalinfo", true),
    Section("contactinfo", true),
    Section("utilitybill", true),
    Section("quiz", true),
    Section("savingsreport", true),
    Section("scheduling", true),
    Section("thankyou", false)
  ]

  const LastStep := |Sections| - 1

  predicate IsStep(i: int) {
    0 <= i < |Sections|
  }

  /** The step index after `nextStep`. */
  function Advance(step: int): (r: int)
    requires IsStep(step)
    ensures IsStep(r)
    ensures step < LastStep ==> r == step + 1
    ensures step == LastStep ==> r == step
  {
    if step < |Sections| - 1 then step + 1 else step
  }

  /** The step index after `prevStep`. */
  function Retreat(step: int): (r: int)
    requires IsStep(step)
    ensures IsStep(r)
    ensures step > 0 ==> r == step - 1
    ensures step == 0 ==> r == 0
  {
    if step > 0 then step - 1 else step
  }

  /** Going back and then forward again returns to the same step, and so
      does going forward and then back, away from the two ends. */
  lemma RetreatThenAdvance(step: int)
    requires IsStep(step)
    ensures step > 0 ==> Advance(Retreat(step)) == step
    ensures step < LastStep ==> Retreat(Advance(step)) == step
  {
  }

  /** What the mounted section receives. `formData` is present exactly when
      the section gets the record and its setter; `hasPrev` says whether it
      gets an `onPrev` action. */
  datatype StepProps = StepProps(sectionId: string, formData: Option<FormData>, hasPrev: bool)

  function PropsFor(step: int, formData: FormData): (p: StepProps)
    requires IsStep(step)
    ensures p.sectionId == Sections[step].id
    ensures p.formData.Some? <==> 4 <= step <= 10
    ensures p.formData.Some? ==> p.formData.value == formData
    ensures p.hasPrev <==> step > 0
  {
    StepProps(Sections[step].id,
              if Sections[step].needsFormData then Some(formData) else None,
              step > 0)
  }

  /** The progress bar's fraction `(currentStep + 1) / sections.length`, as
      numerator and denominator. */
  function Progress(step: int): (r: (int, int))
    requires IsStep(step)
    ensures 1 <= r.0 <= r.1 && r.1 == 12
    ensures r.0 == r.1 <==> step == LastStep
  {
    (step + 1, |Sections|)
  }

  class Wizard {
    var currentStep: int
    var formData: FormData

    ghost predicate Valid()
      reads this
    {
      IsStep(currentStep)
    }

    constructor ()
      ensures Valid()
      ensures currentStep == 0 && formData == InitialFormData
    {
      currentStep := 0;
      formData := InitialFormData;
    }

    /** The `onNext` action. */
    method NextStep()
      requires Valid()
      modifies this
      ensures Valid()
      ensures currentStep == Advance(old(currentStep))
      ensures formData == old(formData)
    {
      if currentStep < |Sections| - 1 {
        currentStep := currentStep + 1;
      }
    }

    /** The `onPrev` action. */
    method PrevStep()
      requires Valid()
      modifies this
      ensures Valid()
      ensures currentStep == Retreat(old(currentStep))
      ensures formData == old(formData)
    {
      if currentStep > 0 {
        currentStep := currentStep - 1;
      }
    }

    /** The `setFormData` setter handed to the data-collecting sections. */
    method SetFormData(f: FormData)
      modifies this
      ensures formData == f
      ensures currentStep == old(currentStep)
    {
      formData := f;
    }
  }
}
