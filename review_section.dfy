/**
 * The review step (not placed in the wizard's table): it assembles one
 * submission record from the form record, with every missing contact
 * field spelled 'Not provided', appends it to the locally stored
 * `solarLeads` list and moves on.
 */
module Review {
  import opened Wrappers
  import opened Text
  import opened Forms
  import opened Storage
  import opened Index

  const NotProvided := "Not provided"
  const NewLead := "New Lead"

  /** A contact field of the record: the value when it is non-empty, else
      the placeholder. */
  function Field(o: Option<string>): (r: string)
    ensures r != ""
    ensures Truthy(o) ==> r == o.value
    ensures !Truthy(o) ==> r == NotProvided
  {
    OrElse(o, NotProvided)
  }

  /** The submission record. `id` stands for `Date.now()`; `uploadedAt` and
      `submittedAt` for the two `new Date().toISOString()` calls, in the
      order the record literal makes them. */
  function SubmissionRecord(f: FormData, id: string, uploadedAt: string, submittedAt: string): (lead: Lead)
    ensures lead.id == id && lead.submissionDate == submittedAt && lead.status == NewLead
    ensures lead.personalInfo == LeadContact(
              Field(f.personalInfo.firstName), Field(f.personalInfo.lastName),
              Field(f.personalInfo.phone), Field(f.personalInfo.email),
              Field(f.personalInfo.address))
    ensures lead.utilityBill.Some? <==> f.utilityBill.Some?
    ensures f.utilityBill.Some? ==> lead.utilityBill.value == UploadInfo(f.utilityBill.value.name, uploadedAt)
    ensures lead.quizAnswers == f.quizAnswers
  {
    var p := f.personalInfo;
    Lead(id,
         LeadContact(Field(p.firstName), Field(p.lastName), Field(p.phone), Field(p.email), Field(p.address)),
         if f.utilityBill.Some? then Some(UploadInfo(f.utilityBill.value.name, uploadedAt)) else None,
         f.quizAnswers,
         submittedAt,
         NewLead)
  }

  /** Every contact field of a record is filled in, and a field the visitor
      entered is kept as entered. */
  lemma RecordIsComplete(f: FormData, id: string, uploadedAt: string, submittedAt: string)
    ensures var c := SubmissionRecord(f, id, uploadedAt, submittedAt).personalInfo;
            c.firstName != "" && c.lastName != "" && c.phone != "" && c.email != "" && c.address != ""
    ensures f.personalInfo.email.Some? && f.personalInfo.email.value != "" ==>
              SubmissionRecord(f, id, uploadedAt, submittedAt).personalInfo.email == f.personalInfo.email.value
  {
  }

  /** The Submit button: the record is appended to `solarLeads` (an absent
      key reads as an empty list) and the wizard advances. */
  method HandleSubmit(w: Wizard, storage: LocalStorage, id: string, uploadedAt: string, submittedAt: string)
    requires w.Valid()
    modifies w, storage
    ensures w.Valid() && w.formData == old(w.formData)
    ensures w.currentStep == Advance(old(w.currentStep))
    ensures storage.items == WithLeadAppended(old(storage.items), SubmissionRecord(old(w.formData), id, uploadedAt, submittedAt))
  {
    var submission := SubmissionRecord(w.formData, id, uploadedAt, submittedAt);
    var existing := LeadsIn(storage.items);
    existing := existing + [submission];
    storage.SetItem(SolarLeadsKey, LeadList(existing));
    w.NextStep();
  }
}
