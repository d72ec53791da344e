/**
 * The remote customer API, reduced to what the components observe: the
 * request each handler issues and the outcome it gets back.
 */
module Remote {
  import opened Wrappers
  import opened Text
  import Forms

  /** The outcome of one `fetch`: an ok response (with the `_id` of the
      body where the caller reads one), a non-ok response (with the body's
      `message` when it could be read), or a thrown error. */
  datatype Response = Ok(id: string) | NotOk(message: Option<string>) | Threw

  /** The JSON bodies of the update calls. */
  datatype Patch =
    | QuizAnswers(quizAnswers: map<int, string>)
    | SavingsReportDelivery(savingsReportDelivery: string)
    | Schedule(scheduledDate: int, scheduledTime: string, status: string)

  datatype Request =
    | CreateCustomer(personalInfo: Forms.PersonalInfo, location: Option<Forms.Location>,
                     zipCode: Option<string>, utilityBill: Forms.File)
    | UpdateCustomer(customerId: string, patch: Patch)
    | DeleteCustomer(customerId: string)

  /** The customers collection of the backend, below its host. */
  const CustomersPath := "/api/customers"

  /** The path a request goes to: creation posts to the collection, and an
      update or a delete addresses the customer below it. The host is not
      modelled (the wizard and the admin page use different ones). */
  function PathOf(q: Request): (p: string)
    ensures StartsWith(p, CustomersPath)
    ensures q.CreateCustomer? ==> p == CustomersPath
    ensures !q.CreateCustomer? ==>
              |p| == |CustomersPath| + 1 + |q.customerId| && p[|CustomersPath|] == '/'
              && p[|CustomersPath| + 1..] == q.customerId
  {
    if q.CreateCustomer? then CustomersPath else CustomersPath + "/" + q.customerId
  }

  /** Different customers are addressed at different paths, whatever the
      request does to them. */
  lemma PathNamesTheCustomer(q1: Request, q2: Request)
    requires !q1.CreateCustomer? && !q2.CreateCustomer?
    requires PathOf(q1) == PathOf(q2)
    ensures q1.customerId == q2.customerId
  {
    assert q1.customerId == PathOf(q1)[|CustomersPath| + 1..];
  }
}
