/**
 * The admin dashboard: it is shown only while the `adminAuthenticated`
 * flag reads 'true', lists the customers fetched from the backend, counts
 * them, colours each status and deletes a record on a confirmed, ok
 * delete call.
 */
module Admin {
  import opened Wrappers
  import opened Text
  import opened Forms
  import opened Storage
  import opened Credentials
  import Remote
  import Review
  import Scheduling
  import SavingsReport

  const LoginRoute := "/admin-login"

  /** The fields of a backend customer record that the dashboard reads. */
  datatype Customer = Customer(id: string, status: string, utilityBill: Option<File>,
                               savingsReportDelivery: Option<string>)

  /** The outcome of the list call. */
  datatype ListResponse = ListOk(customers: seq<Customer>) | ListNotOk | ListThrew

  /** `customers.filter(customer => customer._id !== customerId)`. */
  function WithoutId(cs: seq<Customer>, id: string): (r: seq<Customer>)
    ensures |r| <= |cs|
    ensures forall c :: c in r ==> c in cs && c.id != id
    ensures forall c :: c in cs && c.id != id ==> c in r
  {
    if cs == [] then []
    else (if cs[0].id == id then [] else [cs[0]]) + WithoutId(cs[1..], id)
  }

  /** Filtering works piece by piece, so the kept records keep their order. */
  lemma {:induction false} WithoutIdAppend(a: seq<Customer>, b: seq<Customer>, id: string)
    ensures WithoutId(a + b, id) == WithoutId(a, id) + WithoutId(b, id)
  {
    if a == [] {
      assert a + b == b;
    } else {
      assert (a + b)[1..] == a[1..] + b;
      WithoutIdAppend(a[1..], b, id);
    }
  }

  /** Without a record of that id the list is unchanged. */
  lemma {:induction false} WithoutAbsentId(cs: seq<Customer>, id: string)
    requires forall c :: c in cs ==> c.id != id
    ensures WithoutId(cs, id) == cs
  {
    if cs != [] {
      WithoutAbsentId(cs[1..], id);
      assert cs == [cs[0]] + cs[1..];
    }
  }

  /** Deleting twice is deleting once. */
  lemma WithoutIdIdempotent(cs: seq<Customer>, id: string)
    ensures WithoutId(WithoutId(cs, id), id) == WithoutId(cs, id)
  {
    WithoutAbsentId(WithoutId(cs, id), id);
  }

  /** `customer.utilityBill?.name` is truthy. */
  predicate HasBill(c: Customer) {
    c.utilityBill.Some? && c.utilityBill.value.name != ""
  }

  /** The Scheduled card: the records whose status is 'Scheduled'. */
  function ScheduledCount(cs: seq<Customer>): (n: nat)
    ensures n <= |cs|
    ensures n == 0 <==> forall c :: c in cs ==> c.status != Scheduling.ScheduledStatus
  {
    if cs == [] then 0
    else (if cs[0].status == Scheduling.ScheduledStatus then 1 else 0) + ScheduledCount(cs[1..])
  }

  /** The With-Utility-Bills card: the records with a named bill. */
  function BillCount(cs: seq<Customer>): (n: nat)
    ensures n <= |cs|
    ensures n == 0 <==> forall c :: c in cs ==> !HasBill(c)
  {
    if cs == [] then 0
    else (if HasBill(cs[0]) then 1 else 0) + BillCount(cs[1..])
  }

  /** A delete never raises either count. */
  lemma {:induction false} DeleteNeverRaisesCounts(cs: seq<Customer>, id: string)
    ensures ScheduledCount(WithoutId(cs, id)) <= ScheduledCount(cs)
    ensures BillCount(WithoutId(cs, id)) <= BillCount(cs)
  {
    if cs != [] {
      DeleteNeverRaisesCounts(cs[1..], id);
      var rest := WithoutId(cs[1..], id);
      if cs[0].id != id {
        assert WithoutId(cs, id) == [cs[0]] + rest;
        assert ([cs[0]] + rest)[1..] == rest;
      } else {
        assert WithoutId(cs, id) == rest;
      }
    }
  }

  /** The three summary cards. */
  datatype Stats = Stats(total: nat, scheduled: nat, withBills: nat)

  function StatsOf(cs: seq<Customer>): (s: Stats)
    ensures s.total == |cs|
    ensures s.scheduled <= s.total && s.withBills <= s.total
  {
    Stats(|cs|, ScheduledCount(cs), BillCount(cs))
  }

  const GreenBadge := "bg-green-100 text-green-800"
  const BlueBadge := "bg-blue-100 text-blue-800"
  const GrayBadge := "bg-gray-100 text-gray-800"

  /** `getStatusColor`. */
  function StatusColor(status: string): (color: string)
    ensures color == GreenBadge <==> status == Scheduling.ScheduledStatus
    ensures color == BlueBadge <==> status == Review.NewLead
    ensures color == GrayBadge <==> status != Scheduling.ScheduledStatus && status != Review.NewLead
  {
    if status == Scheduling.ScheduledStatus then GreenBadge
    else if status == Review.NewLead then BlueBadge
    else GrayBadge
  }

  /** A record the review step stores shows blue, and a customer the
      scheduling step updated shows green. */
  lemma StatusesOfTheFunnel(f: FormData, id: string, uploadedAt: string, submittedAt: string,
                            date: int, time: string)
    ensures StatusColor(Review.SubmissionRecord(f, id, uploadedAt, submittedAt).status) == BlueBadge
    ensures HasCustomer(f) ==>
              StatusColor(Scheduling.ScheduleRequest(f, date, time).value.patch.status) == GreenBadge
  {
  }

  /** The delivery line: absent for a missing or empty choice, otherwise
      'In Person' for 'inperson' and 'Virtual' for anything else. */
  function DeliveryLabel(d: Option<string>): (shown: Option<string>)
    ensures shown.None? <==> !Truthy(d)
    ensures Truthy(d) && d.value == "inperson" ==> shown == Some("In Person")
    ensures Truthy(d) && d.value != "inperson" ==> shown == Some("Virtual")
  {
    if !Truthy(d) then None
    else if d.value == "inperson" then Some("In Person")
    else Some("Virtual")
  }

  /** The two choices of the delivery step show as two different labels. */
  lemma DeliveryChoicesLabelled()
    ensures DeliveryLabel(Some(SavingsReport.DeliveryOptions[0])) == Some("In Person")
    ensures DeliveryLabel(Some(SavingsReport.DeliveryOptions[1])) == Some("Virtual")
  {
    assert SavingsReport.DeliveryOptions[1][0] != "inperson"[0];
  }

  class AdminPage {
    var customers: seq<Customer>
    var loading: bool
    var isAuthenticated: bool

    constructor ()
      ensures customers == [] && loading && !isAuthenticated
    {
      customers := [];
      loading := true;
      isAuthenticated := false;
    }

    /** The spinner shows until the page is authenticated and loaded. */
    predicate ShowsSpinner()
      reads this
    {
      !isAuthenticated || loading
    }

    /** The mount check: without the flag, go to the login page; with it,
        the page becomes authenticated. */
    method CheckAuthentication(storage: LocalStorage) returns (navigateTo: Option<string>)
      modifies this
      ensures navigateTo == if FlagSet(storage.items) then None else Some(LoginRoute)
      ensures isAuthenticated == (FlagSet(storage.items) || old(isAuthenticated))
      ensures customers == old(customers) && loading == old(loading)
      ensures !FlagSet(storage.items) && !old(isAuthenticated) ==> ShowsSpinner()
    {
      var authStatus := storage.GetItem(AuthFlagKey);
      if authStatus != Some(Str(AuthFlagValue)) {
        return Some(LoginRoute);
      }
      isAuthenticated := true;
      navigateTo := None;
    }

    /** `fetchCustomers`: an ok list replaces the customers, anything else
        keeps them; loading ends either way. */
    method FetchCustomers(response: ListResponse)
      modifies this
      ensures customers == if response.ListOk? then response.customers else old(customers)
      ensures !loading && isAuthenticated == old(isAuthenticated)
      ensures ShowsSpinner() <==> !isAuthenticated
    {
      if response.ListOk? {
        customers := response.customers;
      }
      loading := false;
    }

    /** The two mount effects in order: the authentication check, then the
        first fetch, which runs only once the page is authenticated. The
        spinner stays exactly while the page is not authenticated. */
    method Mount(storage: LocalStorage, response: ListResponse) returns (navigateTo: Option<string>)
      modifies this
      ensures navigateTo == if FlagSet(storage.items) then None else Some(LoginRoute)
      ensures isAuthenticated == (FlagSet(storage.items) || old(isAuthenticated))
      ensures isAuthenticated ==> !loading
      ensures isAuthenticated ==>
                customers == if response.ListOk? then response.customers else old(customers)
      ensures !isAuthenticated ==> customers == old(customers) && loading == old(loading)
      ensures ShowsSpinner() <==> !FlagSet(storage.items) && !old(isAuthenticated)
    {
      navigateTo := CheckAuthentication(storage);
      if isAuthenticated {
        FetchCustomers(response);
      }
    }

    /** `handleLogout`: the flag is removed and the login page opens. */
    method HandleLogout(storage: LocalStorage) returns (navigateTo: string)
      modifies storage
      ensures storage.items == old(storage.items) - {AuthFlagKey}
      ensures !FlagSet(storage.items)
      ensures navigateTo == LoginRoute
    {
      storage.RemoveItem(AuthFlagKey);
      navigateTo := LoginRoute;
    }

    /** `deleteCustomer`: a declined confirmation makes no call; a confirmed
        one sends the delete, and only an ok response drops every record
        with that id. */
    method DeleteCustomer(id: string, confirmed: bool, response: Remote.Response)
      returns (sent: Option<Remote.Request>)
      modifies this
      ensures sent == if confirmed then Some(Remote.DeleteCustomer(id)) else None
      ensures customers == if confirmed && response.Ok? then WithoutId(old(customers), id) else old(customers)
      ensures loading == old(loading) && isAuthenticated == old(isAuthenticated)
    {
      if !confirmed {
        return None;
      }
      sent := Some(Remote.DeleteCustomer(id));
      if response.Ok? {
        customers := WithoutId(customers, id);
      }
    }
  }
}
