/**
 * The browser's `localStorage`, shared by every component, as a map from
 * key to value. Values are kept typed instead of as JSON text: a plain
 * string (the admin flag) or a list of locally assembled lead records
 * (the `solarLeads` key).
 */
module Storage {
  import opened Wrappers

  /** The contact block of a locally stored lead; every field is filled in. */
  datatype LeadContact = LeadContact(firstName: string, lastName: string, phone: string,
                                     email: string, address: string)

  datatype UploadInfo = UploadInfo(name: string, uploadDate: string)

  /** One submission record as the review step assembles it. */
  datatype Lead = Lead(
    id: string,
    personalInfo: LeadContact,
    utilityBill: Option<UploadInfo>,
    quizAnswers: map<int, string>,
    submissionDate: string,
    status: string)

  datatype Value = Str(s: string) | LeadList(leads: seq<Lead>)

  const SolarLeadsKey := "solarLeads"

  /** `JSON.parse(localStorage.getItem('solarLeads') || '[]')`: an absent key
      reads as the empty list. */
  function LeadsIn(items: map<string, Value>): (r: seq<Lead>)
    ensures SolarLeadsKey !in items ==> r == []
    ensures SolarLeadsKey in items && items[SolarLeadsKey].LeadList? ==> r == items[SolarLeadsKey].leads
  {
    if SolarLeadsKey in items && items[SolarLeadsKey].LeadList? then items[SolarLeadsKey].leads else []
  }

  /** The `solarLeads` list read, extended by one record and written back:
      the stored list is the old one with the record at the end, and no
      other key changes. */
  function WithLeadAppended(items: map<string, Value>, lead: Lead): (r: map<string, Value>)
    ensures SolarLeadsKey in r && r[SolarLeadsKey].LeadList?
    ensures LeadsIn(r) == LeadsIn(items) + [lead]
    ensures r - {SolarLeadsKey} == items - {SolarLeadsKey}
  {
    items[SolarLeadsKey := LeadList(LeadsIn(items) + [lead])]
  }

  /** Appending keeps every earlier record where it was. */
  lemma AppendKeepsEarlierLeads(items: map<string, Value>, lead: Lead, i: int)
    requires 0 <= i < |LeadsIn(items)|
    ensures |LeadsIn(WithLeadAppended(items, lead))| == |LeadsIn(items)| + 1
    ensures LeadsIn(WithLeadAppended(items, lead))[i] == LeadsIn(items)[i]
    ensures LeadsIn(WithLeadAppended(items, lead))[|LeadsIn(items)|] == lead
  {
  }

  class LocalStorage {
    var items: map<string, Value>

    constructor ()
      ensures items == map[]
    {
      items := map[];
    }

    /** `getItem(key)`, with `null` for a missing key. */
    function GetItem(key: string): (r: Option<Value>)
      reads this
      ensures r.Some? <==> key in items
      ensures r.Some? ==> r.value == items[key]
    {
      if key in items then Some(items[key]) else None
    }

    method SetItem(key: string, value: Value)
      modifies this
      ensures items == old(items)[key := value]
    {
      items := items[key := value];
    }

    method RemoveItem(key: string)
      modifies this
      ensures items == old(items) - {key}
    {
      items := items - {key};
    }
  }
}
