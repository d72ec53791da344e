/**
 * The cross-tab notifier: a registry of callbacks per event name, a
 * channel that posts `{type, data}` messages to the other tabs, and the
 * helpers that keep the `solarLeads` list in local storage and announce
 * each change. Callbacks are identified by a number; posting appends to
 * the list of messages sent so far.
 */
module Socket {
  import opened Wrappers
  import opened Storage
  import Remote

  /** A registered callback, compared by identity as `indexOf` does. */
  type Callback = nat

  /** The `data` part of a message. */
  datatype Payload =
    | DataUpdated(key: string, data: Value)
    | NewCustomer(customer: Lead)
    | CustomerUpdated(customerId: string, updateData: Remote.Patch)

  /** A posted or received message: its `type` and its `data`. */
  datatype Message = Message(event: string, data: Payload)

  /** One callback called with one payload. */
  datatype Invocation = Invocation(callback: Callback, data: Payload)

  const DataUpdatedEvent := "data_updated"
  const NewCustomerEvent := "new_customer"
  const CustomerUpdatedEvent := "customer_updated"

  /** `listeners.get(event) || []`. */
  function ListenersOf(m: map<string, seq<Callback>>, event: string): (cbs: seq<Callback>)
    ensures event in m ==> cbs == m[event]
    ensures event !in m ==> cbs == []
  {
    if event in m then m[event] else []
  }

  /** The list without the first occurrence of `x`, or unchanged without one. */
  function RemoveFirst(s: seq<Callback>, x: Callback): (r: seq<Callback>)
    ensures x in s ==> |r| == |s| - 1
    ensures x !in s ==> r == s
  {
    if s == [] then []
    else if s[0] == x then s[1..]
    else [s[0]] + RemoveFirst(s[1..], x)
  }

  /** Removing the first occurrence is splicing at the first index of `x`. */
  lemma {:induction false} RemoveFirstAt(s: seq<Callback>, x: Callback, i: int)
    requires 0 <= i < |s| && s[i] == x && x !in s[..i]
    ensures RemoveFirst(s, x) == s[..i] + s[i + 1..]
  {
    if i > 0 {
      assert s[1..][..i - 1] == s[..i][1..];
      RemoveFirstAt(s[1..], x, i - 1);
      assert s[1..][i..] == s[i + 1..];
    }
  }

  /** Exactly one copy of `x` goes, and every other element stays. */
  lemma {:induction false} RemoveFirstMultiset(s: seq<Callback>, x: Callback)
    requires x in s
    ensures multiset(RemoveFirst(s, x)) == multiset(s) - multiset{x}
  {
    if s[0] == x {
      assert s == [s[0]] + s[1..];
    } else {
      RemoveFirstMultiset(s[1..], x);
      assert s == [s[0]] + s[1..];
    }
  }

  /** Removing what was just appended (and was not there before) gives back
      the original list. */
  lemma {:induction false} RemoveFirstOfAppended(s: seq<Callback>, x: Callback)
    requires x !in s
    ensures RemoveFirst(s + [x], x) == s
  {
    RemoveFirstAt(s + [x], x, |s|);
    assert (s + [x])[..|s|] == s;
  }

  /** The registry after `on(event, cb)`: the callback is appended to that
      event's list (duplicates allowed), and every other list is untouched. */
  function AfterOn(m: map<string, seq<Callback>>, event: string, cb: Callback): (r: map<string, seq<Callback>>)
    ensures r.Keys == m.Keys + {event}
    ensures ListenersOf(r, event) == ListenersOf(m, event) + [cb]
    ensures forall e :: e != event ==> ListenersOf(r, e) == ListenersOf(m, e)
  {
    m[event := ListenersOf(m, event) + [cb]]
  }

  /** The registry after `off(event, cb)`: that event's list loses the first
      occurrence of the callback; with none, nothing changes at all. */
  function AfterOff(m: map<string, seq<Callback>>, event: string, cb: Callback): (r: map<string, seq<Callback>>)
    ensures r.Keys == m.Keys
    ensures ListenersOf(r, event) == RemoveFirst(ListenersOf(m, event), cb)
    ensures forall e :: e != event ==> ListenersOf(r, e) == ListenersOf(m, e)
    ensures cb !in ListenersOf(m, event) ==> r == m
  {
    if cb in ListenersOf(m, event) then m[event := RemoveFirst(ListenersOf(m, event), cb)] else m
  }

  /** `on` and then `off` of a callback not yet registered for the event
      leaves every event's list as it was; the map itself is restored too,
      except that an event first seen by `on` keeps an empty list. */
  lemma OnThenOff(m: map<string, seq<Callback>>, event: string, cb: Callback)
    requires cb !in ListenersOf(m, event)
    ensures forall e :: ListenersOf(AfterOff(AfterOn(m, event, cb), event, cb), e) == ListenersOf(m, e)
    ensures event in m ==> AfterOff(AfterOn(m, event, cb), event, cb) == m
    ensures event !in m ==> AfterOff(AfterOn(m, event, cb), event, cb) == m[event := []]
  {
    RemoveFirstOfAppended(ListenersOf(m, event), cb);
  }

  /** `Array.prototype.indexOf`: the first index holding `x`, or -1. */
  method IndexOf(s: seq<Callback>, x: Callback) returns (index: int)
    ensures -1 <= index < |s|
    ensures index == -1 <==> x !in s
    ensures 0 <= index ==> s[index] == x && x !in s[..index]
  {
    var i := 0;
    while i < |s|
      invariant 0 <= i <= |s|
      invariant x !in s[..i]
    {
      if s[i] == x {
        return i;
      }
      assert s[..i + 1] == s[..i] + [s[i]];
      i := i + 1;
    }
    assert s[..i] == s;
    return -1;
  }

  class SocketManager {
    var listeners: map<string, seq<Callback>>
    /** Every message this tab has posted, oldest first. */
    var outbox: seq<Message>
    var closed: bool

    /** A fresh manager: no listeners, nothing posted, the channel open. */
    constructor ()
      ensures listeners == map[] && outbox == [] && !closed
    {
      listeners := map[];
      outbox := [];
      closed := false;
    }

    /** `on(event, callback)`. */
    method On(event: string, cb: Callback)
      modifies this
      ensures listeners == AfterOn(old(listeners), event, cb)
      ensures outbox == old(outbox) && closed == old(closed)
    {
      if event !in listeners {
        listeners := listeners[event := []];
      }
      listeners := listeners[event := listeners[event] + [cb]];
    }

    /** `off(event, callback)`: find the first index and splice it out. */
    method Off(event: string, cb: Callback)
      modifies this
      ensures listeners == AfterOff(old(listeners), event, cb)
      ensures outbox == old(outbox) && closed == old(closed)
    {
      var callbacks := ListenersOf(listeners, event);
      var index := IndexOf(callbacks, cb);
      if index > -1 {
        RemoveFirstAt(callbacks, cb, index);
        listeners := listeners[event := callbacks[..index] + callbacks[index + 1..]];
      }
    }

    /** The channel's `onmessage`: the callbacks of the message's type are
        called with its data, in registration order; a type nobody listens
        to calls none. */
    method Receive(msg: Message) returns (calls: seq<Invocation>)
      ensures |calls| == |ListenersOf(listeners, msg.event)|
      ensures forall i :: 0 <= i < |calls| ==>
                calls[i] == Invocation(ListenersOf(listeners, msg.event)[i], msg.data)
      ensures msg.event !in listeners ==> calls == []
    {
      var callbacks := ListenersOf(listeners, msg.event);
      calls := [];
      var i := 0;
      while i < |callbacks|
        invariant 0 <= i <= |callbacks| && |calls| == i
        invariant forall k :: 0 <= k < i ==> calls[k] == Invocation(callbacks[k], msg.data)
      {
        calls := calls + [Invocation(callbacks[i], msg.data)];
        i := i + 1;
      }
    }

    /** `emit(event, data)`: one message is posted. On a closed channel the
        post fails (`posted` is false) and nothing is sent. */
    method Emit(event: string, data: Payload) returns (posted: bool)
      modifies this
      ensures posted == !closed
      ensures outbox == if posted then old(outbox) + [Message(event, data)] else old(outbox)
      ensures listeners == old(listeners) && closed == old(closed)
    {
      if closed {
        return false;
      }
      outbox := outbox + [Message(event, data)];
      posted := true;
    }

    /** `storeAndBroadcast(key, data)`: the value is stored under the key and
        then exactly one 'data_updated' message carries both. */
    method StoreAndBroadcast(storage: LocalStorage, key: string, data: Value) returns (posted: bool)
      modifies this, storage
      ensures storage.items == old(storage.items)[key := data]
      ensures posted == !closed
      ensures outbox == if posted then old(outbox) + [Message(DataUpdatedEvent, DataUpdated(key, data))]
                        else old(outbox)
      ensures listeners == old(listeners) && closed == old(closed)
    {
      storage.SetItem(key, data);
      posted := Emit(DataUpdatedEvent, DataUpdated(key, data));
    }

    /** `notifyNewCustomer(customerData)`. */
    method NotifyNewCustomer(customer: Lead) returns (posted: bool)
      modifies this
      ensures posted == !closed
      ensures outbox == if posted then old(outbox) + [Message(NewCustomerEvent, NewCustomer(customer))]
                        else old(outbox)
      ensures listeners == old(listeners) && closed == old(closed)
    {
      posted := Emit(NewCustomerEvent, NewCustomer(customer));
    }

    /** `notifyCustomerUpdate(customerId, updateData)`. */
    method NotifyCustomerUpdate(customerId: string, updateData: Remote.Patch) returns (posted: bool)
      modifies this
      ensures posted == !closed
      ensures outbox == if posted
                        then old(outbox) + [Message(CustomerUpdatedEvent, CustomerUpdated(customerId, updateData))]
                        else old(outbox)
      ensures listeners == old(listeners) && closed == old(closed)
    {
      posted := Emit(CustomerUpdatedEvent, CustomerUpdated(customerId, updateData));
    }

    /** `close()`. */
    method Close()
      modifies this
      ensures closed && listeners == old(listeners) && outbox == old(outbox)
    {
      closed := true;
    }
  }

  /** `getSolarLeads`: the stored list, or [] when there is none. */
  function GetSolarLeads(storage: LocalStorage): (leads: seq<Lead>)
    reads storage
    ensures SolarLeadsKey !in storage.items ==> leads == []
    ensures SolarLeadsKey in storage.items && storage.items[SolarLeadsKey].LeadList? ==>
              leads == storage.items[SolarLeadsKey].leads
  {
    LeadsIn(storage.items)
  }

  /** `updateSolarLeads(newLead)`: the stored list gains the lead at its end,
      then 'data_updated' (with the new list) and 'new_customer' (with the
      lead) are posted in that order. A failed first post ends it there,
      after the store was written. */
  method UpdateSolarLeads(sm: SocketManager, storage: LocalStorage, lead: Lead)
    modifies sm, storage
    ensures storage.items == WithLeadAppended(old(storage.items), lead)
    ensures GetSolarLeads(storage) == old(GetSolarLeads(storage)) + [lead]
    ensures !old(sm.closed) ==>
              sm.outbox == old(sm.outbox)
                + [Message(DataUpdatedEvent, DataUpdated(SolarLeadsKey, LeadList(old(GetSolarLeads(storage)) + [lead]))),
                   Message(NewCustomerEvent, NewCustomer(lead))]
    ensures old(sm.closed) ==> sm.outbox == old(sm.outbox)
    ensures sm.listeners == old(sm.listeners) && sm.closed == old(sm.closed)
  {
    var existingData := GetSolarLeads(storage);
    var updatedData := existingData + [lead];
    var posted := sm.StoreAndBroadcast(storage, SolarLeadsKey, LeadList(updatedData));
    if !posted {
      return;
    }
    posted := sm.NotifyNewCustomer(lead);
  }

  /** `clearSolarLeads`: the stored list becomes [] and that is announced. */
  method ClearSolarLeads(sm: SocketManager, storage: LocalStorage)
    modifies sm, storage
    ensures storage.items == old(storage.items)[SolarLeadsKey := LeadList([])]
    ensures GetSolarLeads(storage) == []
    ensures sm.outbox == if old(sm.closed) then old(sm.outbox)
                         else old(sm.outbox) + [Message(DataUpdatedEvent, DataUpdated(SolarLeadsKey, LeadList([])))]
    ensures sm.listeners == old(sm.listeners) && sm.closed == old(sm.closed)
  {
    var posted := sm.StoreAndBroadcast(storage, SolarLeadsKey, LeadList([]));
  }

  /** `notifyNewCustomerSubmission(customerData)`. */
  method NotifyNewCustomerSubmission(sm: SocketManager, customer: Lead)
    modifies sm
    ensures sm.outbox == if old(sm.closed) then old(sm.outbox)
                         else old(sm.outbox) + [Message(NewCustomerEvent, NewCustomer(customer))]
    ensures sm.listeners == old(sm.listeners) && sm.closed == old(sm.closed)
  {
    var posted := sm.NotifyNewCustomer(customer);
  }

  /** `notifyQuizCompletion(customerId, quizAnswers)`: a 'customer_updated'
      message whose update is `{quizAnswers}`. */
  method NotifyQuizCompletion(sm: SocketManager, customerId: string, quizAnswers: map<int, string>)
    modifies sm
    ensures sm.outbox == if old(sm.closed) then old(sm.outbox)
                         else old(sm.outbox) + [Message(CustomerUpdatedEvent,
                                                        CustomerUpdated(customerId, Remote.QuizAnswers(quizAnswers)))]
    ensures sm.listeners == old(sm.listeners) && sm.closed == old(sm.closed)
  {
    var posted := sm.NotifyCustomerUpdate(customerId, Remote.QuizAnswers(quizAnswers));
  }
}
