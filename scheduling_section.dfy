/**
 * The appointment step. Days are integer day numbers and today is an
 * input; only the five days from today on can be picked. A day and one of
 * thirteen hourly slots are sent as the appointment; they are committed
 * only when a customer exists and the response is ok.
 */
module Scheduling {
  import opened Wrappers
  import opened Text
  import opened Forms
  import opened Remote
  import opened Index

  /** `availableDates`: today and the four days after it. */
  function AvailableDates(today: int): (ds: seq<int>)
    ensures |ds| == 5
    ensures forall i :: 0 <= i < 5 ==> ds[i] == today + i
  {
    seq(5, i => today + i)
  }

  /** `isDateClickable`: the day is one of the available dates. */
  predicate IsDateClickable(today: int, date: int) {
    date in AvailableDates(today)
  }

  /** The clickable window is exactly today .. today + 4. */
  lemma ClickableIffWithinFiveDays(today: int, date: int)
    ensures IsDateClickable(today, date) <==> today <= date <= today + 4
  {
    var ds := AvailableDates(today);
    if today <= date <= today + 4 {
      assert ds[date - today] == date;
    }
  }

  /** `timeSlots`. */
  const TimeSlots: seq<string> := [
    "9:00 AM", "10:00 AM", "11:00 AM", "12:00 PM",
    "1:00 PM", "2:00 PM", "3:00 PM", "4:00 PM",
    "5:00 PM", "6:00 PM", "7:00 PM", "8:00 PM", "9:00 PM"
  ]

  /** Thirteen distinct slots from 9:00 AM to 9:00 PM. */
  lemma TimeSlotsDistinct()
    ensures |TimeSlots| == 13
    ensures TimeSlots[0] == "9:00 AM" && TimeSlots[12] == "9:00 PM"
    ensures forall i, j :: 0 <= i < j < |TimeSlots| ==> TimeSlots[i] != TimeSlots[j]
  {
    forall i, j | 0 <= i < j < |TimeSlots|
      ensures TimeSlots[i] != TimeSlots[j]
    {
      var a, b := TimeSlots[i], TimeSlots[j];
      if |a| == |b| {
        assert a[0] != b[0] || a[1] != b[1] || a[|a| - 2] != b[|b| - 2];
      }
    }
  }

  /** A calendar month. Only the month of `currentMonth` is ever read, so
      the month is its whole state. */
  type Month = m: int | 1 <= m <= 12 witness 1
  datatype YearMonth = YearMonth(year: int, month: Month)

  /** `goToPreviousMonth`: the day before the first of the month lies in the
      month before. */
  function MonthBefore(m: YearMonth): (r: YearMonth)
    ensures r.year * 12 + r.month == m.year * 12 + m.month - 1
  {
    if m.month == 1 then YearMonth(m.year - 1, 12) else YearMonth(m.year, m.month - 1)
  }

  /** `goToNextMonth`: the day after the last of the month lies in the month
      after. */
  function MonthAfter(m: YearMonth): (r: YearMonth)
    ensures r.year * 12 + r.month == m.year * 12 + m.month + 1
  {
    if m.month == 12 then YearMonth(m.year + 1, 1) else YearMonth(m.year, m.month + 1)
  }

  /** Previous and next month undo each other. */
  lemma MonthNavigationRoundTrip(m: YearMonth)
    ensures MonthAfter(MonthBefore(m)) == m
    ensures MonthBefore(MonthAfter(m)) == m
  {
  }

  /** The `setFormData` updater of an ok response: only the appointment
      fields change. */
  function WithSchedule(prev: FormData, date: int, time: string): (r: FormData)
    ensures r.scheduledDate == Some(date) && r.scheduledTime == Some(time)
    ensures r.(scheduledDate := prev.scheduledDate, scheduledTime := prev.scheduledTime) == prev
  {
    prev.(scheduledDate := Some(date), scheduledTime := Some(time))
  }

  /** The status an appointment sets on the customer. */
  const ScheduledStatus := "Scheduled"

  /** The update request, made only when a customer exists. */
  function ScheduleRequest(f: FormData, date: int, time: string): (sent: Option<Request>)
    ensures sent.Some? <==> HasCustomer(f)
    ensures sent.Some? ==> sent.value == UpdateCustomer(f.customerId.value, Schedule(date, time, ScheduledStatus))
  {
    if HasCustomer(f) then Some(UpdateCustomer(f.customerId.value, Schedule(date, time, ScheduledStatus)))
    else None
  }

  /** The path `handleScheduleSubmit` requests as written: the customer id
      right below the host, without the customers collection. */
  function SchedulePathAsWritten(customerId: string): (p: string)
    ensures |p| == 1 + |customerId| && p[0] == '/' && p[1..] == customerId
  {
    "/" + customerId
  }

  /** As written, the appointment goes to a different path from the one
      every other update of that customer uses, for every customer id. */
  lemma SchedulePathMissesTheCustomer(f: FormData, date: int, time: string)
    requires HasCustomer(f)
    ensures SchedulePathAsWritten(f.customerId.value) != PathOf(ScheduleRequest(f, date, time).value)
  {
  }

  /** Corrected: the appointment addresses the customer at the same path as
      the quiz and delivery updates of that customer. */
  lemma ScheduleAddressesTheCustomer(f: FormData, date: int, time: string, other: Patch)
    requires HasCustomer(f)
    ensures PathOf(ScheduleRequest(f, date, time).value) == PathOf(UpdateCustomer(f.customerId.value, other))
    ensures PathOf(ScheduleRequest(f, date, time).value)[|CustomersPath| + 1..] == f.customerId.value
  {
  }

  class SchedulingSection {
    var selectedDate: Option<int>
    var selectedTime: string
    var isSubmitting: bool
    var currentMonth: YearMonth

    /** Nothing is selected at first; the calendar shows the current month. */
    constructor (thisMonth: YearMonth)
      ensures selectedDate == None && selectedTime == "" && !isSubmitting
      ensures currentMonth == thisMonth
      ensures SubmitDisabled()
    {
      selectedDate := None;
      selectedTime := "";
      isSubmitting := false;
      currentMonth := thisMonth;
    }

    /** A click selects the day only when it is clickable on `today`. */
    method HandleDateClick(today: int, date: int)
      modifies this
      ensures today <= date <= today + 4 ==> selectedDate == Some(date)
      ensures !(today <= date <= today + 4) ==> selectedDate == old(selectedDate)
      ensures selectedTime == old(selectedTime) && currentMonth == old(currentMonth)
      ensures isSubmitting == old(isSubmitting)
    {
      ClickableIffWithinFiveDays(today, date);
      if IsDateClickable(today, date) {
        selectedDate := Some(date);
      }
    }

    /** A slot button's `onClick`. */
    method SelectTime(time: string)
      modifies this
      ensures selectedTime == time && selectedDate == old(selectedDate)
      ensures currentMonth == old(currentMonth) && isSubmitting == old(isSubmitting)
    {
      selectedTime := time;
    }

    method GoToPreviousMonth()
      modifies this
      ensures currentMonth == MonthBefore(old(currentMonth))
      ensures selectedDate == old(selectedDate) && selectedTime == old(selectedTime)
      ensures isSubmitting == old(isSubmitting)
    {
      currentMonth := MonthBefore(currentMonth);
    }

    method GoToNextMonth()
      modifies this
      ensures currentMonth == MonthAfter(old(currentMonth))
      ensures selectedDate == old(selectedDate) && selectedTime == old(selectedTime)
      ensures isSubmitting == old(isSubmitting)
    {
      currentMonth := MonthAfter(currentMonth);
    }

    /** The Schedule button is disabled until a day and a slot are picked,
        and while submitting. */
    predicate SubmitDisabled()
      reads this
    {
      selectedDate.None? || selectedTime == "" || isSubmitting
    }

    /** Without a day and a slot nothing happens. Otherwise the update call
        is made when a customer exists; only its ok response commits the
        appointment and advances. */
    method HandleScheduleSubmit(w: Wizard, response: Response) returns (sent: Option<Request>)
      requires w.Valid()
      modifies this, w
      ensures w.Valid()
      ensures selectedDate == old(selectedDate) && selectedTime == old(selectedTime)
      ensures currentMonth == old(currentMonth)
      ensures !old(isSubmitting) ==> !isSubmitting
      ensures old(SubmitDisabled()) && !old(isSubmitting) ==>
                sent == None && w.formData == old(w.formData) && w.currentStep == old(w.currentStep)
      ensures selectedDate.None? || selectedTime == "" ==>
                sent == None && isSubmitting == old(isSubmitting)
                && w.formData == old(w.formData) && w.currentStep == old(w.currentStep)
      ensures selectedDate.Some? && selectedTime != "" ==>
                sent == ScheduleRequest(old(w.formData), selectedDate.value, selectedTime)
                && !isSubmitting
      ensures selectedDate.Some? && selectedTime != "" && sent.Some? && response.Ok? ==>
                w.formData == WithSchedule(old(w.formData), selectedDate.value, selectedTime)
                && w.currentStep == Advance(old(w.currentStep))
      ensures !(sent.Some? && response.Ok?) ==>
                w.formData == old(w.formData) && w.currentStep == old(w.currentStep)
    {
      if selectedDate.None? || selectedTime == "" {
        return None;
      }
      isSubmitting := true;
      var date := selectedDate.value;
      sent := ScheduleRequest(w.formData, date, selectedTime);
      if sent.Some? && response.Ok? {
        w.SetFormData(WithSchedule(w.formData, date, selectedTime));
        w.NextStep();
      }
      isSubmitting := false;
    }
  }
}
