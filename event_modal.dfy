/**
 * The add / edit event dialog of the recurring calendar: the five form
 * fields, how opening the dialog fills them, and the event data it submits.
 * The date field holds "yyyy-MM-dd" text; the text for today and for the
 * edited event's day are parameters (the clock and date formatting). The
 * amount field is a number input, whose value is either empty (None) or a
 * number.
 */
module EventModal {
  import opened Wrappers
  import opened CalendarSlice

  /** The argument of onSave; None stands for an undefined field. */
  datatype EventPayload = EventPayload(eventId: Option<nat>, title: string, date: string, eventType: string,
                                       isRecurring: bool, frequency: Option<string>, amount: Option<real>)

  /**
   * handleSubmit's payload: the type is "recurring_due" for a recurring event
   * and "custom" otherwise, the frequency is sent only for a recurring event,
   * an empty amount is undefined, and the id is the edited event's.
   */
  function PayloadOf(event: Option<ClientEvent>, title: string, date: string, amount: Option<real>,
                     isRecurring: bool, frequency: string): (r: EventPayload)
    ensures r.eventType == (if isRecurring then "recurring_due" else "custom")
    ensures r.isRecurring == isRecurring
    ensures r.frequency.Some? <==> isRecurring
    ensures r.frequency.Some? ==> r.frequency.value == frequency
    ensures r.amount == amount
    ensures r.eventId.Some? <==> event.Some?
    ensures event.Some? ==> r.eventId == Some(event.value.eventId)
    ensures r.title == title && r.date == date
  {
    EventPayload(if event.Some? then Some(event.value.eventId) else None, title, date,
                 if isRecurring then "recurring_due" else "custom", isRecurring,
                 if isRecurring then Some(frequency) else None, amount)
  }

  /** The dialog's form state. */
  class EventModal {
    var title: string
    var date: string
    var amount: Option<real>
    var isRecurring: bool
    var frequency: string

    /** The useState initial values. */
    constructor ()
      ensures title == "" && date == "" && amount.None? && !isRecurring && frequency == "monthly"
    {
      title, date, amount := "", "", None;
      isRecurring, frequency := false, "monthly";
    }

    /**
     * The effect run when the dialog's event changes. Editing copies the
     * title and the event's day and marks the form recurring iff the event's
     * type is a recurring one; it leaves amount and frequency as they were.
     * A new event starts empty on today, with no amount, not recurring and
     * monthly.
     */
    method Open(event: Option<ClientEvent>, eventDay: string, today: string)
      modifies this`title, this`date, this`amount, this`isRecurring, this`frequency
      ensures event.Some? ==> title == event.value.title && date == eventDay
      ensures event.Some? ==> (isRecurring <==> IsRecurringType(event.value.eventType))
      ensures event.Some? ==> amount == old(amount) && frequency == old(frequency)
      ensures event.None? ==> title == "" && date == today && amount.None? && !isRecurring && frequency == "monthly"
    {
      match event
      case Some(e) =>
        title, date := e.title, eventDay;
        isRecurring := IsRecurringType(e.eventType);
      case None =>
        title, date, amount := "", today, None;
        isRecurring, frequency := false, "monthly";
    }

    method SetTitle(text: string)
      modifies this`title
      ensures title == text
    {
      title := text;
    }

    method SetDate(text: string)
      modifies this`date
      ensures date == text
    {
      date := text;
    }

    method SetAmount(value: Option<real>)
      modifies this`amount
      ensures amount == value
    {
      amount := value;
    }

    /** The checkbox flips the recurring flag. */
    method ToggleRecurring()
      modifies this`isRecurring
      ensures isRecurring == !old(isRecurring)
    {
      isRecurring := !isRecurring;
    }

    method SetFrequency(value: string)
      modifies this`frequency
      ensures frequency == value
    {
      frequency := value;
    }

    /** handleSubmit: the payload of the current fields. */
    method Submit(event: Option<ClientEvent>) returns (p: EventPayload)
      ensures p == PayloadOf(event, title, date, amount, isRecurring, frequency)
    {
      p := EventPayload(if event.Some? then Some(event.value.eventId) else None, title, date,
                        if isRecurring then "recurring_due" else "custom", isRecurring,
                        if isRecurring then Some(frequency) else None, amount);
    }
  }

  /**
   * The payload as saveEvent reads it, `instant` being the moment the date
   * text denotes.
   */
  function AsEventData(p: EventPayload, instant: int): (r: EventData)
    ensures r.eventId == p.eventId && r.title == p.title && r.date == instant
    ensures r.eventType == p.eventType && r.isRecurring == p.isRecurring
    ensures r.frequency == p.frequency && r.amount == p.amount
  {
    EventData(p.eventId, p.title, instant, p.eventType, p.isRecurring, p.frequency, p.amount)
  }

  /**
   * Saving an edited recurring event untouched keeps it recurring, now typed
   * "recurring_due" (a "recurring_payment" event changes type), under its
   * own id and title.
   */
  lemma UntouchedEditKeepsRecurrence(e: ClientEvent, eventDay: string, amount: Option<real>, frequency: string)
    ensures var p := PayloadOf(Some(e), e.title, eventDay, amount, IsRecurringType(e.eventType), frequency);
      p.isRecurring == IsRecurringType(e.eventType) && p.eventId == Some(e.eventId) && p.title == e.title
      && (IsRecurringType(e.eventType) ==> p.eventType == "recurring_due")
      && (!IsRecurringType(e.eventType) ==> p.eventType == "custom")
  {
  }

  /**
   * The recurring payment saveEvent builds from a recurring submission
   * carries the dialog's frequency (when one is chosen) and its amount, 0
   * when the field was left empty.
   */
  lemma RecurringPaymentFromDialog(event: Option<ClientEvent>, title: string, date: string, amount: Option<real>,
                                   frequency: string, instant: int)
    ensures var d := RecurringDataOf(AsEventData(PayloadOf(event, title, date, amount, true, frequency), instant));
      d.paymentName == title && d.nextDueDate == instant
      && (frequency != "" ==> d.frequency == frequency)
      && (frequency == "" ==> d.frequency == "monthly")
      && d.amount == (if amount.Some? then amount.value else 0.0)
  {
  }
}
