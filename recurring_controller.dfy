/**
 * The recurring-payments API of the backend. Every payment is meant to come
 * with a reminder in calendar_events, titled "Reminder: <name>", of type
 * recurring_payment and dated one day before the payment is due; creating,
 * updating and deleting a payment maintain that reminder. The calendar_events
 * table is the one the calendar API serves.
 */
module RecurringController {
  import opened Wrappers
  import opened Dates
  import opened Sorting
  import Cal = CalendarController

  /** A recurring_payments row; next_due_date is an instant in milliseconds. */
  datatype Payment = Payment(userId: nat, amount: real, name: string, frequency: string, nextDue: int)

  /** A row as SELECT * returns it. */
  datatype PaymentRow = PaymentRow(recurringId: nat, payment: Payment)

  /** computeReminderDate: 24 hours before the due instant. */
  function Reminder(due: int): (r: int)
    ensures r < due && due - r == MsPerDay
  {
    due - 24 * 60 * 60 * 1000
  }

  /** A due instant on day d gets its reminder on the day before, at the same time of day. */
  lemma ReminderOnDayBefore(due: int, d: Date, prev: Date)
    requires ValidDate(d) && ValidDate(prev)
    requires OnDay(due, d) && DayNumber(prev) + 1 == DayNumber(d)
    ensures OnDay(Reminder(due), prev)
    ensures Reminder(due) - StartOfDay(prev) == due - StartOfDay(d)
  {
  }

  function ReminderTitle(name: string): string
  {
    "Reminder: " + name
  }

  /** Different payment names give different reminder titles. */
  lemma ReminderTitleInjective(a: string, b: string)
    requires ReminderTitle(a) == ReminderTitle(b)
    ensures a == b
  {
    var prefix := "Reminder: ";
    assert a == ReminderTitle(a)[|prefix|..];
    assert b == ReminderTitle(b)[|prefix|..];
  }

  /** The rows the reminder DELETE matches: the user's recurring_payment events with the title. */
  predicate IsReminder(e: Cal.Event, user: nat, title: string)
  {
    e.userId == user && e.title == title && e.eventType == "recurring_payment"
  }

  /** The reminder event inserted for a payment. */
  function ReminderFor(p: Payment): Cal.Event
  {
    Cal.Event(p.userId, ReminderTitle(p.name), Reminder(p.nextDue), "recurring_payment")
  }

  /** DELETE FROM calendar_events WHERE user_id = user AND event_title = title AND event_type = 'recurring_payment'. */
  function WithoutReminders(events: map<nat, Cal.Event>, user: nat, title: string): (r: map<nat, Cal.Event>)
    ensures forall id :: id in r <==> id in events && !IsReminder(events[id], user, title)
    ensures forall id :: id in r ==> r[id] == events[id]
  {
    map id | id in events && !IsReminder(events[id], user, title) :: events[id]
  }

  /** Missing or falsy request values. */
  predicate FalsyAmount(a: Option<real>)
  {
    a.None? || a.value == 0.0
  }

  /** The user's payments among the ids below n, by ascending id. */
  function PaymentRows(payments: map<nat, Payment>, user: nat, n: nat): (rows: seq<PaymentRow>)
    ensures forall k :: 0 <= k < |rows| ==>
      rows[k].recurringId < n && rows[k].recurringId in payments
      && rows[k].payment == payments[rows[k].recurringId] && rows[k].payment.userId == user
    ensures forall id: nat :: id < n && id in payments && payments[id].userId == user ==> PaymentRow(id, payments[id]) in rows
  {
    if n == 0 then []
    else
      var id := n - 1;
      PaymentRows(payments, user, id) + (if id in payments && payments[id].userId == user then [PaymentRow(id, payments[id])] else [])
  }

  /** ORDER BY next_due_date. */
  function ByDueDate(): (PaymentRow, PaymentRow) -> bool
  {
    (a: PaymentRow, b: PaymentRow) => a.payment.nextDue <= b.payment.nextDue
  }

  lemma ByDueDateIsTotalPreorder()
    ensures TotalPreorder(ByDueDate())
  {
  }

  datatype Body = Error(error: string) | Message(message: string)
                | Recurring(row: PaymentRow) | Updated(row: PaymentRow) | RecurringPayments(rows: seq<PaymentRow>)
  datatype Reply = Reply(status: int, body: Body)

  /** WHERE recurring_id = $1 AND user_id = $2 matches a row. */
  predicate OwnedPayment(payments: map<nat, Payment>, id: int, user: nat)
  {
    id >= 0 && id as nat in payments && payments[id as nat].userId == user
  }

  /** Every payment has its reminder, dated one day before it is due. */
  ghost predicate Paired(payments: map<nat, Payment>, events: map<nat, Cal.Event>)
  {
    forall id :: id in payments ==> exists eid :: eid in events && events[eid] == ReminderFor(payments[id])
  }

  /** No user has two payments of the same name (the reminder title is all that links them). */
  ghost predicate UniqueNames(payments: map<nat, Payment>)
  {
    forall a, b :: a in payments && b in payments && a != b && payments[a].userId == payments[b].userId
      ==> payments[a].name != payments[b].name
  }

  /** The recurring_payments table, next to the calendar_events table it adds reminders to. */
  class RecurringDb {
    var payments: map<nat, Payment>
    var nextPaymentId: nat
    const calendar: Cal.CalendarDb

    ghost predicate Valid()
      reads this, calendar
    {
      (forall id :: id in payments ==> id < nextPaymentId) && calendar.Valid()
    }

    constructor (calendar: Cal.CalendarDb)
      requires calendar.Valid()
      ensures Valid() && payments == map[] && this.calendar == calendar
    {
      this.payments, this.nextPaymentId, this.calendar := map[], 1, calendar;
    }

    /** POST /api/recurring: stores the payment and schedules its reminder. */
    method CreateRecurringPayment(userId: nat, amount: Option<real>, name: Option<string>, frequency: Option<string>, due: Option<int>)
      returns (reply: Reply)
      requires Valid()
      modifies this, calendar
      ensures Valid()
      ensures FalsyAmount(amount) || Cal.Falsy(name) || Cal.Falsy(frequency) || due.None? ==>
        reply == Reply(400, Error("Missing required fields.")) && payments == old(payments)
        && calendar.events == old(calendar.events)
      ensures !(FalsyAmount(amount) || Cal.Falsy(name) || Cal.Falsy(frequency) || due.None?) ==>
        var p := Payment(userId, amount.value, name.value, frequency.value, due.value);
        payments == old(payments)[old(nextPaymentId) := p]
        && calendar.events == old(calendar.events)[old(calendar.nextEventId) := ReminderFor(p)]
        && reply == Reply(201, Recurring(PaymentRow(old(nextPaymentId), p)))
      ensures Paired(old(payments), old(calendar.events)) ==> Paired(payments, calendar.events)
    {
      if FalsyAmount(amount) || Cal.Falsy(name) || Cal.Falsy(frequency) || due.None? {
        return Reply(400, Error("Missing required fields."));
      }
      assert calendar.nextEventId !in calendar.events;
      var p := Payment(userId, amount.value, name.value, frequency.value, due.value);
      var id := nextPaymentId;
      payments := payments[id := p];
      nextPaymentId := nextPaymentId + 1;
      var eid := calendar.nextEventId;
      calendar.events := calendar.events[eid := ReminderFor(p)];
      calendar.nextEventId := calendar.nextEventId + 1;
      reply := Reply(201, Recurring(PaymentRow(id, p)));
      if Paired(old(payments), old(calendar.events)) {
        PairedAfterInsert(old(payments), old(calendar.events), id, p, eid);
      }
    }

    /**
     * PUT /api/recurring/:id. `rawId` is Number of the path parameter, None
     * when it is not an integer (the query fails). A field left out of the
     * body is written as NULL, which the NOT NULL columns refuse: the request
     * fails before anything changes.
     */
    method UpdateRecurringPayment(userId: nat, rawId: Option<int>, amount: Option<real>, name: Option<string>,
                                  frequency: Option<string>, due: Option<int>)
      returns (reply: Reply)
      requires Valid()
      modifies this, calendar
      ensures Valid()
      ensures rawId.None? || (OwnedPayment(old(payments), rawId.value, userId)
                              && (amount.None? || name.None? || frequency.None? || due.None?)) ==>
        reply == Reply(500, Error("Server error.")) && payments == old(payments) && calendar.events == old(calendar.events)
      ensures rawId.Some? && !OwnedPayment(old(payments), rawId.value, userId) ==>
        reply == Reply(404, Error("Not found.")) && payments == old(payments) && calendar.events == old(calendar.events)
      ensures rawId.Some? && OwnedPayment(old(payments), rawId.value, userId)
              && amount.Some? && name.Some? && frequency.Some? && due.Some? ==>
        var id := rawId.value as nat;
        var p := Payment(userId, amount.value, name.value, frequency.value, due.value);
        var oldTitle := ReminderTitle(old(payments)[id].name);
        payments == old(payments)[id := p]
        && calendar.events == WithoutReminders(old(calendar.events), userId, oldTitle)[old(calendar.nextEventId) := ReminderFor(p)]
        && reply == Reply(200, Updated(PaymentRow(id, p)))
      ensures Paired(old(payments), old(calendar.events)) && UniqueNames(old(payments)) ==> Paired(payments, calendar.events)
    {
      if rawId.None? {
        return Reply(500, Error("Server error."));
      }
      if !OwnedPayment(payments, rawId.value, userId) {
        return Reply(404, Error("Not found."));
      }
      var id := rawId.value as nat;
      var oldName := payments[id].name;
      assert calendar.nextEventId !in calendar.events;
      if amount.None? || name.None? || frequency.None? || due.None? {
        return Reply(500, Error("Server error."));
      }
      var p := Payment(userId, amount.value, name.value, frequency.value, due.value);
      payments := payments[id := p];
      var kept := WithoutReminders(calendar.events, userId, ReminderTitle(oldName));
      var eid := calendar.nextEventId;
      calendar.events := kept[eid := ReminderFor(p)];
      calendar.nextEventId := calendar.nextEventId + 1;
      reply := Reply(200, Updated(PaymentRow(id, p)));
      if Paired(old(payments), old(calendar.events)) && UniqueNames(old(payments)) {
        PairedAfterReplace(old(payments), old(calendar.events), id, p, eid);
      }
    }

    /** GET /api/recurring: the caller's payments ordered by next_due_date. */
    method GetRecurringPayments(userId: nat) returns (reply: Reply)
      requires Valid()
      ensures reply.status == 200 && reply.body.RecurringPayments?
      ensures SortedBy(reply.body.rows, ByDueDate())
      ensures forall row :: row in reply.body.rows <==>
        OwnedPayment(payments, row.recurringId, userId) && row.payment == payments[row.recurringId]
    {
      var rows := PaymentRows(payments, userId, nextPaymentId);
      var sorted := SortBy(rows, ByDueDate());
      ByDueDateIsTotalPreorder();
      SortBySorted(rows, ByDueDate());
      forall row
        ensures row in sorted <==> OwnedPayment(payments, row.recurringId, userId) && row.payment == payments[row.recurringId]
      {
        assert row in sorted <==> row in multiset(rows);
      }
      reply := Reply(200, RecurringPayments(sorted));
    }

    /** DELETE /api/recurring/:id: removes the payment and every reminder with its title. */
    method DeleteRecurringPayment(userId: nat, rawId: Option<int>) returns (reply: Reply)
      requires Valid()
      modifies this, calendar
      ensures Valid()
      ensures rawId.None? ==>
        reply == Reply(500, Error("Server error.")) && payments == old(payments) && calendar.events == old(calendar.events)
      ensures rawId.Some? && !OwnedPayment(old(payments), rawId.value, userId) ==>
        reply == Reply(404, Error("Not found.")) && payments == old(payments) && calendar.events == old(calendar.events)
      ensures rawId.Some? && OwnedPayment(old(payments), rawId.value, userId) ==>
        var id := rawId.value as nat;
        payments == old(payments) - {id}
        && calendar.events == WithoutReminders(old(calendar.events), userId, ReminderTitle(old(payments)[id].name))
        && reply == Reply(200, Message("Deleted."))
      ensures Paired(old(payments), old(calendar.events)) && UniqueNames(old(payments)) ==> Paired(payments, calendar.events)
    {
      if rawId.None? {
        return Reply(500, Error("Server error."));
      }
      if !OwnedPayment(payments, rawId.value, userId) {
        return Reply(404, Error("Not found."));
      }
      var id := rawId.value as nat;
      var name := payments[id].name;
      payments := payments - {id};
      calendar.events := WithoutReminders(calendar.events, userId, ReminderTitle(name));
      reply := Reply(200, Message("Deleted."));
      if Paired(old(payments), old(calendar.events)) && UniqueNames(old(payments)) {
        PairedAfterDelete(old(payments), old(calendar.events), id);
      }
    }
  }

  /** Adding a payment together with its reminder keeps every payment paired. */
  lemma PairedAfterInsert(payments: map<nat, Payment>, events: map<nat, Cal.Event>, id: nat, p: Payment, eid: nat)
    requires Paired(payments, events) && eid !in events
    ensures Paired(payments[id := p], events[eid := ReminderFor(p)])
  {
    var ps := payments[id := p];
    var es := events[eid := ReminderFor(p)];
    forall k | k in ps
      ensures exists e :: e in es && es[e] == ReminderFor(ps[k])
    {
      if k == id {
        assert es[eid] == ReminderFor(ps[k]);
      } else {
        var e :| e in events && events[e] == ReminderFor(payments[k]);
        assert es[e] == ReminderFor(ps[k]);
      }
    }
  }

  /** A payment of another name keeps its reminder when the reminders of one name are deleted. */
  lemma OtherReminderKept(events: map<nat, Cal.Event>, user: nat, name: string, q: Payment)
    requires exists e :: e in events && events[e] == ReminderFor(q)
    requires q.userId != user || q.name != name
    ensures exists e :: e in WithoutReminders(events, user, ReminderTitle(name))
                        && WithoutReminders(events, user, ReminderTitle(name))[e] == ReminderFor(q)
  {
    var e :| e in events && events[e] == ReminderFor(q);
    if IsReminder(events[e], user, ReminderTitle(name)) {
      ReminderTitleInjective(q.name, name);
    }
    assert e in WithoutReminders(events, user, ReminderTitle(name));
  }

  /**
   * Replacing a payment and its reminder keeps every payment paired, as long
   * as no user had two payments of the same name.
   */
  lemma PairedAfterReplace(payments: map<nat, Payment>, events: map<nat, Cal.Event>, id: nat, p: Payment, eid: nat)
    requires Paired(payments, events) && id in payments && p.userId == payments[id].userId && eid !in events
    requires UniqueNames(payments)
    ensures var kept := WithoutReminders(events, p.userId, ReminderTitle(payments[id].name));
      Paired(payments[id := p], kept[eid := ReminderFor(p)])
  {
    var ps := payments[id := p];
    var kept := WithoutReminders(events, p.userId, ReminderTitle(payments[id].name));
    var es := kept[eid := ReminderFor(p)];
    forall k | k in ps
      ensures exists e :: e in es && es[e] == ReminderFor(ps[k])
    {
      if k == id {
        assert es[eid] == ReminderFor(ps[k]);
      } else {
        var q := payments[k];
        OtherReminderKept(events, p.userId, payments[id].name, q);
        var e :| e in kept && kept[e] == ReminderFor(q);
        assert es[e] == ReminderFor(ps[k]);
      }
    }
  }

  /** Deleting a payment with its reminders keeps the other payments paired when names are unique per user. */
  lemma PairedAfterDelete(payments: map<nat, Payment>, events: map<nat, Cal.Event>, id: nat)
    requires Paired(payments, events) && UniqueNames(payments) && id in payments
    ensures Paired(payments - {id}, WithoutReminders(events, payments[id].userId, ReminderTitle(payments[id].name)))
  {
    var ps := payments - {id};
    var kept := WithoutReminders(events, payments[id].userId, ReminderTitle(payments[id].name));
    forall k | k in ps
      ensures exists e :: e in kept && kept[e] == ReminderFor(ps[k])
    {
      OtherReminderKept(events, payments[id].userId, payments[id].name, payments[k]);
    }
  }

  /**
   * With two payments of the same name, deleting one also deletes the other's
   * reminder: the reminder is found by its title only.
   */
  lemma SharedNameLosesReminder(payments: map<nat, Payment>, events: map<nat, Cal.Event>, id: nat, other: nat)
    requires id in payments && other in payments && other != id
    requires payments[other].userId == payments[id].userId && payments[other].name == payments[id].name
    ensures var kept := WithoutReminders(events, payments[id].userId, ReminderTitle(payments[id].name));
      other in payments - {id} && forall e :: e in kept ==> kept[e] != ReminderFor(payments[other])
  {
  }
}
