/**
 * The calendar API of the backend: listing, creating, updating and deleting
 * rows of calendar_events, each request acting only on the caller's rows.
 * Event dates are instants in milliseconds; a date in a request body is
 * modelled by the instant Postgres parses it to.
 */
module CalendarController {
  import opened Wrappers
  import opened Sorting

  /** A calendar_events row. */
  datatype Event = Event(userId: nat, title: string, date: int, eventType: string)

  /** The columns the handlers return: event_id, event_title, event_date, event_type. */
  datatype EventRow = EventRow(eventId: nat, title: string, date: int, eventType: string)

  function RowOf(id: nat, e: Event): EventRow
  {
    EventRow(id, e.title, e.date, e.eventType)
  }

  /** ORDER BY event_date. */
  function ByDate(): (EventRow, EventRow) -> bool
  {
    (a: EventRow, b: EventRow) => a.date <= b.date
  }

  /** The user's rows among the ids below n, by ascending id. */
  function RowsBelow(events: map<nat, Event>, user: nat, n: nat): (rows: seq<EventRow>)
    ensures forall k :: 0 <= k < |rows| ==>
      rows[k].eventId < n && rows[k].eventId in events && events[rows[k].eventId].userId == user
      && rows[k] == RowOf(rows[k].eventId, events[rows[k].eventId])
    ensures forall id: nat :: id < n && id in events && events[id].userId == user ==> RowOf(id, events[id]) in rows
  {
    if n == 0 then []
    else
      var id := n - 1;
      RowsBelow(events, user, id) + (if id in events && events[id].userId == user then [RowOf(id, events[id])] else [])
  }

  /** The reply of a handler. */
  datatype Body = Error(error: string) | Message(message: string) | Events(rows: seq<EventRow>) | EventBody(row: EventRow)
  datatype Reply = Reply(status: int, body: Body)

  /** A value read from a request body is missing or falsy. */
  predicate Falsy(s: Option<string>)
  {
    s.None? || s.value == ""
  }

  /** The calendar_events table; event_id is a serial below nextEventId. */
  class CalendarDb {
    var events: map<nat, Event>
    var nextEventId: nat

    ghost predicate Valid()
      reads this
    {
      forall id :: id in events ==> id < nextEventId
    }

    constructor ()
      ensures Valid() && events == map[]
    {
      events, nextEventId := map[], 1;
    }

    /** GET /api/calendar: the caller's events ordered by event_date. */
    method GetCalendarEvents(userId: nat) returns (reply: Reply)
      requires Valid()
      ensures reply.status == 200 && reply.body.Events?
      ensures SortedBy(reply.body.rows, ByDate())
      ensures forall row :: row in reply.body.rows <==> Owned(events, row.eventId, userId) && row == RowOf(row.eventId, events[row.eventId])
    {
      var rows := RowsBelow(events, userId, nextEventId);
      var sorted := SortBy(rows, ByDate());
      ByDateIsTotalPreorder();
      SortBySorted(rows, ByDate());
      forall row
        ensures row in sorted <==> Owned(events, row.eventId, userId) && row == RowOf(row.eventId, events[row.eventId])
      {
        assert row in sorted <==> row in multiset(rows);
      }
      reply := Reply(200, Events(sorted));
    }

    /**
     * POST /api/calendar: title and date are required; the type defaults to
     * 'custom' when missing or empty.
     */
    method CreateCalendarEvent(userId: nat, title: Option<string>, date: Option<int>, eventType: Option<string>)
      returns (reply: Reply)
      requires Valid()
      modifies this
      ensures Valid()
      ensures Falsy(title) || date.None? ==>
        reply == Reply(400, Error("Title and date are required.")) && events == old(events) && nextEventId == old(nextEventId)
      ensures !Falsy(title) && date.Some? ==>
        var e := Event(userId, title.value, date.value, if Falsy(eventType) then "custom" else eventType.value);
        old(nextEventId) !in old(events)
        && events == old(events)[old(nextEventId) := e] && nextEventId == old(nextEventId) + 1
        && reply == Reply(201, EventBody(RowOf(old(nextEventId), e)))
    {
      if Falsy(title) || date.None? {
        return Reply(400, Error("Title and date are required."));
      }
      var e := Event(userId, title.value, date.value, if Falsy(eventType) then "custom" else eventType.value);
      var id := nextEventId;
      events := events[id := e];
      nextEventId := nextEventId + 1;
      reply := Reply(201, EventBody(RowOf(id, e)));
    }

    /**
     * PUT /api/calendar/:id. `rawId` is Number of the path parameter, None
     * when it is not an integer (the query then fails with a server error).
     * A field left out keeps its stored value.
     */
    method UpdateCalendarEvent(userId: nat, rawId: Option<int>, title: Option<string>, date: Option<int>, eventType: Option<string>)
      returns (reply: Reply)
      requires Valid()
      modifies this
      ensures Valid() && nextEventId == old(nextEventId)
      ensures rawId.None? ==> reply == Reply(500, Error("Server error.")) && events == old(events)
      ensures rawId.Some? && !Owned(old(events), rawId.value, userId) ==>
        reply == Reply(404, Error("Not found.")) && events == old(events)
      ensures rawId.Some? && Owned(old(events), rawId.value, userId) ==>
        var id := rawId.value as nat;
        var e := Patched(old(events)[id], title, date, eventType);
        events == old(events)[id := e] && reply == Reply(200, EventBody(RowOf(id, e)))
    {
      if rawId.None? {
        return Reply(500, Error("Server error."));
      }
      if !Owned(events, rawId.value, userId) {
        return Reply(404, Error("Not found."));
      }
      var id := rawId.value as nat;
      var existing := events[id];
      var updatedTitle := if title.Some? then title.value else existing.title;
      var updatedDate := if date.Some? then date.value else existing.date;
      var updatedType := if eventType.Some? then eventType.value else existing.eventType;
      var e := Event(existing.userId, updatedTitle, updatedDate, updatedType);
      events := events[id := e];
      reply := Reply(200, EventBody(RowOf(id, e)));
    }

    /** DELETE /api/calendar/:id: removes the caller's event, 404 when there is none. */
    method DeleteCalendarEvent(userId: nat, rawId: Option<int>) returns (reply: Reply)
      requires Valid()
      modifies this
      ensures Valid() && nextEventId == old(nextEventId)
      ensures rawId.None? ==> reply == Reply(500, Error("Server error.")) && events == old(events)
      ensures rawId.Some? && !Owned(old(events), rawId.value, userId) ==>
        reply == Reply(404, Error("Not found.")) && events == old(events)
      ensures rawId.Some? && Owned(old(events), rawId.value, userId) ==>
        events == old(events) - {rawId.value as nat} && reply == Reply(200, Message("Deleted."))
    {
      if rawId.None? {
        return Reply(500, Error("Server error."));
      }
      if !Owned(events, rawId.value, userId) {
        return Reply(404, Error("Not found."));
      }
      events := events - {rawId.value as nat};
      reply := Reply(200, Message("Deleted."));
    }
  }

  /** WHERE event_id = $1 AND user_id = $2 matches a row. */
  predicate Owned(events: map<nat, Event>, id: int, user: nat)
  {
    id >= 0 && id as nat in events && events[id as nat].userId == user
  }

  /** The row after an update: each field given replaces the stored one, the rest are kept (`??`). */
  function Patched(old_: Event, title: Option<string>, date: Option<int>, eventType: Option<string>): (e: Event)
    ensures e.userId == old_.userId
    ensures title.None? ==> e.title == old_.title
    ensures title.Some? ==> e.title == title.value
    ensures date.None? ==> e.date == old_.date
    ensures date.Some? ==> e.date == date.value
    ensures eventType.None? ==> e.eventType == old_.eventType
    ensures eventType.Some? ==> e.eventType == eventType.value
  {
    Event(old_.userId,
          if title.Some? then title.value else old_.title,
          if date.Some? then date.value else old_.date,
          if eventType.Some? then eventType.value else old_.eventType)
  }

  /** ByDate orders any rows. */
  lemma ByDateIsTotalPreorder()
    ensures TotalPreorder(ByDate())
  {
  }
}
