/**
 * The calendar slice of the client store: the de-duplication of the fetched
 * events, the requests the save and delete thunks make and the values they
 * settle with, and the class CalendarStore whose methods are the reducers.
 * Event dates are instants (milliseconds on the local time line); the
 * server answers (new ids, failures) are parameters.
 */
module CalendarSlice {
  import opened Wrappers
  import opened Dates

  /** A CalendarEvent as the client holds it. */
  datatype ClientEvent = ClientEvent(eventId: nat, title: string, date: int, eventType: string)

  /** A RecurringPayment as the client holds it. */
  datatype Payment = Payment(recurringId: nat, amount: real, paymentName: string, frequency: string, nextDueDate: int)

  /** The de-duplication key `${event_title}-${event_date}`. */
  type Key = (string, int)

  function KeyOf(e: ClientEvent): Key
  {
    (e.title, e.date)
  }

  // ---------------------------------------------------------------------------
  // De-duplication in fetchCalendarData
  // ---------------------------------------------------------------------------

  /** The two accumulators of the loop: uniqueEvents and eventMap. */
  datatype Dedup = Dedup(unique: seq<ClientEvent>, eventMap: map<Key, ClientEvent>)

  /** `s.findIndex(e => e.event_id === id)`, None for -1. */
  function FindIndexById(s: seq<ClientEvent>, id: nat): (r: Option<nat>)
    ensures r.Some? ==> r.value < |s| && s[r.value].eventId == id
    ensures r.Some? ==> forall j :: 0 <= j < r.value ==> s[j].eventId != id
    ensures r.None? ==> forall j :: 0 <= j < |s| ==> s[j].eventId != id
  {
    if s == [] then None
    else if s[0].eventId == id then Some(0)
    else
      match FindIndexById(s[1..], id)
      case Some(j) => Some(j + 1)
      case None => None
  }

  /**
   * One pass of the forEach body: a new key appends the event; a repeated key
   * with a smaller id replaces the kept event, in the map and at the position
   * where findIndex finds the kept event's id.
   */
  function DedupStep(d: Dedup, e: ClientEvent): Dedup
  {
    var key := KeyOf(e);
    if key !in d.eventMap then Dedup(d.unique + [e], d.eventMap[key := e])
    else
      var existing := d.eventMap[key];
      if e.eventId < existing.eventId then
        var index := FindIndexById(d.unique, existing.eventId);
        Dedup(if index.Some? then d.unique[index.value := e] else d.unique, d.eventMap[key := e])
      else d
  }

  /** The accumulators after the loop has seen every event. */
  function DedupAll(events: seq<ClientEvent>): Dedup
  {
    if events == [] then Dedup([], map[])
    else DedupStep(DedupAll(events[..|events| - 1]), events[|events| - 1])
  }

  /** Some event of s has the key. */
  predicate HasKey(s: seq<ClientEvent>, k: Key)
  {
    exists i :: 0 <= i < |s| && KeyOf(s[i]) == k
  }

  /** The position of the key's first occurrence in s. */
  function FirstIndex(s: seq<ClientEvent>, k: Key): (r: nat)
    ensures HasKey(s, k) ==> r < |s| && KeyOf(s[r]) == k && forall j :: 0 <= j < r ==> KeyOf(s[j]) != k
  {
    if s == [] then 0
    else if HasKey(s[..|s| - 1], k) then FirstIndex(s[..|s| - 1], k)
    else |s| - 1
  }

  /** Event ids are pairwise distinct, as serial ids from one table are. */
  predicate UniqueIds(s: seq<ClientEvent>)
  {
    forall i, j :: 0 <= i < j < |s| ==> s[i].eventId != s[j].eventId
  }

  /** eventMap holds exactly the keys seen so far. */
  ghost predicate KeysSeen(prefix: seq<ClientEvent>, m: map<Key, ClientEvent>)
  {
    forall k :: k in m <==> HasKey(prefix, k)
  }

  /** Each kept event is the map's entry for its key. */
  ghost predicate SlotsAgree(u: seq<ClientEvent>, m: map<Key, ClientEvent>)
  {
    forall i :: 0 <= i < |u| ==> KeyOf(u[i]) in m && m[KeyOf(u[i])] == u[i]
  }

  /** Each key of the map has a kept event. */
  ghost predicate Covered(u: seq<ClientEvent>, m: map<Key, ClientEvent>)
  {
    forall k :: k in m ==> exists i :: 0 <= i < |u| && KeyOf(u[i]) == k
  }

  /** No key is kept twice. */
  ghost predicate DistinctKeys(u: seq<ClientEvent>)
  {
    forall i, j :: 0 <= i < j < |u| ==> KeyOf(u[i]) != KeyOf(u[j])
  }

  /** The map's entries are seen events under their own keys. */
  ghost predicate FromPrefix(prefix: seq<ClientEvent>, m: map<Key, ClientEvent>)
  {
    forall k :: k in m ==> m[k] in prefix && KeyOf(m[k]) == k
  }

  /** The map's entry for a key has the smallest id among the seen events with that key. */
  ghost predicate Minimal(prefix: seq<ClientEvent>, m: map<Key, ClientEvent>)
  {
    forall k, j :: k in m && 0 <= j < |prefix| && KeyOf(prefix[j]) == k ==> m[k].eventId <= prefix[j].eventId
  }

  /** The kept events are in the order of their keys' first occurrences. */
  ghost predicate InFirstOrder(prefix: seq<ClientEvent>, u: seq<ClientEvent>)
  {
    forall i, j :: 0 <= i < j < |u| ==> FirstIndex(prefix, KeyOf(u[i])) < FirstIndex(prefix, KeyOf(u[j]))
  }

  /** What the accumulators hold after a prefix of the events. */
  ghost predicate DedupInv(prefix: seq<ClientEvent>, d: Dedup)
  {
    KeysSeen(prefix, d.eventMap) && SlotsAgree(d.unique, d.eventMap) && Covered(d.unique, d.eventMap)
    && DistinctKeys(d.unique) && FromPrefix(prefix, d.eventMap) && Minimal(prefix, d.eventMap)
    && InFirstOrder(prefix, d.unique)
  }

  lemma HasKeyAppend(s: seq<ClientEvent>, e: ClientEvent, k: Key)
    ensures HasKey(s + [e], k) <==> HasKey(s, k) || KeyOf(e) == k
  {
    if HasKey(s, k) {
      var i :| 0 <= i < |s| && KeyOf(s[i]) == k;
      assert (s + [e])[i] == s[i];
    }
    if KeyOf(e) == k {
      assert (s + [e])[|s|] == e;
    }
    if HasKey(s + [e], k) && KeyOf(e) != k {
      var i :| 0 <= i < |s + [e]| && KeyOf((s + [e])[i]) == k;
      assert i < |s| && (s + [e])[i] == s[i];
    }
  }

  lemma FirstIndexAppend(s: seq<ClientEvent>, e: ClientEvent, k: Key)
    ensures HasKey(s, k) ==> FirstIndex(s + [e], k) == FirstIndex(s, k)
    ensures !HasKey(s, k) ==> FirstIndex(s + [e], k) == |s|
  {
    assert (s + [e])[..|s|] == s;
  }

  /** The parts of the invariant that only mention the seen events grow with them. */
  lemma SeenAppend(prefix: seq<ClientEvent>, m: map<Key, ClientEvent>, e: ClientEvent)
    requires KeysSeen(prefix, m) && KeyOf(e) in m
    ensures KeysSeen(prefix + [e], m)
  {
    forall k
      ensures k in m <==> HasKey(prefix + [e], k)
    {
      HasKeyAppend(prefix, e, k);
    }
  }

  lemma SeenAppendNew(prefix: seq<ClientEvent>, m: map<Key, ClientEvent>, e: ClientEvent)
    requires KeysSeen(prefix, m)
    ensures KeysSeen(prefix + [e], m[KeyOf(e) := e])
  {
    forall k
      ensures k in m[KeyOf(e) := e] <==> HasKey(prefix + [e], k)
    {
      HasKeyAppend(prefix, e, k);
    }
  }

  lemma FromPrefixAppend(prefix: seq<ClientEvent>, m: map<Key, ClientEvent>, e: ClientEvent)
    requires FromPrefix(prefix, m)
    ensures FromPrefix(prefix + [e], m[KeyOf(e) := e])
    ensures FromPrefix(prefix + [e], m)
  {
    var s := prefix + [e];
    assert s[|prefix|] == e;
    forall k | k in m
      ensures m[k] in s
    {
      var a :| 0 <= a < |prefix| && prefix[a] == m[k];
      assert s[a] == prefix[a];
    }
  }

  lemma OrderAppend(prefix: seq<ClientEvent>, u: seq<ClientEvent>, m: map<Key, ClientEvent>, e: ClientEvent)
    requires InFirstOrder(prefix, u) && SlotsAgree(u, m) && KeysSeen(prefix, m)
    ensures InFirstOrder(prefix + [e], u)
    ensures KeyOf(e) !in m ==> InFirstOrder(prefix + [e], u + [e])
  {
    var s := prefix + [e];
    forall i | 0 <= i < |u|
      ensures FirstIndex(s, KeyOf(u[i])) == FirstIndex(prefix, KeyOf(u[i])) < |prefix|
    {
      assert HasKey(prefix, KeyOf(u[i]));
      FirstIndexAppend(prefix, e, KeyOf(u[i]));
    }
    if KeyOf(e) !in m {
      FirstIndexAppend(prefix, e, KeyOf(e));
      var u' := u + [e];
      forall i, j | 0 <= i < j < |u'|
        ensures FirstIndex(s, KeyOf(u'[i])) < FirstIndex(s, KeyOf(u'[j]))
      {
        assert u'[i] == u[i];
        if j < |u| {
          assert u'[j] == u[j];
        }
      }
    }
  }

  /** A new key: the event is appended and is the key's first and only occurrence. */
  lemma DedupNewKey(prefix: seq<ClientEvent>, d: Dedup, e: ClientEvent)
    requires DedupInv(prefix, d) && KeyOf(e) !in d.eventMap
    ensures DedupInv(prefix + [e], DedupStep(d, e))
  {
    var u, m := d.unique, d.eventMap;
    assert DedupStep(d, e) == Dedup(u + [e], m[KeyOf(e) := e]);
    SeenAppendNew(prefix, m, e);
    NewSlotAgrees(u, m, e);
    NewSlotCovers(u, m, e);
    NewSlotDistinct(u, m, e);
    FromPrefixAppend(prefix, m, e);
    NewKeyMinimal(prefix, m, e);
    OrderAppend(prefix, u, m, e);
  }

  lemma NewSlotAgrees(u: seq<ClientEvent>, m: map<Key, ClientEvent>, e: ClientEvent)
    requires SlotsAgree(u, m) && KeyOf(e) !in m
    ensures SlotsAgree(u + [e], m[KeyOf(e) := e])
  {
    var u', m' := u + [e], m[KeyOf(e) := e];
    forall i | 0 <= i < |u'|
      ensures KeyOf(u'[i]) in m' && m'[KeyOf(u'[i])] == u'[i]
    {
      if i < |u| {
        assert u'[i] == u[i];
      }
    }
  }

  lemma NewSlotCovers(u: seq<ClientEvent>, m: map<Key, ClientEvent>, e: ClientEvent)
    requires Covered(u, m)
    ensures Covered(u + [e], m[KeyOf(e) := e])
  {
    var u', m' := u + [e], m[KeyOf(e) := e];
    forall k | k in m'
      ensures exists i :: 0 <= i < |u'| && KeyOf(u'[i]) == k
    {
      if k == KeyOf(e) {
        assert KeyOf(u'[|u|]) == k;
      } else {
        var i :| 0 <= i < |u| && KeyOf(u[i]) == k;
        assert u'[i] == u[i];
      }
    }
  }

  lemma NewSlotDistinct(u: seq<ClientEvent>, m: map<Key, ClientEvent>, e: ClientEvent)
    requires DistinctKeys(u) && SlotsAgree(u, m) && KeyOf(e) !in m
    ensures DistinctKeys(u + [e])
  {
    var u' := u + [e];
    forall i, j | 0 <= i < j < |u'|
      ensures KeyOf(u'[i]) != KeyOf(u'[j])
    {
      assert u'[i] == u[i];
      if j < |u| {
        assert u'[j] == u[j];
      }
    }
  }

  lemma NewKeyMinimal(prefix: seq<ClientEvent>, m: map<Key, ClientEvent>, e: ClientEvent)
    requires Minimal(prefix, m) && KeysSeen(prefix, m) && KeyOf(e) !in m
    ensures Minimal(prefix + [e], m[KeyOf(e) := e])
  {
    var s, m' := prefix + [e], m[KeyOf(e) := e];
    forall k, j | k in m' && 0 <= j < |s| && KeyOf(s[j]) == k
      ensures m'[k].eventId <= s[j].eventId
    {
      if j < |prefix| {
        assert s[j] == prefix[j];
        assert HasKey(prefix, k);
      }
    }
  }

  lemma FindKeptSlot(prefix: seq<ClientEvent>, d: Dedup, e: ClientEvent, p: nat)
    requires SlotsAgree(d.unique, d.eventMap) && DistinctKeys(d.unique) && FromPrefix(prefix, d.eventMap)
    requires UniqueIds(prefix)
    requires p < |d.unique| && KeyOf(d.unique[p]) == KeyOf(e)
    ensures FindIndexById(d.unique, d.unique[p].eventId) == Some(p)
  {
    var u, m := d.unique, d.eventMap;
    forall j | 0 <= j < |u| && u[j].eventId == u[p].eventId
      ensures j == p
    {
      assert m[KeyOf(u[j])] == u[j] && m[KeyOf(u[p])] == u[p];
      var a :| 0 <= a < |prefix| && prefix[a] == u[j];
      var b :| 0 <= b < |prefix| && prefix[b] == u[p];
      assert a == b;
    }
  }

  /** Putting the new event into its key's slot keeps the slots, their coverage, distinctness and order. */
  lemma ReplaceSlot(s: seq<ClientEvent>, u: seq<ClientEvent>, m: map<Key, ClientEvent>, e: ClientEvent, p: nat)
    requires SlotsAgree(u, m) && Covered(u, m) && DistinctKeys(u) && InFirstOrder(s, u)
    requires p < |u| && KeyOf(u[p]) == KeyOf(e)
    ensures SlotsAgree(u[p := e], m[KeyOf(e) := e]) && Covered(u[p := e], m[KeyOf(e) := e])
    ensures DistinctKeys(u[p := e]) && InFirstOrder(s, u[p := e])
  {
    var key, u', m' := KeyOf(e), u[p := e], m[KeyOf(e) := e];
    assert SlotsAgree(u', m') by {
      forall i | 0 <= i < |u'|
        ensures KeyOf(u'[i]) in m' && m'[KeyOf(u'[i])] == u'[i]
      {
        if i != p {
          assert u'[i] == u[i] && KeyOf(u[i]) != key;
        }
      }
    }
    assert Covered(u', m') by {
      forall k | k in m'
        ensures exists i :: 0 <= i < |u'| && KeyOf(u'[i]) == k
      {
        var i :| 0 <= i < |u| && KeyOf(u[i]) == k;
        assert KeyOf(u'[i]) == k;
      }
    }
    assert DistinctKeys(u') by {
      forall i, j | 0 <= i < j < |u'|
        ensures KeyOf(u'[i]) != KeyOf(u'[j])
      {
        assert KeyOf(u'[i]) == KeyOf(u[i]) && KeyOf(u'[j]) == KeyOf(u[j]);
      }
    }
    assert InFirstOrder(s, u') by {
      forall i | 0 <= i < |u'|
        ensures KeyOf(u'[i]) == KeyOf(u[i])
      {
      }
    }
  }

  /** A repeated key with a smaller id: findIndex lands on the kept event's position. */
  lemma DedupReplace(prefix: seq<ClientEvent>, d: Dedup, e: ClientEvent)
    requires DedupInv(prefix, d) && UniqueIds(prefix + [e])
    requires KeyOf(e) in d.eventMap && e.eventId < d.eventMap[KeyOf(e)].eventId
    ensures DedupInv(prefix + [e], DedupStep(d, e))
  {
    var s, key, u, m := prefix + [e], KeyOf(e), d.unique, d.eventMap;
    var p :| 0 <= p < |u| && KeyOf(u[p]) == key;
    assert m[key] == u[p];
    UniqueIdsPrefix(prefix, e);
    FindKeptSlot(prefix, d, e, p);
    var u', m' := u[p := e], m[key := e];
    assert DedupStep(d, e) == Dedup(u', m');
    SeenAppend(prefix, m, e);
    assert m'.Keys == m.Keys;
    OrderAppend(prefix, u, m, e);
    ReplaceSlot(s, u, m, e, p);
    FromPrefixAppend(prefix, m, e);
    MinimalAppend(prefix, m, e);
  }

  lemma UniqueIdsPrefix(prefix: seq<ClientEvent>, e: ClientEvent)
    requires UniqueIds(prefix + [e])
    ensures UniqueIds(prefix)
  {
    forall i, j | 0 <= i < j < |prefix|
      ensures prefix[i].eventId != prefix[j].eventId
    {
      assert (prefix + [e])[i] == prefix[i] && (prefix + [e])[j] == prefix[j];
    }
  }

  /** Seeing e keeps the kept entries minimal, and makes e the entry when its id is smaller. */
  lemma MinimalAppend(prefix: seq<ClientEvent>, m: map<Key, ClientEvent>, e: ClientEvent)
    requires Minimal(prefix, m) && KeyOf(e) in m
    ensures e.eventId < m[KeyOf(e)].eventId ==> Minimal(prefix + [e], m[KeyOf(e) := e])
    ensures e.eventId >= m[KeyOf(e)].eventId ==> Minimal(prefix + [e], m)
  {
    var s, m' := prefix + [e], m[KeyOf(e) := e];
    forall k, j | k in m && 0 <= j < |s| && KeyOf(s[j]) == k
      ensures e.eventId < m[KeyOf(e)].eventId ==> m'[k].eventId <= s[j].eventId
      ensures e.eventId >= m[KeyOf(e)].eventId ==> m[k].eventId <= s[j].eventId
    {
      if j < |prefix| {
        assert s[j] == prefix[j];
      }
    }
  }

  /** A repeated key with an id not smaller: nothing changes. */
  lemma DedupKeep(prefix: seq<ClientEvent>, d: Dedup, e: ClientEvent)
    requires DedupInv(prefix, d)
    requires KeyOf(e) in d.eventMap && e.eventId >= d.eventMap[KeyOf(e)].eventId
    ensures DedupInv(prefix + [e], DedupStep(d, e))
  {
    assert DedupStep(d, e) == d;
    SeenAppend(prefix, d.eventMap, e);
    FromPrefixAppend(prefix, d.eventMap, e);
    MinimalAppend(prefix, d.eventMap, e);
    OrderAppend(prefix, d.unique, d.eventMap, e);
  }

  lemma {:induction false} DedupAllInv(events: seq<ClientEvent>)
    requires UniqueIds(events)
    ensures DedupInv(events, DedupAll(events))
    decreases |events|
  {
    if events != [] {
      var prefix, e := events[..|events| - 1], events[|events| - 1];
      assert events == prefix + [e];
      DedupAllInv(prefix);
      var d := DedupAll(prefix);
      if KeyOf(e) !in d.eventMap {
        DedupNewKey(prefix, d, e);
      } else if e.eventId < d.eventMap[KeyOf(e)].eventId {
        DedupReplace(prefix, d, e);
      } else {
        DedupKeep(prefix, d, e);
      }
    }
  }

  /**
   * With distinct ids: at most one event per key survives, every key of the
   * input is represented, each survivor is the key's event with the smallest
   * id, and the survivors are in the order of their keys' first occurrences.
   */
  lemma DedupProperties(events: seq<ClientEvent>)
    requires UniqueIds(events)
    ensures var u := DedupAll(events).unique;
      && (forall i, j :: 0 <= i < j < |u| ==> KeyOf(u[i]) != KeyOf(u[j]))
      && (forall j :: 0 <= j < |events| ==> HasKey(u, KeyOf(events[j])))
      && (forall i :: 0 <= i < |u| ==> u[i] in events)
      && (forall i, j :: 0 <= i < |u| && 0 <= j < |events| && KeyOf(events[j]) == KeyOf(u[i]) ==> u[i].eventId <= events[j].eventId)
      && (forall i, j :: 0 <= i < j < |u| ==> FirstIndex(events, KeyOf(u[i])) < FirstIndex(events, KeyOf(u[j])))
  {
    DedupAllInv(events);
    InvProperties(events, DedupAll(events));
  }

  /** The invariant, read as properties of the kept events. */
  lemma InvProperties(events: seq<ClientEvent>, d: Dedup)
    requires DedupInv(events, d)
    ensures var u := d.unique;
      && (forall i, j :: 0 <= i < j < |u| ==> KeyOf(u[i]) != KeyOf(u[j]))
      && (forall j :: 0 <= j < |events| ==> HasKey(u, KeyOf(events[j])))
      && (forall i :: 0 <= i < |u| ==> u[i] in events)
      && (forall i, j :: 0 <= i < |u| && 0 <= j < |events| && KeyOf(events[j]) == KeyOf(u[i]) ==> u[i].eventId <= events[j].eventId)
      && (forall i, j :: 0 <= i < j < |u| ==> FirstIndex(events, KeyOf(u[i])) < FirstIndex(events, KeyOf(u[j])))
  {
    EveryKeyKept(events, d.unique, d.eventMap);
    KeptAreSeen(events, d.unique, d.eventMap);
    KeptAreMinimal(events, d.unique, d.eventMap);
  }

  lemma KeptAreSeen(events: seq<ClientEvent>, u: seq<ClientEvent>, m: map<Key, ClientEvent>)
    requires SlotsAgree(u, m) && FromPrefix(events, m)
    ensures forall i :: 0 <= i < |u| ==> u[i] in events
  {
  }

  lemma KeptAreMinimal(events: seq<ClientEvent>, u: seq<ClientEvent>, m: map<Key, ClientEvent>)
    requires SlotsAgree(u, m) && Minimal(events, m)
    ensures forall i, j :: 0 <= i < |u| && 0 <= j < |events| && KeyOf(events[j]) == KeyOf(u[i]) ==> u[i].eventId <= events[j].eventId
  {
  }

  /** Every key seen has a kept event. */
  lemma EveryKeyKept(events: seq<ClientEvent>, u: seq<ClientEvent>, m: map<Key, ClientEvent>)
    requires KeysSeen(events, m) && Covered(u, m)
    ensures forall j :: 0 <= j < |events| ==> HasKey(u, KeyOf(events[j]))
  {
    forall j | 0 <= j < |events|
      ensures HasKey(u, KeyOf(events[j]))
    {
      assert HasKey(events, KeyOf(events[j]));
    }
  }

  /** The de-duplication loop of fetchCalendarData. */
  method DedupEvents(events: seq<ClientEvent>) returns (unique: seq<ClientEvent>)
    ensures unique == DedupAll(events).unique
    ensures UniqueIds(events) ==>
      (forall i, j :: 0 <= i < j < |unique| ==> KeyOf(unique[i]) != KeyOf(unique[j]))
      && (forall j :: 0 <= j < |events| ==> exists i :: 0 <= i < |unique| && KeyOf(unique[i]) == KeyOf(events[j]))
      && (forall i, j :: 0 <= i < |unique| && 0 <= j < |events| && KeyOf(events[j]) == KeyOf(unique[i]) ==>
            unique[i].eventId <= events[j].eventId)
  {
    unique := [];
    var eventMap: map<Key, ClientEvent> := map[];
    var i := 0;
    while i < |events|
      invariant 0 <= i <= |events|
      invariant Dedup(unique, eventMap) == DedupAll(events[..i])
    {
      var event := events[i];
      var key := KeyOf(event);
      if key !in eventMap {
        eventMap := eventMap[key := event];
        unique := unique + [event];
      } else {
        var existing := eventMap[key];
        if event.eventId < existing.eventId {
          eventMap := eventMap[key := event];
          var index := FindIndexById(unique, existing.eventId);
          if index.Some? {
            unique := unique[index.value := event];
          }
        }
      }
      assert events[..i + 1][..i] == events[..i];
      i := i + 1;
    }
    assert events[..|events|] == events;
    if UniqueIds(events) {
      DedupProperties(events);
    }
  }

  // ---------------------------------------------------------------------------
  // saveEvent and deleteEvent
  // ---------------------------------------------------------------------------

  /** isSameDay on the local time line. */
  predicate SameDay(a: int, b: int)
  {
    a / MsPerDay == b / MsPerDay
  }

  predicate IsRecurringType(t: string)
  {
    t == "recurring_due" || t == "recurring_payment"
  }

  /** `payments.find(p => p.payment_name === name)` */
  function FindPayment(ps: seq<Payment>, name: string): (r: Option<Payment>)
    ensures r.Some? ==> r.value in ps && r.value.paymentName == name
    ensures r.None? ==> forall p :: p in ps ==> p.paymentName != name
  {
    if ps == [] then None
    else if ps[0].paymentName == name then Some(ps[0])
    else FindPayment(ps[1..], name)
  }

  /** `events.some(e => e.event_title === title && isSameDay(e.event_date, date))` */
  predicate ExistsSameDay(events: seq<ClientEvent>, title: string, date: int)
  {
    exists e :: e in events && e.title == title && SameDay(e.date, date)
  }

  /** The argument of saveEvent. */
  datatype EventData = EventData(eventId: Option<nat>, title: string, date: int, eventType: string, isRecurring: bool,
                                 frequency: Option<string>, amount: Option<real>)

  /** The body of a recurring payment request. */
  datatype RecurringData = RecurringData(amount: real, paymentName: string, frequency: string, nextDueDate: int)

  /** A request the thunks send, in order. */
  datatype Request =
    | UpdatePayment(recurringId: nat, data: RecurringData)
    | CreatePayment(data: RecurringData)
    | DeletePayment(recurringId: nat)
    | UpdateEvent(eventId: nat, title: string, newDate: Option<int>, eventType: string)
    | CreateEvent(title: string, date: int, eventType: string)
      /** Refetch the events and take the one with this title on this day, creating it when there is none. */
    | FindOrCreateEvent(title: string, date: int, eventType: string)
    | DeleteEvent(eventId: nat)

  const DuplicateEvent: string := "An event with this title and date already exists."
  const SaveFailed: string := "Failed to save event. Please try again."
  const NoSelection: string := "No event selected for deletion."
  const DeleteFailed: string := "Failed to delete event. Please try again."

  /** `selectedEvent?.event_id` is truthy. */
  predicate HasSelectedId(selected: Option<ClientEvent>)
  {
    selected.Some? && selected.value.eventId != 0
  }

  /** The recurring payment body: amount defaults to 0, frequency to "monthly". */
  function RecurringDataOf(data: EventData): (r: RecurringData)
    ensures r.amount == (if data.amount.Some? then data.amount.value else 0.0)
    ensures r.frequency == (if data.frequency.None? || data.frequency.value == "" then "monthly" else data.frequency.value)
    ensures r.paymentName == data.title && r.nextDueDate == data.date
  {
    RecurringData(if data.amount.Some? then data.amount.value else 0.0, data.title,
                  if data.frequency.Some? && data.frequency.value != "" then data.frequency.value else "monthly", data.date)
  }

  /** One title-only update per event sharing the old title (the date is left as it is). */
  function Retitles(events: seq<ClientEvent>, oldTitle: string, newTitle: string): (r: seq<Request>)
    ensures |r| <= |events|
    ensures forall q :: q in r ==> q.UpdateEvent? && q.title == newTitle && q.newDate.None? && q.eventType == "recurring_due"
    ensures forall q :: q in r ==> exists e :: e in events && e.title == oldTitle && e.eventId == q.eventId
    ensures forall e :: e in events && e.title == oldTitle ==> UpdateEvent(e.eventId, newTitle, None, "recurring_due") in r
  {
    if events == [] then []
    else
      (if events[0].title == oldTitle then [UpdateEvent(events[0].eventId, newTitle, None, "recurring_due")] else [])
      + Retitles(events[1..], oldTitle, newTitle)
  }

  /**
   * The requests saveEvent sends, or the rejection it returns before sending
   * any: a new event whose title and day match a listed event is refused.
   */
  function SaveRequests(selected: Option<ClientEvent>, events: seq<ClientEvent>, payments: seq<Payment>, data: EventData)
    : (r: Result<seq<Request>>)
    ensures r.Err? <==> !HasSelectedId(selected) && ExistsSameDay(events, data.title, data.date)
    ensures r.Err? ==> r.error == DuplicateEvent
    ensures r.Ok? && !HasSelectedId(selected) && data.isRecurring ==>
      r.value == [CreatePayment(RecurringDataOf(data)), FindOrCreateEvent(data.title, data.date, "recurring_due")]
    ensures r.Ok? && !HasSelectedId(selected) && !data.isRecurring ==>
      r.value == [CreateEvent(data.title, data.date, data.eventType)]
    ensures r.Ok? && HasSelectedId(selected) ==>
      forall q :: q in r.value && q.UpdateEvent? ==> q.title == data.title
    ensures r.Ok? && HasSelectedId(selected) && !data.isRecurring ==>
      |r.value| > 0 && r.value[|r.value| - 1] == UpdateEvent(selected.value.eventId, data.title, Some(data.date), data.eventType)
      && forall q :: q in r.value[..|r.value| - 1] ==> q.DeletePayment?
  {
    if data.isRecurring then
      var rd := RecurringDataOf(data);
      if HasSelectedId(selected) then
        var sel := selected.value;
        match FindPayment(payments, sel.title)
        case Some(p) =>
          if sel.title != data.title then Ok([UpdatePayment(p.recurringId, rd)] + Retitles(events, sel.title, data.title))
          else Ok([UpdatePayment(p.recurringId, rd), UpdateEvent(sel.eventId, data.title, Some(data.date), "recurring_due")])
        case None =>
          Ok([CreatePayment(rd), UpdateEvent(sel.eventId, data.title, Some(data.date), "recurring_due")])
      else if ExistsSameDay(events, data.title, data.date) then Err(DuplicateEvent)
      else Ok([CreatePayment(rd), FindOrCreateEvent(data.title, data.date, "recurring_due")])
    else if HasSelectedId(selected) then
      var sel := selected.value;
      var payment := FindPayment(payments, sel.title);
      var drop := if IsRecurringType(sel.eventType) && payment.Some? then [DeletePayment(payment.value.recurringId)] else [];
      Ok(drop + [UpdateEvent(sel.eventId, data.title, Some(data.date), data.eventType)])
    else if ExistsSameDay(events, data.title, data.date) then Err(DuplicateEvent)
    else Ok([CreateEvent(data.title, data.date, data.eventType)])
  }

  /** What saveEvent fulfils with. */
  datatype SavePayload = SavePayload(savedEventId: Option<nat>, amount: Option<real>)

  /**
   * saveEvent: an edited event keeps its id; a new one takes the id the
   * server gives it (`createdId`). A failing request rejects with SaveFailed.
   */
  function SaveEventThunk(selected: Option<ClientEvent>, events: seq<ClientEvent>, payments: seq<Payment>, data: EventData,
                          createdId: nat, requestFails: bool): (r: Result<SavePayload>)
    ensures r.Err? <==> SaveRequests(selected, events, payments, data).Err? || requestFails
    ensures r.Err? && SaveRequests(selected, events, payments, data).Err? ==> r.error == DuplicateEvent
    ensures r.Err? && SaveRequests(selected, events, payments, data).Ok? ==> r.error == SaveFailed
    ensures r.Ok? ==> r.value.amount == data.amount
    ensures r.Ok? && HasSelectedId(selected) ==> r.value.savedEventId == Some(selected.value.eventId)
    ensures r.Ok? && !HasSelectedId(selected) ==> r.value.savedEventId == Some(createdId)
  {
    match SaveRequests(selected, events, payments, data)
    case Err(message) => Err(message)
    case Ok(_) =>
      if requestFails then Err(SaveFailed)
      else Ok(SavePayload(if HasSelectedId(selected) then Some(selected.value.eventId) else Some(createdId), data.amount))
  }

  /** The recurring events titled like the selected one. */
  function RelatedIds(events: seq<ClientEvent>, title: string): (r: seq<nat>)
    ensures forall id :: id in r <==> exists e :: e in events && IsRecurringType(e.eventType) && e.title == title && e.eventId == id
  {
    if events == [] then []
    else
      (if IsRecurringType(events[0].eventType) && events[0].title == title then [events[0].eventId] else [])
      + RelatedIds(events[1..], title)
  }

  /**
   * The ids deleteEvent deletes (and fulfils with): for a recurring event
   * with a payment of the same name, every recurring event sharing its
   * title; otherwise the selected event alone.
   */
  function DeleteEventIds(selected: Option<ClientEvent>, events: seq<ClientEvent>, payments: seq<Payment>): (r: Result<seq<nat>>)
    ensures selected.None? <==> r == Err(NoSelection)
    ensures selected.Some? && !(IsRecurringType(selected.value.eventType) && FindPayment(payments, selected.value.title).Some?) ==>
      r == Ok([selected.value.eventId])
    ensures selected.Some? && IsRecurringType(selected.value.eventType) && FindPayment(payments, selected.value.title).Some? ==>
      r.Ok? && forall id :: id in r.value <==>
        exists e :: e in events && IsRecurringType(e.eventType) && e.title == selected.value.title && e.eventId == id
  {
    match selected
    case None => Err(NoSelection)
    case Some(sel) =>
      if IsRecurringType(sel.eventType) && FindPayment(payments, sel.title).Some? then Ok(RelatedIds(events, sel.title))
      else Ok([sel.eventId])
  }

  /** A listed event that is deleted is among the ids deleteEvent reports. */
  lemma DeleteIncludesSelected(selected: ClientEvent, events: seq<ClientEvent>, payments: seq<Payment>)
    requires selected in events
    ensures DeleteEventIds(Some(selected), events, payments).Ok?
    ensures selected.eventId in DeleteEventIds(Some(selected), events, payments).value
  {
  }

  /** The requests deleteEvent sends. */
  function DeleteRequests(selected: ClientEvent, payments: seq<Payment>, ids: seq<nat>): (r: seq<Request>)
    ensures |r| == |ids| || |r| == |ids| + 1
    ensures forall k :: 0 <= k < |ids| ==> r[|r| - |ids| + k] == DeleteEvent(ids[k])
  {
    var payment := FindPayment(payments, selected.title);
    (if IsRecurringType(selected.eventType) && payment.Some? then [DeletePayment(payment.value.recurringId)] else [])
    + seq(|ids|, k requires 0 <= k < |ids| => DeleteEvent(ids[k]))
  }

  /** deleteAllEvents: every payment, then every listed event; failures are skipped. */
  function DeleteAllRequests(payments: seq<Payment>, events: seq<ClientEvent>): (r: seq<Request>)
    ensures |r| == |payments| + |events|
    ensures forall k :: 0 <= k < |payments| ==> r[k] == DeletePayment(payments[k].recurringId)
    ensures forall k :: 0 <= k < |events| ==> r[|payments| + k] == DeleteEvent(events[k].eventId)
  {
    seq(|payments|, k requires 0 <= k < |payments| => DeletePayment(payments[k].recurringId))
    + seq(|events|, k requires 0 <= k < |events| => DeleteEvent(events[k].eventId))
  }

  // ---------------------------------------------------------------------------
  // The slice state and its reducers
  // ---------------------------------------------------------------------------

  /** The calendar slice state. */
  class CalendarStore {
    var currentDate: int
    var calendarEvents: seq<ClientEvent>
    var recurringPayments: seq<Payment>
    var eventAmounts: map<nat, real>
    var isModalOpen: bool
    var isDeleteAllModalOpen: bool
    var selectedEvent: Option<ClientEvent>
    var loading: bool
    var isDeleting: bool
    var isProcessing: bool
    var error: Option<string>
    var refreshKey: nat

    /** initialState: `now` is the clock, `stored` the amounts kept in session storage. */
    constructor (now: int, stored: map<nat, real>)
      ensures currentDate == now && calendarEvents == [] && recurringPayments == [] && eventAmounts == stored
      ensures !isModalOpen && !isDeleteAllModalOpen && selectedEvent.None?
      ensures loading && !isDeleting && !isProcessing && error.None? && refreshKey == 0
    {
      currentDate, calendarEvents, recurringPayments, eventAmounts := now, [], [], stored;
      isModalOpen, isDeleteAllModalOpen, selectedEvent := false, false, None;
      loading, isDeleting, isProcessing, error, refreshKey := true, false, false, None, 0;
    }

    method SetCurrentDate(date: int)
      modifies this`currentDate
      ensures currentDate == date
    {
      currentDate := date;
    }

    method SetIsModalOpen(open: bool)
      modifies this`isModalOpen
      ensures isModalOpen == open
    {
      isModalOpen := open;
    }

    method SetIsDeleteAllModalOpen(open: bool)
      modifies this`isDeleteAllModalOpen
      ensures isDeleteAllModalOpen == open
    {
      isDeleteAllModalOpen := open;
    }

    method SetSelectedEvent(e: Option<ClientEvent>)
      modifies this`selectedEvent
      ensures selectedEvent == e
    {
      selectedEvent := e;
    }

    /** saveEventAmount: one entry set, every other entry kept. */
    method SaveEventAmount(eventId: nat, amount: real)
      modifies this`eventAmounts
      ensures eventAmounts == old(eventAmounts)[eventId := amount]
      ensures eventId in eventAmounts && eventAmounts[eventId] == amount
      ensures forall id :: id != eventId ==> (id in eventAmounts <==> id in old(eventAmounts))
      ensures forall id :: id != eventId && id in eventAmounts ==> eventAmounts[id] == old(eventAmounts)[id]
    {
      eventAmounts := eventAmounts[eventId := amount];
    }

    method ClearError()
      modifies this`error
      ensures error.None?
    {
      error := None;
    }

    method IncrementRefreshKey()
      modifies this`refreshKey
      ensures refreshKey == old(refreshKey) + 1
    {
      refreshKey := refreshKey + 1;
    }

    /** fetchCalendarData.pending */
    method FetchPending()
      modifies this`loading, this`error
      ensures loading && error.None?
    {
      loading, error := true, None;
    }

    /** fetchCalendarData.fulfilled with the de-duplicated events and the payments. */
    method FetchFulfilled(events: seq<ClientEvent>, payments: seq<Payment>)
      modifies this`calendarEvents, this`recurringPayments, this`loading
      ensures calendarEvents == events && recurringPayments == payments && !loading
    {
      calendarEvents, recurringPayments, loading := events, payments, false;
    }

    /** fetchCalendarData.rejected */
    method FetchRejected(message: string)
      modifies this`loading, this`error
      ensures !loading && error == Some(message)
    {
      loading, error := false, Some(message);
    }

    /** saveEvent.pending */
    method SavePending()
      modifies this`isProcessing, this`error
      ensures isProcessing && error.None?
    {
      isProcessing, error := true, None;
    }

    /**
     * saveEvent.fulfilled: the amount is recorded only for a truthy id and a
     * defined amount; the modal closes, the selection clears and the view
     * refreshes in every case.
     */
    method SaveFulfilled(payload: SavePayload)
      modifies this`eventAmounts, this`isModalOpen, this`selectedEvent, this`isProcessing, this`refreshKey
      ensures payload.savedEventId.Some? && payload.savedEventId.value != 0 && payload.amount.Some? ==>
        eventAmounts == old(eventAmounts)[payload.savedEventId.value := payload.amount.value]
      ensures !(payload.savedEventId.Some? && payload.savedEventId.value != 0 && payload.amount.Some?) ==>
        eventAmounts == old(eventAmounts)
      ensures !isModalOpen && selectedEvent.None? && !isProcessing && refreshKey == old(refreshKey) + 1
    {
      if payload.savedEventId.Some? && payload.savedEventId.value != 0 && payload.amount.Some? {
        eventAmounts := eventAmounts[payload.savedEventId.value := payload.amount.value];
      }
      isModalOpen, selectedEvent, isProcessing := false, None, false;
      refreshKey := refreshKey + 1;
    }

    /** saveEvent.rejected */
    method SaveRejected(message: string)
      modifies this`error, this`isProcessing
      ensures error == Some(message) && !isProcessing
    {
      error, isProcessing := Some(message), false;
    }

    /** deleteEvent.pending and deleteAllEvents.pending. */
    method DeletePending()
      modifies this`isDeleting, this`isProcessing, this`error
      ensures isDeleting && isProcessing && error.None?
    {
      isDeleting, isProcessing, error := true, true, None;
    }

    /** deleteEvent.fulfilled: exactly the deleted ids lose their amounts. */
    method DeleteFulfilled(deletedEventIds: seq<nat>)
      modifies this`eventAmounts, this`isModalOpen, this`selectedEvent, this`isDeleting, this`isProcessing, this`refreshKey
      ensures forall id :: id in eventAmounts <==> id in old(eventAmounts) && id !in deletedEventIds
      ensures forall id :: id in eventAmounts ==> eventAmounts[id] == old(eventAmounts)[id]
      ensures !isModalOpen && selectedEvent.None? && !isDeleting && !isProcessing && refreshKey == old(refreshKey) + 1
    {
      var updated := eventAmounts;
      var i := 0;
      while i < |deletedEventIds|
        invariant 0 <= i <= |deletedEventIds|
        invariant forall id :: id in updated <==> id in eventAmounts && id !in deletedEventIds[..i]
        invariant forall id :: id in updated ==> updated[id] == eventAmounts[id]
      {
        assert deletedEventIds[..i + 1] == deletedEventIds[..i] + [deletedEventIds[i]];
        updated := updated - {deletedEventIds[i]};
        i := i + 1;
      }
      assert deletedEventIds[..i] == deletedEventIds;
      eventAmounts := updated;
      isModalOpen, selectedEvent, isDeleting, isProcessing := false, None, false, false;
      refreshKey := refreshKey + 1;
    }

    /** deleteEvent.rejected and deleteAllEvents.rejected. */
    method DeleteRejected(message: string)
      modifies this`error, this`isDeleting, this`isProcessing
      ensures error == Some(message) && !isDeleting && !isProcessing
    {
      error, isDeleting, isProcessing := Some(message), false, false;
    }

    /** deleteAllEvents.fulfilled: no amount is left. */
    method DeleteAllFulfilled()
      modifies this`eventAmounts, this`isDeleteAllModalOpen, this`isDeleting, this`isProcessing, this`refreshKey
      ensures eventAmounts == map[] && !isDeleteAllModalOpen && !isDeleting && !isProcessing
      ensures refreshKey == old(refreshKey) + 1
    {
      eventAmounts := map[];
      isDeleteAllModalOpen, isDeleting, isProcessing := false, false, false;
      refreshKey := refreshKey + 1;
    }
  }
}
