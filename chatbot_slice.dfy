/**
 * The chatbot's message log in the store, and its copy in session storage.
 * A message's timestamp is an instant on the line of IsoTime (None is an
 * Invalid Date). The stored text is modelled by the JSON value it parses
 * to: an array of records, another JSON value, or text that is not JSON.
 * Date.now() is a parameter `now`, in milliseconds since the Unix epoch.
 */
module ChatbotSlice {
  import opened Wrappers
  import opened Js
  import opened IsoTime

  datatype Message = Message(id: string, content: string, sender: string, timestamp: Option<nat>)

  /** A message as JSON.stringify writes it: the timestamp as ISO text. */
  datatype StoredRecord = StoredRecord(id: string, content: string, sender: string, timestamp: string)

  /** What JSON.parse makes of the stored text. */
  datatype Json = JsonArray(records: seq<StoredRecord>) | OtherJson | NotJson

  const ApologyText: string := "Sorry, there was a problem getting the chatbot response. Please try again."
  const SendFailed: string := "Failed to get chatbot response"

  /** The last ten messages (all of them when there are fewer): `messages.slice(-10)`. */
  function LastTen(messages: seq<Message>): (r: seq<Message>)
    ensures |r| == (if |messages| < 10 then |messages| else 10)
    ensures r == messages[|messages| - |r|..]
  {
    if |messages| <= 10 then messages else messages[|messages| - 10..]
  }

  predicate ValidTimestamps(messages: seq<Message>)
  {
    forall i :: 0 <= i < |messages| ==> messages[i].timestamp.Some?
  }

  function RecordOf(m: Message): StoredRecord
    requires m.timestamp.Some?
  {
    StoredRecord(m.id, m.content, m.sender, IsoText(m.timestamp.value))
  }

  /**
   * serializeMessages: every message with its timestamp as ISO text;
   * toISOString throws on an Invalid Date, so one invalid timestamp fails
   * the whole call.
   */
  function Serialize(messages: seq<Message>): (r: Result<seq<StoredRecord>>)
    ensures r.Ok? <==> ValidTimestamps(messages)
    ensures r.Ok? ==> |r.value| == |messages|
    ensures r.Ok? ==> forall i :: 0 <= i < |messages| ==>
      r.value[i] == StoredRecord(messages[i].id, messages[i].content, messages[i].sender, IsoText(messages[i].timestamp.value))
  {
    if ValidTimestamps(messages) then Ok(seq(|messages|, i requires 0 <= i < |messages| => RecordOf(messages[i])))
    else Err("RangeError: Invalid time value")
  }

  function MessageOf(r: StoredRecord): Message
  {
    Message(r.id, r.content, r.sender, ParseIso(r.timestamp))
  }

  /**
   * deserializeMessages: an array's records with their timestamps read
   * back by the Date constructor; a value that is not an array (map is not
   * a function) or text that is not JSON is caught and gives no messages.
   */
  function Deserialize(parsed: Json): (r: seq<Message>)
    ensures !parsed.JsonArray? ==> r == []
    ensures parsed.JsonArray? ==> |r| == |parsed.records|
    ensures parsed.JsonArray? ==> forall i :: 0 <= i < |r| ==>
      r[i].id == parsed.records[i].id && r[i].content == parsed.records[i].content
      && r[i].sender == parsed.records[i].sender && r[i].timestamp == ParseIso(parsed.records[i].timestamp)
  {
    match parsed
    case JsonArray(records) => seq(|records|, i requires 0 <= i < |records| => MessageOf(records[i]))
    case _ => []
  }

  /** loadMessages: no stored item gives no messages; a stored one is deserialized. */
  function Load(stored: Option<Json>): (r: seq<Message>)
    ensures stored.None? ==> r == []
    ensures stored.Some? ==> r == Deserialize(stored.value)
  {
    if stored.Some? then Deserialize(stored.value) else []
  }

  /** saveMessages: what it stores, the serialized last ten messages; it throws when one of them has an invalid timestamp. */
  function SaveMessages(messages: seq<Message>): (r: Result<Json>)
    ensures r.Ok? <==> ValidTimestamps(LastTen(messages))
    ensures r.Ok? ==> r.value.JsonArray? && |r.value.records| == |LastTen(messages)|
  {
    match Serialize(LastTen(messages))
    case Ok(records) => Ok(JsonArray(records))
    case Err(e) => Err(e)
  }

  /** Timestamps that toISOString writes with a four-digit year. */
  predicate FourDigitTimestamps(messages: seq<Message>)
  {
    forall i :: 0 <= i < |messages| ==> messages[i].timestamp.Some? && messages[i].timestamp.value < FourDigitYearsEnd
  }

  /**
   * Deserializing what serialization wrote gives the messages back: id,
   * content, sender and, through the ISO text, the timestamp.
   */
  lemma SerializeRoundTrip(messages: seq<Message>)
    requires FourDigitTimestamps(messages)
    ensures Serialize(messages).Ok? && Deserialize(JsonArray(Serialize(messages).value)) == messages
  {
    var back := Deserialize(JsonArray(Serialize(messages).value));
    forall i | 0 <= i < |messages|
      ensures back[i] == messages[i]
    {
      IsoRoundTrip(messages[i].timestamp.value);
    }
  }

  /** Reloading the page after a save restores exactly the last ten messages. */
  lemma ReloadRestoresLastTen(messages: seq<Message>)
    requires FourDigitTimestamps(messages)
    ensures SaveMessages(messages).Ok? && Load(Some(SaveMessages(messages).value)) == LastTen(messages)
  {
    var last := LastTen(messages);
    assert FourDigitTimestamps(last) by {
      forall i | 0 <= i < |last|
        ensures last[i].timestamp.Some? && last[i].timestamp.value < FourDigitYearsEnd
      {
        assert last[i] == messages[|messages| - |last| + i];
      }
    }
    SerializeRoundTrip(last);
  }

  /**
   * sendMessage: the chatbot service's reply, or a rejection carrying the
   * error's message, the fixed text when it has none.
   */
  function SendThunk(reply: Result<string>): (r: Result<string>)
    ensures r.Ok? <==> reply.Ok?
    ensures r.Ok? ==> r.value == reply.value
    ensures reply.Err? && reply.error != "" ==> r == Err(reply.error)
    ensures reply.Err? && reply.error == "" ==> r == Err(SendFailed)
  {
    match reply
    case Ok(text) => Ok(text)
    case Err(message) => Err(if message != "" then message else SendFailed)
  }

  /** The id Date.now() + k gives. */
  function IdAt(now: nat, k: nat): string
  {
    NatText(now + k)
  }

  /** The message the store makes at `now`; its timestamp is that instant. */
  function MessageAt(now: nat, k: nat, content: string, sender: string): (m: Message)
    ensures m.timestamp == Some(UnixEpoch + now) && m.content == content && m.sender == sender
    ensures m.id == NatText(now + k)
  {
    Message(IdAt(now, k), content, sender, Some(UnixEpoch + now))
  }

  /**
   * The chatbot state. `storage` is the session storage item holding the
   * log, None when it is absent. A reducer that throws (saveMessages on an
   * invalid timestamp) leaves the whole state as it was.
   */
  class ChatbotStore {
    var messages: seq<Message>
    var inputValue: string
    var showIntro: bool
    var loading: bool
    var error: Option<string>
    var storage: Option<Json>

    /** initialState: the stored log, and the intro shown iff it is empty. */
    constructor (stored: Option<Json>)
      ensures messages == Load(stored) && (showIntro <==> Load(stored) == [])
      ensures inputValue == "" && !loading && error.None? && storage == stored
    {
      messages := Load(stored);
      showIntro := Load(stored) == [];
      inputValue, loading, error, storage := "", false, None, stored;
    }

    method SetInputValue(text: string)
      modifies this`inputValue
      ensures inputValue == text
    {
      inputValue := text;
    }

    method SetShowIntro(shown: bool)
      modifies this`showIntro
      ensures showIntro == shown
    {
      showIntro := shown;
    }

    /**
     * addUserMessage: appends one user message with the content, clears the
     * input, hides the intro and saves the log; when saving throws nothing
     * changes.
     */
    method AddUserMessage(content: string, now: nat) returns (r: Result<()>)
      modifies this`messages, this`inputValue, this`showIntro, this`storage
      ensures var log := old(messages) + [MessageAt(now, 0, content, "user")];
        match SaveMessages(log)
        case Ok(saved) => r.Ok? && messages == log && inputValue == "" && !showIntro && storage == Some(saved)
        case Err(_) => r.Err? && messages == old(messages) && inputValue == old(inputValue)
                       && showIntro == old(showIntro) && storage == old(storage)
    {
      var log := messages + [MessageAt(now, 0, content, "user")];
      match SaveMessages(log) {
        case Ok(saved) =>
          messages, inputValue, showIntro, storage := log, "", false, Some(saved);
          r := Ok(());
        case Err(e) =>
          r := Err(e);
      }
    }

    /** clearMessages: empties the log, removes the stored item and shows the intro. */
    method ClearMessages()
      modifies this`messages, this`storage, this`showIntro
      ensures messages == [] && storage.None? && showIntro
    {
      messages, storage, showIntro := [], None, true;
    }

    /** sendMessage.pending */
    method SendPending()
      modifies this`loading, this`error
      ensures loading && error.None?
    {
      loading, error := true, None;
    }

    /**
     * sendMessage.fulfilled: loading off, one ai message with the reply
     * appended and the log saved; when saving throws nothing changes.
     */
    method SendFulfilled(reply: string, now: nat) returns (r: Result<()>)
      modifies this`loading, this`messages, this`storage
      ensures var log := old(messages) + [MessageAt(now, 1, reply, "ai")];
        match SaveMessages(log)
        case Ok(saved) => r.Ok? && !loading && messages == log && storage == Some(saved)
        case Err(_) => r.Err? && loading == old(loading) && messages == old(messages) && storage == old(storage)
    {
      var log := messages + [MessageAt(now, 1, reply, "ai")];
      match SaveMessages(log) {
        case Ok(saved) =>
          loading, messages, storage := false, log, Some(saved);
          r := Ok(());
        case Err(e) =>
          r := Err(e);
      }
    }

    /**
     * sendMessage.rejected: loading off, the error recorded, the fixed
     * apology appended as an ai message and the log saved; when saving
     * throws nothing changes.
     */
    method SendRejected(payload: string, now: nat) returns (r: Result<()>)
      modifies this`loading, this`error, this`messages, this`storage
      ensures var log := old(messages) + [MessageAt(now, 2, ApologyText, "ai")];
        match SaveMessages(log)
        case Ok(saved) => r.Ok? && !loading && error == Some(payload) && messages == log && storage == Some(saved)
        case Err(_) => r.Err? && loading == old(loading) && error == old(error) && messages == old(messages)
                       && storage == old(storage)
    {
      var log := messages + [MessageAt(now, 2, ApologyText, "ai")];
      match SaveMessages(log) {
        case Ok(saved) =>
          loading, error, messages, storage := false, Some(payload), log, Some(saved);
          r := Ok(());
        case Err(e) =>
          r := Err(e);
      }
    }
  }

  /**
   * A stored record whose timestamp the Date constructor cannot read loads
   * as an Invalid Date, and while it is among the last ten, every append
   * fails to save, so the log cannot grow until it is cleared.
   */
  lemma InvalidTimestampBlocksSaving(messages: seq<Message>, m: Message, i: nat)
    requires |messages| < 10 && i < |messages| && messages[i].timestamp.None?
    ensures SaveMessages(messages + [m]).Err?
  {
    var log := messages + [m];
    assert LastTen(log) == log;
    assert log[i].timestamp.None?;
  }

  /** A message appended to at most nine others is saved with all of them, and reading back gives the new log. */
  lemma AppendSaved(messages: seq<Message>, m: Message)
    requires FourDigitTimestamps(messages) && m.timestamp.Some? && m.timestamp.value < FourDigitYearsEnd
    ensures SaveMessages(messages + [m]).Ok?
    ensures Load(Some(SaveMessages(messages + [m]).value)) == LastTen(messages + [m])
    ensures |messages| < 10 ==> Load(Some(SaveMessages(messages + [m]).value)) == messages + [m]
  {
    var log := messages + [m];
    assert FourDigitTimestamps(log) by {
      forall k | 0 <= k < |log|
        ensures log[k].timestamp.Some? && log[k].timestamp.value < FourDigitYearsEnd
      {
        if k < |messages| {
          assert log[k] == messages[k];
        }
      }
    }
    ReloadRestoresLastTen(log);
  }
}
