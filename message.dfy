/** `Message`: a stored chat message with a length-checked text, and its
    dictionary form. Dictionary values are dynamically typed, so the few
    kinds that matter here are modelled as `Value`. */
module Messages {
  import opened Wrappers

  /** Longest accepted message text, in characters. */
  const MaxMessageLength: nat := 16392

  /** A point in time, as microseconds since the epoch. */
  datatype DateTime = DateTime(micros: int)

  /** A dictionary value or constructor argument: `None`, an integer, a
      string or a `datetime`. */
  datatype Value = NoneValue | IntValue(i: int) | StrValue(s: string) | DateValue(d: DateTime)

  /** The message record: `id` and `date` keep whatever was passed (or the
      defaults), `message` is the checked text. */
  datatype Message = Message(id: Value, date: Value, message: string)

  /** Why the constructor raises: `len` of a value that has no length, or a
      text over the limit (carrying its length). */
  datatype MessageError = TypeError | ValueError(length: nat)

  /** Python truthiness: `None`, `0` and `""` are false; every `datetime` is true. */
  predicate Truthy(v: Value) {
    match v
    case NoneValue => false
    case IntValue(i) => i != 0
    case StrValue(s) => s != ""
    case DateValue(_) => true
  }

  /** What a `Message` holds after its constructor returns. */
  predicate WellFormed(m: Message) {
    |m.message| <= MaxMessageLength && Truthy(m.date)
  }

  /** `Message(message, date, id)` with the clock reading `now`: the date
      defaults to `now` when falsy; a text with no length raises
      `TypeError`, one over the limit `ValueError`; otherwise it is stored
      unchanged. */
  function NewMessage(message: Value, date: Value, id: Value, now: DateTime): (r: Result<Message, MessageError>)
    ensures r.Ok? <==> message.StrValue? && |message.s| <= MaxMessageLength
    ensures message.StrValue? && |message.s| > MaxMessageLength ==> r == Err(ValueError(|message.s|))
    ensures !message.StrValue? ==> r == Err(TypeError)
    ensures r.Ok? ==> && r.value.message == message.s && r.value.id == id
                      && r.value.date == (if Truthy(date) then date else DateValue(now))
                      && WellFormed(r.value)
  {
    var date := if Truthy(date) then date else DateValue(now);
    match message
    case StrValue(s) =>
      if |s| > MaxMessageLength then Err(ValueError(|s|)) else Ok(Message(id, date, s))
    case _ => Err(TypeError)
  }

  /** `to_dict`: the three fields under their names. */
  function ToDict(m: Message): (d: map<string, Value>)
    ensures d.Keys == {"id", "date", "message"}
    ensures d["id"] == m.id && d["date"] == m.date && d["message"] == StrValue(m.message)
  {
    map["id" := m.id, "date" := m.date, "message" := StrValue(m.message)]
  }

  /** `dict.get`: the value under `key`, or `None` when it is missing. */
  function Get(d: map<string, Value>, key: string): Value {
    if key in d then d[key] else NoneValue
  }

  /** `from_dict`: the constructor applied to the dictionary's `id`, `date`
      and `message`, each `None` when missing. */
  function FromDict(d: map<string, Value>, now: DateTime): (r: Result<Message, MessageError>)
    ensures r.Ok? <==> "message" in d && d["message"].StrValue? && |d["message"].s| <= MaxMessageLength
    ensures !("message" in d && d["message"].StrValue?) ==> r == Err(TypeError)
    ensures r.Ok? ==> && r.value.message == d["message"].s
                      && r.value.id == (if "id" in d then d["id"] else NoneValue)
                      && (("date" in d && Truthy(d["date"])) ==> r.value.date == d["date"])
                      && (!("date" in d && Truthy(d["date"])) ==> r.value.date == DateValue(now))
  {
    NewMessage(Get(d, "message"), Get(d, "date"), Get(d, "id"), now)
  }

  /** Any text up to the limit is accepted and stored unchanged, whatever
      the date and id. */
  lemma ShortTextAccepted(text: string, date: Value, id: Value, now: DateTime)
    requires |text| <= MaxMessageLength
    ensures NewMessage(StrValue(text), date, id, now).Ok?
    ensures NewMessage(StrValue(text), date, id, now).value.message == text
  {
  }

  /** Without a date the message is stamped with the clock reading, and
      without an id it has none. */
  lemma Defaults(text: string, now: DateTime)
    requires |text| <= MaxMessageLength
    ensures NewMessage(StrValue(text), NoneValue, NoneValue, now) == Ok(Message(NoneValue, DateValue(now), text))
  {
  }

  /** A dictionary round trip gives back every well-formed message, and so
      every message the constructor builds. */
  lemma RoundTrip(m: Message, now: DateTime)
    requires WellFormed(m)
    ensures FromDict(ToDict(m), now) == Ok(m)
  {
    var d := ToDict(m);
    assert Get(d, "message") == StrValue(m.message);
    assert Get(d, "date") == m.date && Get(d, "id") == m.id;
  }

  /** `from_dict` re-runs the length check: an over-long text in the
      dictionary is rejected with its length. */
  lemma FromDictRejectsLong(d: map<string, Value>, now: DateTime)
    requires "message" in d && d["message"].StrValue? && |d["message"].s| > MaxMessageLength
    ensures FromDict(d, now) == Err(ValueError(|d["message"].s|))
  {
  }

  /** Constructing, then converting to a dictionary and back, is the same
      as constructing: the second clock reading is never used. */
  lemma ConstructRoundTrip(message: Value, date: Value, id: Value, now: DateTime, later: DateTime)
    requires NewMessage(message, date, id, now).Ok?
    ensures FromDict(ToDict(NewMessage(message, date, id, now).value), later) == NewMessage(message, date, id, now)
  {
    RoundTrip(NewMessage(message, date, id, now).value, later);
  }
}
