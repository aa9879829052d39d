/**
  The event envelope on the wire (internal/outbox/envelope.go, redis_transport.go): eight text
  fields of a stream entry. RFC 3339 time text and JSON validity are fields of `Text`.
*/
module OutboxEnvelope {
  import opened Wrappers
  import opened Identity

  const MAX_INT64 := 0x7FFF_FFFF_FFFF_FFFF

  /** What one outbox row says about its event; the optional fields are absent in legacy rows. */
  datatype EventData = EventData(aggregateId: string, version: Option<int>, eventType: string, createdAt: int, payload: string,
                                 traceparent: Option<string>)

  datatype Envelope = Envelope(schemaVersion: int, eventId: string, aggregateId: string, aggregateVersion: int, eventType: string,
                               occurredAt: int, payload: string, traceparent: string)

  datatype Text = Text(formatTime: int -> string, parseTime: string -> Option<int>, validJson: string -> bool)

  datatype FieldName = SchemaVersion | EventId | AggregateId | AggregateVersion | EventType | OccurredAt | PayloadField | TraceparentField

  /** A stream entry's text fields under their registered names. */
  type Fields = map<FieldName, string>

  function NewEnvelope(id: int, data: EventData): Envelope {
    Envelope(1, FormatInt(id), data.aggregateId, if data.version.Some? then data.version.value else 0, data.eventType, data.createdAt,
             data.payload, if data.traceparent.Some? then data.traceparent.value else "")
  }

  function FieldsOf(text: Text, e: Envelope): Fields {
    map[SchemaVersion := FormatInt(e.schemaVersion), EventId := e.eventId, AggregateId := e.aggregateId,
        AggregateVersion := FormatInt(e.aggregateVersion), EventType := e.eventType, OccurredAt := text.formatTime(e.occurredAt),
        PayloadField := e.payload, TraceparentField := e.traceparent]
  }

  // ---------- reading numbers ----------

  predicate Digits(s: string) {
    s != "" && forall c :: c in s ==> '0' <= c <= '9'
  }

  /** A signed decimal within 64 bits, leading zeros and a plus sign allowed. */
  function ParseInt(s: string): Option<int> {
    var signed := s != "" && (s[0] == '-' || s[0] == '+');
    var digits := if signed then s[1..] else s;
    if !Digits(digits) then None
    else
      var magnitude: int := Natural(digits);
      var n := if s[0] == '-' then -magnitude else magnitude;
      if -MAX_INT64 - 1 <= n <= MAX_INT64 then Some(n) else None
  }

  lemma ParsesNatural(n: nat)
    ensures ParseInt(Decimal(n)) == if n <= MAX_INT64 then Some(n) else None
  {
    DecimalRoundTrip(n);
    assert Decimal(n)[0] in Decimal(n);
  }

  lemma ParsesNegative(n: int)
    requires n >= 0
    ensures ParseInt("-" + Decimal(n)) == if n <= MAX_INT64 + 1 then Some(-n) else None
  {
    DecimalRoundTrip(n);
    assert ("-" + Decimal(n))[1..] == Decimal(n);
  }

  lemma ParseIntReadsFormatInt(n: int)
    ensures ParseInt(FormatInt(n)) == if -MAX_INT64 - 1 <= n <= MAX_INT64 then Some(n) else None
  {
    if n < 0 {
      ParsesNegative(-n);
    } else {
      ParsesNatural(n);
    }
  }

  /** How many bytes the white space at the head of the text takes in UTF-8, none if there is none there. */
  function SpaceLength(s: string): (n: nat)
    ensures n <= |s|
  {
    if s == "" then 0
    else if s[0] == ' ' || 9 as char <= s[0] <= 13 as char then 1
    else if |s| >= 2 && s[0] == 0xC2 as char && (s[1] == 0x85 as char || s[1] == 0xA0 as char) then 2
    else if |s| >= 3 && WideSpace(s[0] as int, s[1] as int, s[2] as int) then 3
    else 0
  }

  /** U+1680, U+2000 to U+200A, U+2028, U+2029, U+202F, U+205F and U+3000 in UTF-8. */
  predicate WideSpace(first: int, second: int, third: int) {
    || (first == 0xE1 && second == 0x9A && third == 0x80)
    || (first == 0xE2 && second == 0x80 && (0x80 <= third <= 0x8A || third == 0xA8 || third == 0xA9 || third == 0xAF))
    || (first == 0xE2 && second == 0x81 && third == 0x9F)
    || (first == 0xE3 && second == 0x80 && third == 0x80)
  }

  /** Nothing is left of the text when white space is trimmed. */
  predicate Blank(s: string)
    decreases |s|
  {
    s == "" || (SpaceLength(s) > 0 && Blank(s[SpaceLength(s)..]))
  }

  predicate TraceSegment(s: string, from: nat, to: nat)
    requires from <= to <= |s|
  {
    (forall i :: from <= i < to ==> LowerHex(s[i])) && exists i :: from <= i < to && s[i] != '0'
  }

  predicate ValidTraceparent(s: string) {
    && |s| == 55 && s[0] == '0' && s[1] == '0' && s[2] == '-' && s[35] == '-' && s[52] == '-'
    && TraceSegment(s, 3, 35) && TraceSegment(s, 36, 52) && LowerHex(s[53]) && LowerHex(s[54])
  }

  predicate HexId(s: string, length: nat) {
    |s| == length && (forall c :: c in s ==> LowerHex(c)) && exists c :: c in s && c != '0'
  }

  /** A trace context is version zero, a trace of 32 and a parent of 16 hexadecimal digits, neither all zero, and two digits of flags. */
  lemma TraceparentParts(s: string)
    ensures ValidTraceparent(s) <==>
              exists trace, parent, flags ::
                && s == "00-" + trace + "-" + parent + "-" + flags
                && HexId(trace, 32) && HexId(parent, 16) && |flags| == 2 && LowerHex(flags[0]) && LowerHex(flags[1])
  {
    if ValidTraceparent(s) {
      var trace, parent, flags := s[3..35], s[36..52], s[53..];
      assert s == "00-" + trace + "-" + parent + "-" + flags;
      var i :| 3 <= i < 35 && s[i] != '0';
      assert trace[i - 3] in trace;
      var j :| 36 <= j < 52 && s[j] != '0';
      assert parent[j - 36] in parent;
      assert HexId(trace, 32) && HexId(parent, 16);
    }
    if trace, parent, flags :|
      && s == "00-" + trace + "-" + parent + "-" + flags
      && HexId(trace, 32) && HexId(parent, 16) && |flags| == 2 && LowerHex(flags[0]) && LowerHex(flags[1])
    {
      PartsAreTraceparent(s, trace, parent, flags);
    }
  }

  lemma PartsAreTraceparent(s: string, trace: string, parent: string, flags: string)
    requires s == "00-" + trace + "-" + parent + "-" + flags
    requires HexId(trace, 32) && HexId(parent, 16) && |flags| == 2 && LowerHex(flags[0]) && LowerHex(flags[1])
    ensures ValidTraceparent(s)
  {
    assert s[3..35] == trace && s[36..52] == parent && s[53..] == flags;
    forall i | 3 <= i < 35 ensures LowerHex(s[i]) { assert s[i] == trace[i - 3]; }
    forall i | 36 <= i < 52 ensures LowerHex(s[i]) { assert s[i] == parent[i - 36]; }
    var i :| 0 <= i < 32 && trace[i] != '0';
    assert s[i + 3] == trace[i];
    var j :| 0 <= j < 16 && parent[j] != '0';
    assert s[j + 36] == parent[j];
  }

  // ---------- decoding ----------

  function Required(fields: Fields, key: FieldName): Option<string> {
    if key in fields && !Blank(fields[key]) then Some(fields[key]) else None
  }

  /** The canonical text of a positive 64-bit number. */
  predicate CanonicalId(s: string) {
    ParseInt(s).Some? && ParseInt(s).value >= 1 && FormatInt(ParseInt(s).value) == s
  }

  function DecodeTexts(text: Text, schema: string, id: string, aggregate: string, version: string, eventType: string, occurred: string,
                       payload: string, trace: string): Option<Envelope>
  {
    var schemaNumber, versionNumber, time := ParseInt(schema), ParseInt(version), text.parseTime(occurred);
    if schemaNumber != Some(1) || !CanonicalId(id) || versionNumber.None? || versionNumber.value < 0 || time.None?
       || !text.validJson(payload) || (trace != "" && !ValidTraceparent(trace))
    then None
    else Some(Envelope(1, id, aggregate, versionNumber.value, eventType, time.value, payload, trace))
  }

  function Decode(text: Text, fields: Fields): Option<Envelope> {
    var schema, id, aggregate := Required(fields, SchemaVersion), Required(fields, EventId), Required(fields, AggregateId);
    var version, eventType := Required(fields, AggregateVersion), Required(fields, EventType);
    var occurred, payload := Required(fields, OccurredAt), Required(fields, PayloadField);
    if schema.None? || id.None? || aggregate.None? || version.None? || eventType.None? || occurred.None? || payload.None? then None
    else DecodeTexts(text, schema.value, id.value, aggregate.value, version.value, eventType.value, occurred.value, payload.value,
                     if TraceparentField in fields then fields[TraceparentField] else "")
  }

  // ---------- the round trip ----------

  predicate TimeReadable(text: Text, t: int) {
    !Blank(text.formatTime(t)) && text.parseTime(text.formatTime(t)) == Some(t)
  }

  predicate Deliverable(text: Text, e: Envelope) {
    && e.schemaVersion == 1 && CanonicalId(e.eventId) && !Blank(e.aggregateId) && 0 <= e.aggregateVersion <= MAX_INT64
    && !Blank(e.eventType) && !Blank(text.formatTime(e.occurredAt)) && text.parseTime(text.formatTime(e.occurredAt)).Some?
    && !Blank(e.payload) && text.validJson(e.payload) && (e.traceparent != "" ==> ValidTraceparent(e.traceparent))
  }

  lemma CanonicalIsNotBlank(n: int)
    ensures !Blank(FormatInt(n))
  {
    DecimalRoundTrip(if n < 0 then -n else n);
    if n >= 0 {
      assert FormatInt(n)[0] in FormatInt(n);
    }
  }

  lemma CanonicalIdIsNotBlank(s: string)
    requires CanonicalId(s)
    ensures !Blank(s)
  {
    CanonicalIsNotBlank(ParseInt(s).value);
  }

  lemma SchemaRead(n: int)
    ensures ParseInt(FormatInt(n)) == Some(1) <==> n == 1
  {
    ParseIntReadsFormatInt(n);
  }

  /** What comes back of an envelope: everything but its time, which is what its text reads as. */
  function ReadBack(text: Text, e: Envelope): Option<Envelope> {
    if Deliverable(text, e) then Some(e.(occurredAt := text.parseTime(text.formatTime(e.occurredAt)).value)) else None
  }

  lemma TextsRoundTrip(text: Text, e: Envelope)
    requires !Blank(e.aggregateId) && !Blank(e.eventType) && !Blank(text.formatTime(e.occurredAt)) && !Blank(e.payload)
    ensures DecodeTexts(text, FormatInt(e.schemaVersion), e.eventId, e.aggregateId, FormatInt(e.aggregateVersion), e.eventType,
                        text.formatTime(e.occurredAt), e.payload, e.traceparent)
            == ReadBack(text, e)
  {
    SchemaRead(e.schemaVersion);
    ParseIntReadsFormatInt(e.aggregateVersion);
  }

  lemma FieldsReadBack(text: Text, e: Envelope)
    ensures var f := FieldsOf(text, e);
            && f.Keys == {SchemaVersion, EventId, AggregateId, AggregateVersion, EventType, OccurredAt, PayloadField, TraceparentField}
            && f[SchemaVersion] == FormatInt(e.schemaVersion) && f[EventId] == e.eventId && f[AggregateId] == e.aggregateId
            && f[AggregateVersion] == FormatInt(e.aggregateVersion) && f[EventType] == e.eventType
            && f[OccurredAt] == text.formatTime(e.occurredAt) && f[PayloadField] == e.payload && f[TraceparentField] == e.traceparent
  {
  }

  /** An envelope survives the stream exactly when it is deliverable, its time as its text reads; anything else does not decode at all. */
  lemma EnvelopeRoundTrip(text: Text, e: Envelope)
    ensures Decode(text, FieldsOf(text, e)) == ReadBack(text, e)
  {
    FieldsReadBack(text, e);
    CanonicalIsNotBlank(e.schemaVersion);
    CanonicalIsNotBlank(e.aggregateVersion);
    if CanonicalId(e.eventId) {
      CanonicalIdIsNotBlank(e.eventId);
    }
    if !Blank(e.aggregateId) && !Blank(e.eventType) && !Blank(text.formatTime(e.occurredAt)) && !Blank(e.payload) {
      TextsRoundTrip(text, e);
    }
  }

  /** Exactly which outbox rows their consumers read back as they were written. */
  lemma RowRoundTrip(text: Text, id: int, data: EventData)
    ensures var e := NewEnvelope(id, data);
            Decode(text, FieldsOf(text, e)) == Some(e)
            <==> (&& 1 <= id <= MAX_INT64 && !Blank(data.aggregateId) && !Blank(data.eventType) && TimeReadable(text, data.createdAt)
                  && !Blank(data.payload) && text.validJson(data.payload)
                  && (data.version.Some? ==> 0 <= data.version.value <= MAX_INT64)
                  && (data.traceparent.Some? && data.traceparent.value != "" ==> ValidTraceparent(data.traceparent.value)))
  {
    var e := NewEnvelope(id, data);
    EnvelopeRoundTrip(text, e);
    ParseIntReadsFormatInt(id);
  }

  lemma UuidIsNotBlank(s: string)
    requires ValidUUID(s)
    ensures !Blank(s)
  {
    assert LowerHex(s[0]);
  }

  /** A row written before versions and traces were recorded is read back, its payload being what an event without one is stored with. */
  lemma LegacyRowIsRead(text: Text, id: int, aggregate: string, eventType: string, createdAt: int)
    requires 1 <= id <= MAX_INT64 && ValidUUID(aggregate) && !Blank(eventType) && TimeReadable(text, createdAt) && text.validJson("{}")
    ensures var e := NewEnvelope(id, EventData(aggregate, None, eventType, createdAt, "{}", None));
            Decode(text, FieldsOf(text, e)) == Some(e) && e.aggregateVersion == 0 && e.traceparent == ""
  {
    UuidIsNotBlank(aggregate);
    assert SpaceLength("{}") == 0;
    RowRoundTrip(text, id, EventData(aggregate, None, eventType, createdAt, "{}", None));
  }

  /** A vertical tab as event type is a text the column admits, though no writer here uses it, and no consumer reads it. */
  lemma BlankTypeIsNotRead(text: Text, id: int, data: EventData)
    requires data.eventType == [11 as char]
    ensures Decode(text, FieldsOf(text, NewEnvelope(id, data))).None?
  {
    assert SpaceLength(data.eventType) == 1 && data.eventType[1..] == "" && Blank("");
    assert Blank(data.eventType);
    EnvelopeRoundTrip(text, NewEnvelope(id, data));
  }
}
