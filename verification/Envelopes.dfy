/**
 * The Kafka envelope: what the outbox publisher writes and the notification consumer reads back.
 * JSON text, UTF-8, UUID text and ISO-8601 text are injective encodings, so each is its own constructor.
 */
module Envelopes {
  import opened Common

  /** A datetime: the wall clock and, if it is aware, its distance from UTC. */
  datatype Timestamp = Timestamp(wall: Time, offset: Option<int>)

  datatype Text = Plain(s: string) | UuidText(id: Id) | InstantText(at: Timestamp)

  /** A float is mantissa * 2^exponent. */
  datatype Json =
    | JNull
    | JBool(b: bool)
    | JInt(n: int)
    | JFloat(mantissa: int, exponent: int)
    | JText(text: Text)
    | JArray(items: seq<Json>)
    | JObject(fields: map<string, Json>)

  datatype KeyBytes = Utf8(text: Text) | NotUtf8

  datatype ValueBytes = JsonBytes(json: Json) | NotJson

  datatype Raw = Raw(key: Option<KeyBytes>, value: ValueBytes)

  /** What an outbox row says: the columns that never change after the insert. */
  datatype Event = Event(topic: string, eventType: string, aggregateId: Id, key: Text, payload: map<string, Json>,
          createdAt: Timestamp)

  datatype Message = Message(key: Text, eventId: Id, eventType: string, occurredAt: Timestamp,
          payload: map<string, Json>)

  datatype DecodeError = InvalidJson | InvalidEnvelope | UnsupportedSchemaVersion | InvalidEventId
                       | UnsupportedEventType | InvalidOccurredAt | InvalidData | InvalidKey

  const REQUESTED := "notification.requested"
  const REPLAY_REQUESTED := "notification.replay_requested"

  // ----- publisher -------------------------------------------------------------------------------

  /** A naive timestamp is taken as UTC, an aware one converted. */
  function ToUtc(t: Timestamp): Timestamp {
    match t.offset
    case None => Timestamp(t.wall, Some(0))
    case Some(d) => Timestamp(t.wall - d, Some(0))
  }

  function Envelope(eventId: Id, e: Event): map<string, Json> {
    map[
      "schema_version" := JInt(1),
      "event_id" := JText(UuidText(eventId)),
      "event_type" := JText(Plain(e.eventType)),
      "occurred_at" := JText(InstantText(ToUtc(e.createdAt))),
      "data" := JObject(e.payload)
    ]
  }

  function Encode(eventId: Id, e: Event): Raw {
    Raw(Some(Utf8(e.key)), JsonBytes(JObject(Envelope(eventId, e))))
  }

  // ----- consumer --------------------------------------------------------------------------------

  function Pow2(k: nat): nat {
    if k == 0 then 1 else 2 * Pow2(k - 1)
  }

  /** `!= 1` in Python lets true and 1.0 pass as well. */
  predicate EqualsOne(j: Json) {
    j == JInt(1) || j == JBool(true) || (j.JFloat? && j.exponent <= 0 && j.mantissa == Pow2(-j.exponent))
  }

  function Get(o: map<string, Json>, field: string): Json {
    if field in o then o[field] else JNull
  }

  function Decode(raw: Raw): Result<Message, DecodeError> {
    if raw.value.NotJson? then Err(InvalidJson)
    else if !raw.value.json.JObject? then Err(InvalidEnvelope)
    else
      var o := raw.value.json.fields;
      if !EqualsOne(Get(o, "schema_version")) then Err(UnsupportedSchemaVersion)
      else
        var id := Get(o, "event_id");
        if !id.JText? || !id.text.UuidText? then Err(InvalidEventId)
        else
          var kind := Get(o, "event_type");
          if !kind.JText? || kind.text !in {Plain(REQUESTED), Plain(REPLAY_REQUESTED)} then Err(UnsupportedEventType)
          else
            var at := Get(o, "occurred_at");
            if !at.JText? || !at.text.InstantText? || at.text.at.offset.None? then Err(InvalidOccurredAt)
            else
              var data := Get(o, "data");
              if !data.JObject? then Err(InvalidData)
              else if raw.key == Some(NotUtf8) then Err(InvalidKey)
              else
                Ok(Message(if raw.key.None? then id.text else raw.key.value.text,
                           id.text.id, kind.text.s, at.text.at, data.fields))
  }

  /** 2^k for any integer k. */
  function Exp2(k: int): real
    decreases if k < 0 then -k else k
  {
    if k == 0 then 1.0 else if k > 0 then 2.0 * Exp2(k - 1) else Exp2(k + 1) / 2.0
  }

  lemma {:induction false} PowersAgree(k: int)
    requires k >= 0
    ensures Pow2(k) >= 1 && Exp2(k) == Pow2(k) as real && Exp2(-k) * Pow2(k) as real == 1.0
  {
    if k > 0 {
      PowersAgree(k - 1);
      assert Pow2(k) as real == 2.0 * Pow2(k - 1) as real && Exp2(-k) == Exp2(1 - k) / 2.0;
      assert Exp2(1 - k) / 2.0 * (2.0 * Pow2(k - 1) as real) == Exp2(1 - k) * Pow2(k - 1) as real;
    }
  }

  /** Equal to 1 is the number one, be it an integer, a boolean or a float of that value, and nothing else. */
  lemma VersionOneMeans(j: Json)
    ensures EqualsOne(j) <==>
            j == JInt(1) || j == JBool(true) || (j.JFloat? && j.mantissa as real * Exp2(j.exponent) == 1.0)
  {
    if j.JFloat? { FloatIsOne(j.mantissa, j.exponent); }
  }

  lemma FloatIsOne(m: int, k: int)
    ensures m as real * Exp2(k) == 1.0 <==> k <= 0 && m == Pow2(-k)
  {
    if k <= 0 { FractionIsOne(m, k); } else { EvenIsNotOne(m, k); }
  }

  lemma FractionIsOne(m: int, k: int)
    requires k <= 0
    ensures m as real * Exp2(k) == 1.0 <==> m == Pow2(-k)
  {
    PowersAgree(-k);
    OnlyInverse(m as real, Pow2(-k) as real, Exp2(k));
  }

  lemma EvenIsNotOne(m: int, k: int)
    requires k > 0
    ensures m as real * Exp2(k) != 1.0
  {
    PowersAgree(k);
    var p := Pow2(k - 1);
    Products(m, 2 * p);
    assert m * (2 * p) == 2 * (m * p);
  }

  lemma Products(a: int, b: int)
    ensures a as real * b as real == (a * b) as real
  {
  }

  lemma OnlyInverse(m: real, p: real, x: real)
    requires p * x == 1.0
    ensures m * x == 1.0 <==> m == p
  {
    if m * x == 1.0 {
      calc {
        m;
        m * (p * x);
        (m * x) * p;
        p;
      }
    }
  }

  /** What a message has wrong with it, on its own bytes and fields, for each reason there is to reject one. */
  predicate HasFault(raw: Raw, e: DecodeError) {
    if raw.value.NotJson? then e == InvalidJson
    else if !raw.value.json.JObject? then e == InvalidEnvelope
    else
      var o := raw.value.json.fields;
      match e
      case InvalidJson => false
      case InvalidEnvelope => false
      case UnsupportedSchemaVersion => !("schema_version" in o && EqualsOne(o["schema_version"]))
      case InvalidEventId => !("event_id" in o && o["event_id"].JText? && o["event_id"].text.UuidText?)
      case UnsupportedEventType =>
        !("event_type" in o && (o["event_type"] == JText(Plain("notification.requested"))
                                || o["event_type"] == JText(Plain("notification.replay_requested"))))
      case InvalidOccurredAt =>
        !("occurred_at" in o && o["occurred_at"].JText? && o["occurred_at"].text.InstantText?
          && o["occurred_at"].text.at.offset.Some?)
      case InvalidData => !("data" in o && o["data"].JObject?)
      case InvalidKey => raw.key == Some(NotUtf8)
  }

  /** The order in which the consumer looks. */
  function Rank(e: DecodeError): nat {
    match e
    case InvalidJson => 0
    case InvalidEnvelope => 1
    case UnsupportedSchemaVersion => 2
    case InvalidEventId => 3
    case UnsupportedEventType => 4
    case InvalidOccurredAt => 5
    case InvalidData => 6
    case InvalidKey => 7
  }

  /** A message is accepted exactly if nothing is wrong with it, and otherwise rejected for its first fault. */
  lemma AcceptedIffFaultless(raw: Raw)
    ensures Decode(raw).Ok? <==> forall e :: !HasFault(raw, e)
    ensures Decode(raw).Err? ==>
              HasFault(raw, Decode(raw).error) && forall e :: HasFault(raw, e) ==> Rank(Decode(raw).error) <= Rank(e)
  {
    if Decode(raw).Err? { assert HasFault(raw, Decode(raw).error); }
  }

  /** Each field of an accepted message is what the envelope says, and a missing key is the event's id. */
  lemma AcceptedMeans(raw: Raw)
    requires Decode(raw).Ok?
    ensures raw.value.JsonBytes? && raw.value.json.JObject?
    ensures var o, m := raw.value.json.fields, Decode(raw).value;
            && "event_id" in o && o["event_id"] == JText(UuidText(m.eventId))
            && "event_type" in o && o["event_type"] == JText(Plain(m.eventType))
            && "occurred_at" in o && o["occurred_at"] == JText(InstantText(m.occurredAt))
            && "data" in o && o["data"] == JObject(m.payload)
            && m.key == match raw.key case None => UuidText(m.eventId) case Some(key) => key.text
  {
  }

  // ----- agreement -------------------------------------------------------------------------------

  /** The instant a timestamp stands for; SQLite hands back naive ones that mean UTC. */
  function Instant(t: Timestamp): Time { t.wall - if t.offset.Some? then t.offset.value else 0 }

  predicate Supported(e: Event) { e.eventType == REQUESTED || e.eventType == REPLAY_REQUESTED }

  /**
   * Every envelope of a supported event type decodes, to the same id, type, data and key and the same instant;
   * an envelope of any other type is rejected for that and nothing else.
   */
  lemma DecodeEncode(eventId: Id, e: Event)
    ensures Decode(Encode(eventId, e)) ==
            if Supported(e) then Ok(Message(e.key, eventId, e.eventType, ToUtc(e.createdAt), e.payload))
            else Err(UnsupportedEventType)
    ensures Instant(ToUtc(e.createdAt)) == Instant(e.createdAt)
  {
    assert Get(Envelope(eventId, e), "schema_version") == JInt(1);
    assert Get(Envelope(eventId, e), "event_id") == JText(UuidText(eventId));
    assert Get(Envelope(eventId, e), "event_type") == JText(Plain(e.eventType));
    assert Get(Envelope(eventId, e), "occurred_at") == JText(InstantText(ToUtc(e.createdAt)));
    assert Get(Envelope(eventId, e), "data") == JObject(e.payload);
  }

  /** Two rows whose messages are the same bytes have the same id, type, key and data. */
  lemma EncodeInjective(id: Id, e: Event, id': Id, e': Event)
    requires Encode(id, e) == Encode(id', e')
    ensures id == id' && e.eventType == e'.eventType && e.key == e'.key && e.payload == e'.payload
            && Instant(e.createdAt) == Instant(e'.createdAt)
  {
    var a, b := Envelope(id, e), Envelope(id', e');
    assert a == b;
    assert a["event_id"] == b["event_id"] && a["event_type"] == b["event_type"];
    assert a["occurred_at"] == b["occurred_at"] && a["data"] == b["data"];
  }

  // ----- the two kinds of event the services write ----------------------------------------------

  function RequestedEvent(notificationId: Id, sourceService: string, now: Timestamp): Event {
    Event("notifications.requests", REQUESTED, notificationId, UuidText(notificationId),
          map["notification_id" := JText(UuidText(notificationId)), "source_service" := JText(Plain(sourceService))],
              now)
  }

  function UuidTexts(ids: seq<Id>): seq<Json> {
    seq(|ids|, i requires 0 <= i < |ids| => JText(UuidText(ids[i])))
  }

  function ReplayRequestedEvent(notificationId: Id, deliveryIds: seq<Id>, replayId: Id, requestedAt: Timestamp): Event {
    Event("notifications.requests", REPLAY_REQUESTED, notificationId, UuidText(replayId),
          map["delivery_ids" := JArray(UuidTexts(deliveryIds)), "notification_id" := JText(UuidText(notificationId)),
              "replay_id" := JText(UuidText(replayId))], requestedAt)
  }

  /** The id NotificationRequestedHandler takes from a payload, when there is one. */
  function NotificationOf(payload: map<string, Json>): Option<Id> {
    var j := Get(payload, "notification_id");
    if j.JText? && j.text.UuidText? then Some(j.text.id) else None
  }

  /** Both kinds reach the handler naming the notification they are about. */
  lemma ServicesNameTheirNotification(n: Id, source: string, now: Timestamp, ids: seq<Id>, replayId: Id)
    ensures Supported(RequestedEvent(n, source, now))
            && NotificationOf(RequestedEvent(n, source, now).payload) == Some(n)
    ensures Supported(ReplayRequestedEvent(n, ids, replayId, now))
            && NotificationOf(ReplayRequestedEvent(n, ids, replayId, now).payload) == Some(n)
  {
  }

  /** What a consumer reads of a request: the event's id and time, its key, and who asked for what. */
  lemma RequestArrives(eventId: Id, n: Id, source: string, now: Timestamp)
    ensures var e := RequestedEvent(n, source, now);
            && e.topic == "notifications.requests" && e.aggregateId == n
            && Decode(Encode(eventId, e)).Ok?
            && var m := Decode(Encode(eventId, e)).value;
               && m.eventId == eventId && m.eventType == "notification.requested" && m.key == UuidText(n)
               && Instant(m.occurredAt) == Instant(now) && m.occurredAt.offset == Some(0)
               && m.payload.Keys == {"notification_id", "source_service"}
               && m.payload["notification_id"] == JText(UuidText(n))
               && m.payload["source_service"] == JText(Plain(source))
  {
    DecodeEncode(eventId, RequestedEvent(n, source, now));
  }

  /** What a consumer reads of a replay: the replay's id as its key, and the deliveries it moved, in order. */
  lemma ReplayArrives(eventId: Id, n: Id, ids: seq<Id>, replayId: Id, at: Timestamp)
    ensures var e := ReplayRequestedEvent(n, ids, replayId, at);
            && e.topic == "notifications.requests" && e.aggregateId == n
            && Decode(Encode(eventId, e)).Ok?
            && var m := Decode(Encode(eventId, e)).value;
               && m.eventId == eventId && m.eventType == "notification.replay_requested" && m.key == UuidText(replayId)
               && Instant(m.occurredAt) == Instant(at) && m.occurredAt.offset == Some(0)
               && m.payload.Keys == {"notification_id", "delivery_ids", "replay_id"}
               && m.payload["notification_id"] == JText(UuidText(n))
               && m.payload["replay_id"] == JText(UuidText(replayId))
               && m.payload["delivery_ids"].JArray? && |m.payload["delivery_ids"].items| == |ids|
               && forall i :: 0 <= i < |ids| ==> m.payload["delivery_ids"].items[i] == JText(UuidText(ids[i]))
  {
    DecodeEncode(eventId, ReplayRequestedEvent(n, ids, replayId, at));
  }

  /** The handler finds the notification exactly if the payload names it as a UUID, whatever else it says. */
  lemma NamedIff(payload: map<string, Json>, n: Id)
    ensures NotificationOf(payload) == Some(n) <==>
            "notification_id" in payload && payload["notification_id"] == JText(UuidText(n))
  {
  }
}
