/** The canonical payload of a creation request, its fingerprint, and the fallback deduplication hash. */
module Idempotency {
  import opened Common
  import opened Envelopes
  import opened Audience
  import opened Texts
  import opened Windows

  datatype Severity = Info | Warning | Error | Critical

  datatype Request = Request(message: string, severity: Severity, audience: Selection, channels: seq<Channel>)

  predicate DistinctChannels(channels: seq<Channel>) {
    forall i, j :: 0 <= i < j < |channels| ==> channels[i] != channels[j]
  }

  predicate ValidRequest(r: Request) {
    Exact(r.message) && Audience.Valid(r.audience) && r.channels != [] && DistinctChannels(r.channels)
  }

  function SeverityName(s: Severity): string {
    match s
    case Info => "info"
    case Warning => "warning"
    case Error => "error"
    case Critical => "critical"
  }

  function Count(channels: seq<Channel>, c: Channel): nat {
    if channels == [] then 0
    else Count(channels[..|channels| - 1], c) + if channels[|channels| - 1] == c then 1 else 0
  }

  /** `sorted(channel.value for channel in channels)`: "email" comes before "web". */
  function SortedNames(channels: seq<Channel>): seq<Json> {
    seq(Count(channels, Email), i => JText(Plain("email"))) + seq(Count(channels, Web), i => JText(Plain("web")))
  }

  function LabelsJson(labels: map<string, string>): Json {
    JObject(map k | k in labels :: JText(Plain(labels[k])))
  }

  function AudienceJson(a: Selection): Json
    requires Audience.Valid(a)
  {
    match Store(a)
    case StoredAll => JObject(map["type" := JText(Plain("all"))])
    case StoredGroup(group) => JObject(map["group" := JText(Plain(group)), "type" := JText(Plain("group"))])
    case StoredLabels(labels) => JObject(map["labels" := LabelsJson(labels), "type" := JText(Plain("labels"))])
  }

  function CreationPayload(r: Request): map<string, Json>
    requires ValidRequest(r)
  {
    map[
      "audience" := AudienceJson(r.audience),
      "channels" := JArray(SortedNames(r.channels)),
      "message" := JText(Plain(r.message)),
      "severity" := JText(Plain(SeverityName(r.severity)))
    ]
  }

  function Fingerprint(hash: Json -> string, r: Request): string
    requires ValidRequest(r)
  {
    hash(JObject(CreationPayload(r)))
  }

  function FallbackPayload(r: Request, source: string, windowStart: Time): map<string, Json>
    requires ValidRequest(r)
  {
    CreationPayload(r)["source_service" := JText(Plain(source))]
      ["deduplication_window_start" := JText(InstantText(Timestamp(windowStart, Some(0))))]
  }

  /** The window must be a positive whole number of seconds, or the request is refused. */
  function FallbackHash(hash: Json -> string, r: Request, source: string, now: Time,
          window: Time): Result<string, string>
    requires ValidRequest(r)
  {
    if !ValidWindow(window) then Err("window must be a positive whole-second duration")
    else Ok(hash(JObject(FallbackPayload(r, source, WindowStart(now, window)))))
  }

  /** Which requests there are: an exact message, an audience, and one or both channels in some order. */
  lemma ValidRequestIff(r: Request)
    ensures ValidRequest(r) <==>
            && r.message != "" && Trim(r.message) == r.message && Audience.Valid(r.audience)
            && (r.channels == [Web] || r.channels == [Email] || r.channels == [Web, Email]
                || r.channels == [Email, Web])
  {
    ExactIffTrimmed(r.message);
    OneOrTwo(r.channels);
  }

  lemma OneOrTwo(channels: seq<Channel>)
    ensures channels != [] && DistinctChannels(channels) <==>
            channels == [Web] || channels == [Email] || channels == [Web, Email] || channels == [Email, Web]
  {
    if |channels| == 1 {
      assert channels == if channels[0].Web? then [Web] else [Email];
    } else if |channels| == 2 && channels[0] != channels[1] {
      assert channels == if channels[0].Web? then [Web, Email] else [Email, Web];
    } else if |channels| >= 3 {
      assert channels[0] == channels[1] || channels[0] == channels[2] || channels[1] == channels[2];
    }
  }

  // ----- what is hashed --------------------------------------------------------------------------

  /** The canonical payload: the four fields by name, the channels in alphabetical order, each once. */
  lemma PayloadSays(r: Request)
    requires ValidRequest(r)
    ensures var p, email, web := CreationPayload(r), JText(Plain("email")), JText(Plain("web"));
            && p.Keys == {"audience", "channels", "message", "severity"}
            && p["message"] == JText(Plain(r.message))
            && (p["severity"] == JText(Plain("info")) <==> r.severity == Info)
            && (p["severity"] == JText(Plain("warning")) <==> r.severity == Warning)
            && (p["severity"] == JText(Plain("error")) <==> r.severity == Error)
            && (p["severity"] == JText(Plain("critical")) <==> r.severity == Critical)
            && p["channels"]
               == JArray((if Email in r.channels then [email] else []) + (if Web in r.channels then [web] else []))
  {
    CountMeans(r.channels, Email);
    CountMeans(r.channels, Web);
    SeverityNamesDiffer();
  }

  lemma SeverityNamesDiffer()
    ensures "info"[0] != "warning"[0] && "info"[0] != "error"[0] && "info"[0] != "critical"[0]
    ensures "warning"[0] != "error"[0] && "warning"[0] != "critical"[0] && "error"[0] != "critical"[0]
  {
  }

  /** The canonical audience: its type, and the group or the labels if it has them. */
  lemma AudienceSays(a: Selection)
    requires Audience.Valid(a)
    ensures AudienceJson(a).JObject?
    ensures var p := AudienceJson(a).fields;
            && (a.kind == AllType ==> p == map["type" := JText(Plain("all"))])
            && (a.kind == GroupType ==>
                  p == map["type" := JText(Plain("group")), "group" := JText(Plain(a.group.value))])
            && (a.kind == LabelsType ==>
                  && p.Keys == {"type", "labels"} && p["type"] == JText(Plain("labels")) && p["labels"].JObject?
                  && (forall k, v ::
                        (k, v) in a.labels.value <==>
                        k in p["labels"].fields && p["labels"].fields[k] == JText(Plain(v)))
                  && |p["labels"].fields| == |a.labels.value|)
  {
    if a.kind == LabelsType {
      var labels := a.labels.value;
      DictHas(labels);
      var fields := AudienceJson(a).fields["labels"].fields;
      assert fields.Keys == Dict(labels).Keys;
      assert |fields| == |fields.Keys| == |Dict(labels)|;
    }
  }

  /** A fallback hash covers the same payload with the source and the window's start. */
  lemma FallbackSays(r: Request, source: string, start: Time)
    requires ValidRequest(r)
    ensures var p, q := CreationPayload(r), FallbackPayload(r, source, start);
            && q.Keys == p.Keys + {"source_service", "deduplication_window_start"}
            && (forall k :: k in p ==> q[k] == p[k])
            && q["source_service"] == JText(Plain(source))
            && q["deduplication_window_start"] == JText(InstantText(Timestamp(start, Some(0))))
  {
  }

  /** It is refused exactly for a window that is not a positive whole number of seconds. */
  lemma RefusedIff(hash: Json -> string, r: Request, source: string, now: Time, window: Time)
    requires ValidRequest(r)
    ensures var h := FallbackHash(hash, r, source, now, window);
            && (h.Err? <==> window <= 0 || window != window / SECOND * SECOND)
            && (h.Err? ==> h.error == "window must be a positive whole-second duration")
  {
  }

  // ----- exactness -------------------------------------------------------------------------------

  ghost predicate Injective(hash: Json -> string) {
    forall a, b :: hash(a) == hash(b) ==> a == b
  }

  /** There are such hashes: every JSON value has a text that determines it. */
  lemma SomeHashIsInjective()
    ensures exists hash: Json -> string :: Injective(hash)
  {
    var hash := j => Show(j);
    forall a, b | hash(a) == hash(b) ensures a == b { ShowInjective(a, b); }
    assert Injective(hash);
  }

  /** The same audience: labels compared as a set of pairs. */
  ghost predicate SameAudience(a: Selection, b: Selection) {
    && a.kind == b.kind && a.group == b.group
    && (a.labels.Some? && b.labels.Some? ==> forall l :: l in a.labels.value <==> l in b.labels.value)
  }

  ghost predicate SameRequest(r: Request, q: Request) {
    && r.message == q.message && r.severity == q.severity && SameAudience(r.audience, q.audience)
    && forall c :: c in r.channels <==> c in q.channels
  }

  lemma {:induction false} CountMeans(channels: seq<Channel>, c: Channel)
    requires DistinctChannels(channels)
    ensures Count(channels, c) == if c in channels then 1 else 0
  {
    if channels != [] {
      var n := |channels| - 1;
      CountMeans(channels[..n], c);
      assert channels == channels[..n] + [channels[n]];
    }
  }

  lemma ChannelsExact(a: seq<Channel>, b: seq<Channel>)
    requires DistinctChannels(a) && DistinctChannels(b)
    ensures SortedNames(a) == SortedNames(b) <==> forall c :: c in a <==> c in b
  {
    CountMeans(a, Email);
    CountMeans(a, Web);
    CountMeans(b, Email);
    CountMeans(b, Web);
    var e, w := JText(Plain("email")), JText(Plain("web"));
    assert "email"[0] != "web"[0];
    assert e != w;
    assert SortedNames(a) == SortedNames(b) ==>
             (e in SortedNames(a) <==> e in SortedNames(b)) && (w in SortedNames(a) <==> w in SortedNames(b));
    assert e in SortedNames(a) <==> Email in a by { NamesHave(a); }
    assert e in SortedNames(b) <==> Email in b by { NamesHave(b); }
    assert w in SortedNames(a) <==> Web in a by { NamesHave(a); }
    assert w in SortedNames(b) <==> Web in b by { NamesHave(b); }
    assert forall c: Channel :: c in a <==> (c.Web? && Web in a) || (c.Email? && Email in a);
  }

  lemma NamesHave(channels: seq<Channel>)
    requires DistinctChannels(channels)
    ensures JText(Plain("email")) in SortedNames(channels) <==> Email in channels
    ensures JText(Plain("web")) in SortedNames(channels) <==> Web in channels
  {
    CountMeans(channels, Email);
    CountMeans(channels, Web);
    assert "email"[0] != "web"[0];
    var s := SortedNames(channels);
    if Email in channels { assert s[0] == JText(Plain("email")); }
    if Web in channels { assert s[|s| - 1] == JText(Plain("web")); }
  }

  lemma LabelsJsonExact(a: map<string, string>, b: map<string, string>)
    requires LabelsJson(a) == LabelsJson(b)
    ensures a == b
  {
    var fa, fb := LabelsJson(a).fields, LabelsJson(b).fields;
    assert fa == fb;
    assert fa.Keys == a.Keys && fb.Keys == b.Keys;
    forall k | k in a ensures k in b && a[k] == b[k] {
      assert k in fa && k in fb && fa[k] == JText(Plain(a[k])) && fb[k] == JText(Plain(b[k]));
    }
  }

  lemma AudienceExact(a: Selection, b: Selection)
    requires Audience.Valid(a) && Audience.Valid(b)
    ensures AudienceJson(a) == AudienceJson(b) <==> SameAudience(a, b)
  {
    var fa, fb := AudienceJson(a).fields, AudienceJson(b).fields;
    TypeNames();
    assert fa["type"] == JText(Plain(TypeName(a.kind))) && fb["type"] == JText(Plain(TypeName(b.kind)));
    if a.kind == b.kind {
      match a.kind
      case AllType =>
      case GroupType => assert fa["group"] == JText(Plain(a.group.value)) && fb["group"] == JText(Plain(b.group.value));
      case LabelsType =>
        var la, lb := a.labels.value, b.labels.value;
        assert fa["labels"] == LabelsJson(Dict(la)) && fb["labels"] == LabelsJson(Dict(lb));
        DictsSame(la, lb);
        if AudienceJson(a) == AudienceJson(b) { LabelsJsonExact(Dict(la), Dict(lb)); }
    }
  }

  function TypeName(k: AudienceType): string {
    match k
    case AllType => "all"
    case GroupType => "group"
    case LabelsType => "labels"
  }

  lemma TypeNames()
    ensures forall k, j :: TypeName(k) == TypeName(j) ==> k == j
  {
  }

  lemma DictsSame(a: seq<Label>, b: seq<Label>)
    requires DistinctKeys(a) && DistinctKeys(b)
    ensures Dict(a) == Dict(b) <==> forall l :: l in a <==> l in b
  {
    DictHas(a);
    DictHas(b);
    if Dict(a) == Dict(b) {
      forall l: Label ensures l in a <==> l in b { assert l == (l.0, l.1); }
    }
    if forall l :: l in a <==> l in b {
      DictKeys(a);
      DictKeys(b);
      forall k | k in Dict(a) ensures k in Dict(b) && Dict(a)[k] == Dict(b)[k] { assert (k, Dict(a)[k]) in a; }
      forall k | k in Dict(b) ensures k in Dict(a) { assert (k, Dict(b)[k]) in b; }
    }
  }

  lemma SeverityNames()
    ensures forall s, t :: SeverityName(s) == SeverityName(t) ==> s == t
  {
  }

  lemma PayloadExact(r: Request, q: Request)
    requires ValidRequest(r) && ValidRequest(q)
    ensures CreationPayload(r) == CreationPayload(q) <==> SameRequest(r, q)
  {
    var a, b := CreationPayload(r), CreationPayload(q);
    AudienceExact(r.audience, q.audience);
    ChannelsExact(r.channels, q.channels);
    SeverityNames();
    assert a["audience"] == AudienceJson(r.audience) && b["audience"] == AudienceJson(q.audience);
    assert a["channels"] == JArray(SortedNames(r.channels)) && b["channels"] == JArray(SortedNames(q.channels));
    assert a["message"] == JText(Plain(r.message)) && b["message"] == JText(Plain(q.message));
    assert a["severity"] == JText(Plain(SeverityName(r.severity)))
           && b["severity"] == JText(Plain(SeverityName(q.severity)));
  }

  /** Two requests have one fingerprint exactly if message, severity, audience and channel set agree. */
  lemma FingerprintExact(hash: Json -> string, r: Request, q: Request)
    requires Injective(hash) && ValidRequest(r) && ValidRequest(q)
    ensures Fingerprint(hash, r) == Fingerprint(hash, q) <==> SameRequest(r, q)
  {
    PayloadExact(r, q);
  }

  /** Fallback hashes agree exactly for the same request from the same source in the same window. */
  lemma FallbackExact(hash: Json -> string, r: Request, source: string, now: Time, q: Request, source': string,
          now': Time, window: Time)
    requires Injective(hash) && ValidRequest(r) && ValidRequest(q) && ValidWindow(window)
    ensures FallbackHash(hash, r, source, now, window) == FallbackHash(hash, q, source', now', window)
            <==> SameRequest(r, q) && source == source' && WindowStart(now, window) == WindowStart(now', window)
  {
    var ws, ws' := WindowStart(now, window), WindowStart(now', window);
    var a, b := FallbackPayload(r, source, ws), FallbackPayload(q, source', ws');
    PayloadExact(r, q);
    assert a["source_service"] == JText(Plain(source)) && b["source_service"] == JText(Plain(source'));
    assert a["deduplication_window_start"] == JText(InstantText(Timestamp(ws, Some(0))));
    assert b["deduplication_window_start"] == JText(InstantText(Timestamp(ws', Some(0))));
    if a == b {
      var keys := {"audience", "channels", "message", "severity"};
      forall k | k in keys ensures CreationPayload(r)[k] == CreationPayload(q)[k] {
        assert a[k] == CreationPayload(r)[k] && b[k] == CreationPayload(q)[k];
      }
      assert CreationPayload(r).Keys == keys && CreationPayload(q).Keys == keys;
      assert CreationPayload(r) == CreationPayload(q);
    }
  }
}
