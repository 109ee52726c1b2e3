/** The webhook relay of backend/server.js: the CORS origin decision, the
    `endpoint.url_validation` reply, and `POST /api/webhooks/zoom`, which
    forwards each RTMS lifecycle webhook to the RTMS server once, suppressing
    repeats of the same webhook for a dedup window. */
module WebhookRelay {
  import opened JsValues
  import opened Text

  /** `crypto.createHmac('sha256', key).update(message).digest('hex')`, uninterpreted. */
  type Hmac = (string, string) -> string

  const DefaultFrontendUrl := "http://localhost:3000"
  const DefaultPublicUrl := "https://uncongregative-unexpedient-detra.ngrok-free.dev"

  /** `allowedOrigins`: `FRONTEND_URL` and `PUBLIC_URL`, each with its default. */
  function AllowedOrigins(frontendUrl: Option<string>, publicUrl: Option<string>): seq<string>
  {
    [OrElse(frontendUrl, DefaultFrontendUrl), OrElse(publicUrl, DefaultPublicUrl)]
  }

  /** What the `origin` callback passes on: `callback(null, true)` or an error. */
  datatype CorsDecision = Allow | Reject(error: string)

  /** The `origin` callback: a request without an `Origin` header is allowed;
      any other is allowed exactly when its origin is one of the two allowed
      ones, and is otherwise rejected with "Not allowed by CORS". */
  function CorsOrigin(frontendUrl: Option<string>, publicUrl: Option<string>, origin: Option<string>): (d: CorsDecision)
    ensures !Truthy(origin) ==> d == Allow
    ensures Truthy(origin) ==>
      (d == Allow <==> origin.value == OrElse(frontendUrl, DefaultFrontendUrl)
                       || origin.value == OrElse(publicUrl, DefaultPublicUrl))
    ensures d != Allow ==> d == Reject("Not allowed by CORS")
  {
    if !Truthy(origin) then Allow
    else if origin.value in AllowedOrigins(frontendUrl, publicUrl) then Allow
    else Reject("Not allowed by CORS")
  }

  /** The payload fields the relay reads. */
  datatype Payload = Payload(plainToken: Option<string>, engagementId: Option<string>, rtmsStreamId: Option<string>)

  /** A webhook request body `{event, payload, event_ts}`; `eventTs` is the
      text `${event_ts}` renders to. */
  datatype Body = Body(event: string, payload: Option<Payload>, eventTs: Option<string>)

  /** The relay's answer to one request. `Threw` is the `TypeError` the handler
      raises before answering when an RTMS event comes without a payload. */
  datatype Reply =
    | MissingPlainToken
    | Validated(plainToken: string, encryptedToken: string)
    | Received(duplicate: bool)
    | Threw
  {
    /** The HTTP status of an answered request. */
    function Status(): int
      requires !Threw?
    {
      if MissingPlainToken? then 400 else 200
    }
  }

  const ValidationEvent := "endpoint.url_validation"
  const DefaultSecretToken := "your-secret-token"

  /** `rtmsEvents`: the only events that are forwarded. */
  const RtmsEvents := ["contact_center.voice_rtms_started", "contact_center.voice_rtms_stopped",
                       "meeting.rtms_started", "meeting.rtms_stopped"]

  /** `WEBHOOK_DEDUP_WINDOW_MS`: how long a webhook's key is remembered. */
  const DedupWindowMs := 5000

  /** The `endpoint.url_validation` branch: without a `plainToken` the answer is
      400; otherwise the token comes back unchanged beside its HMAC under the
      secret token. */
  function UrlValidation(secret: string, hmac: Hmac, payload: Option<Payload>): (r: Reply)
    ensures r.MissingPlainToken? <==> !(payload.Some? && Truthy(payload.value.plainToken))
    ensures !r.MissingPlainToken? ==>
      var t := payload.value.plainToken.value;
      r == Validated(t, hmac(secret, t)) && r.Status() == 200
    ensures r.MissingPlainToken? ==> r.Status() == 400
  {
    if payload.None? || !Truthy(payload.value.plainToken) then MissingPlainToken
    else
      var t := payload.value.plainToken.value;
      Validated(t, hmac(secret, t))
  }

  /** `webhookSignature`: `${event}:${engagement_id || rtms_stream_id}:${event_ts}`.
      The key's colon-separated fields are the event name, the engagement id
      if it is truthy and otherwise the stream id, and the event timestamp; an
      absent one reads "undefined". */
  function DedupKey(event: string, p: Payload, eventTs: Option<string>): (k: string)
    ensures Fields3(k, event, Render(Or(p.engagementId, p.rtmsStreamId)), Render(eventTs), ':')
    ensures Truthy(p.engagementId) ==> Fields3(k, event, p.engagementId.value, Render(eventTs), ':')
    ensures !Truthy(p.engagementId) ==> Fields3(k, event, Render(p.rtmsStreamId), Render(eventTs), ':')
  {
    Fields3Join(event, Render(Or(p.engagementId, p.rtmsStreamId)), Render(eventTs), ':');
    event + ":" + Render(Or(p.engagementId, p.rtmsStreamId)) + ":" + Render(eventTs)
  }

  /** None of the four RTMS event names holds a colon. */
  lemma NoColonInRtmsEvents(e: string)
    requires e in RtmsEvents
    ensures ':' !in e
  {
  }

  /** A dedup key starts with its colon-free event name. */
  lemma {:induction false} DedupKeyEvent(e1: string, p1: Payload, ts1: Option<string>, e2: string, p2: Payload, ts2: Option<string>)
    requires ':' !in e1 && ':' !in e2
    requires DedupKey(e1, p1, ts1) == DedupKey(e2, p2, ts2)
    ensures e1 == e2
  {
    var k := DedupKey(e1, p1, ts1);
    HeadUnique(k, e1, e2, ':');
  }

  /** The dedup key keeps the RTMS event kinds apart: a `started` webhook never
      suppresses a `stopped` one, whatever the ids and timestamps. */
  lemma DedupKeySeparatesEvents(e1: string, p1: Payload, ts1: Option<string>, e2: string, p2: Payload, ts2: Option<string>)
    requires e1 in RtmsEvents && e2 in RtmsEvents
    requires DedupKey(e1, p1, ts1) == DedupKey(e2, p2, ts2)
    ensures e1 == e2
  {
    NoColonInRtmsEvents(e1);
    NoColonInRtmsEvents(e2);
    DedupKeyEvent(e1, p1, ts1, e2, p2, ts2);
  }

  /** The relay's state: `recentWebhooks`, the expiry timers still pending (all
      share one delay, so they fire in the order they were set), and the bodies
      forwarded to the RTMS server so far. */
  class Relay {
    const secret: string
    const hmac: Hmac
    /** `recentWebhooks`: key to the time it was inserted. */
    var recent: map<string, int>
    /** The keys whose `setTimeout` deletion has not run yet, in firing order. */
    var timers: seq<string>
    /** The `axios.post` calls to the RTMS server, in order. */
    var forwarded: seq<Body>

    /** Every remembered key has exactly one pending expiry and every pending
        expiry belongs to a remembered key, so no key is remembered forever. */
    ghost predicate Valid()
      reads this
    {
      && (forall k | k in recent :: k in timers)
      && (forall i | 0 <= i < |timers| :: timers[i] in recent)
      && (forall i, j | 0 <= i < j < |timers| :: timers[i] != timers[j])
    }

    constructor (secretToken: Option<string>, hmac: Hmac)
      ensures Valid() && secret == OrElse(secretToken, DefaultSecretToken) && this.hmac == hmac
      ensures recent == map[] && timers == [] && forwarded == []
    {
      secret := OrElse(secretToken, DefaultSecretToken);
      this.hmac := hmac;
      recent := map[];
      timers := [];
      forwarded := [];
    }

    /** `POST /api/webhooks/zoom` at clock reading `now`. A validation request
        gets `UrlValidation`; an event outside `rtmsEvents` gets 200
        `{received: true}`; an RTMS event whose key is remembered is not
        forwarded and gets `{received: true, duplicate: true}`; a first-seen
        key is remembered, its expiry scheduled, the body forwarded, and the
        answer is 200 `{received: true}` whether or not the forward succeeds. */
    method Receive(b: Body, now: int) returns (r: Reply)
      requires Valid()
      modifies this
      ensures Valid()
      ensures b.event == ValidationEvent ==>
        r == UrlValidation(secret, hmac, b.payload) && unchanged(this)
      ensures b.event != ValidationEvent && b.event !in RtmsEvents ==>
        r == Received(false) && unchanged(this)
      ensures b.event in RtmsEvents && b.payload.None? ==> r == Threw && unchanged(this)
      ensures b.event in RtmsEvents && b.payload.Some? ==>
        var k := DedupKey(b.event, b.payload.value, b.eventTs);
        && (k in old(recent) ==> r == Received(true) && unchanged(this))
        && (k !in old(recent) ==>
              && r == Received(false)
              && recent == old(recent)[k := now]
              && timers == old(timers) + [k]
              && forwarded == old(forwarded) + [b])
    {
      if b.event == ValidationEvent {
        return UrlValidation(secret, hmac, b.payload);
      }
      if b.event in RtmsEvents {
        if b.payload.None? {
          return Threw;
        }
        var k := DedupKey(b.event, b.payload.value, b.eventTs);
        if k in recent {
          return Received(true);
        }
        recent := recent[k := now];
        timers := timers + [k];
        forwarded := forwarded + [b];
      }
      r := Received(false);
    }

    /** The oldest pending `setTimeout` fires, no earlier than the dedup window
        after its key was inserted, and deletes exactly that key. */
    method FireTimer(now: int)
      requires Valid() && timers != [] && timers[0] in recent
      requires now >= recent[timers[0]] + DedupWindowMs
      modifies this
      ensures Valid()
      ensures recent == old(recent) - {old(timers)[0]}
      ensures timers == old(timers)[1..] && forwarded == old(forwarded)
    {
      var k := timers[0];
      recent := recent - {k};
      timers := timers[1..];
    }
  }
}
