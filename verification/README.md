# RTMS contact-centre streaming engine — a Dafny model

This project models the part of the RTMS contact-centre integration that holds state
and makes protocol decisions:

- **The RTMS server** (`rtms/server.js`). It keeps a registry `activeEngagements` from
  engagement id to a session record. Its `POST /` webhook handler creates a record on a
  `contact_center.voice_rtms_started` event and removes it on
  `contact_center.voice_rtms_stopped`. For each engagement it opens a signaling WebSocket.
  That socket sends a signed type-1 handshake and answers keep-alives. A successful
  handshake response opens a media WebSocket. The media socket sends a signed type-3
  handshake, acknowledges a successful media handshake on the *signaling* socket (type 7),
  answers keep-alives, and counts audio frames. Every 50th frame it requests a progress
  update. On SIGINT every registered engagement is cleaned up.
- **The backend webhook relay** (`backend/server.js`). This covers the CORS origin
  decision, the `endpoint.url_validation` reply, and the forwarding of RTMS lifecycle
  webhooks. Repeats of the same webhook are suppressed for 5 seconds.
- **The RTMS control endpoint** (`backend/controllers/zoomController.js`). It validates a
  start/stop request through a fixed chain of guards, builds the contact-centre API call,
  and maps its outcome to an HTTP answer.

Files and modules:

| file | module | contents |
|---|---|---|
| `js_values.dfy` | `JsValues` | optional JSON fields, JavaScript truthiness, `a \|\| b`, template rendering of `undefined` |
| `text.dfy` | `Text` | splitting a string at the first separator (used for the injectivity lemmas) |
| `rtms_protocol.dfy` | `RtmsProtocol` | signature, outbound messages, the reaction of each channel to one inbound message, replay of a run of media messages |
| `rtms_server.dfy` | `RtmsServer` | classes `Socket`, `Engagement` (the `engagementData` record) and `Server` (registry plus handlers) |
| `webhook_relay.dfy` | `WebhookRelay` | CORS decision, URL validation, dedup key, class `Relay` (`recentWebhooks` and its expiry timers) |
| `rtms_control.dfy` | `RtmsControl` | `handleRtmsControl` as pure functions |

How the model is built:

- **Atomic handlers.** Each JavaScript callback runs to completion before another starts,
  so every handler is one method, i.e. one atomic step. The `has` check and the `set` in
  `handleRTMSStarted` therefore fall in the same step. The `{reservedAt}` placeholder is
  overwritten within that step, so it is never observable and is not a state of the model.
- **Closures as parameters.** A socket's handlers capture the engagement record, the socket
  itself and, for the media socket, the signaling socket. These closures outlive the
  registry entry, so the handler methods take those objects as parameters. They do not look
  them up in the registry.
- **Sockets.** A socket is an abstract handle. It holds the list of messages sent on it, a
  `closed` flag set by `close()`, and a `lost` flag set when its `close` or `error` event
  fires. A socket is open while neither flag is set. `ws.send` on a socket that is not open
  drops the message without an exception, as the `ws` library does when `readyState` is not
  `OPEN`. Opening a connection, and which messages arrive on it and when, is left to the
  environment.
- **HMAC.** `crypto.createHmac` is an uninterpreted function `(key, message) -> tag`,
  supplied as a value.
- **Timers.** Every `setTimeout` of the relay has the same 5000 ms delay, so the timers
  fire in the order they were set. The relay keeps the pending timers as a queue, and
  `FireTimer` fires the oldest one.
- **`axios`.** `axios.put` is an outcome supplied by the caller. The RTMS forward
  (`axios.post`) is recorded in `Relay.forwarded`. Its outcome is not an input, because the
  reply is the same either way.

The code keeps no audio or transcript files; it writes frame payloads nowhere and
only counts frames. It keeps no session-state enumeration. It does not retire a session
when a socket closes or errs, because those handlers only log. It leaves the registry entry
in place after a failed signaling handshake. None of these behaviours is added here.

## Model

| member | source | states |
|---|---|---|
| `RtmsProtocol.Signature` | rtms/server.js:36-42 | the signature is the HMAC keyed by `CLIENT_SECRET` of the one string whose comma-separated fields are `CLIENT_ID`, the engagement id and the stream id |
| `RtmsProtocol.SignalingHello` | rtms/server.js:52-59 | the signaling handshake has type 1, protocol version 1, sequence 0, the session's engagement and stream ids, and `generateSignature` of those ids |
| `RtmsProtocol.MediaHello` | rtms/server.js:101-119 | the media handshake has type 3, protocol version 1, media type 1 (audio only), no payload encryption, the fixed audio parameters, the session's ids and `generateSignature` of those ids |
| `RtmsProtocol.SignatureMessageInjective` | rtms/server.js:36-42 | if the engagement ids hold no comma, two signed strings `CLIENT_ID,engagementId,rtmsStreamId` are equal exactly when both the engagement ids and the stream ids are equal; a different stream id is always signed as a different message |
| `RtmsProtocol.HandshakesShareSignature` | rtms/server.js:52-119 | both handshakes carry the same signature, the HMAC of `CLIENT_ID,engagementId,rtmsStreamId` under the secret; the signaling one has type 1, protocol version 1, sequence 0; the media one has type 3, version 1, audio only, no payload encryption and the fixed audio parameters (raw, 16 kHz, mono, L16, mixed, 20 ms) |
| `RtmsProtocol.SignalingStep` | rtms/server.js:64-82 | a keep-alive request with timestamp T yields exactly one reply `{13, T}` and opens nothing; media is opened exactly on a type-2 response with status 0 and a truthy audio or all URL; it uses the audio URL when that one is truthy, else the all URL; a failed or URL-less response opens nothing |
| `RtmsProtocol.MediaStep` | rtms/server.js:125-155 | a keep-alive with timestamp T yields exactly one `{13, T}` on the media channel and nothing else; a client-ready ack `{7, rtms_stream_id}` goes to the signaling channel exactly on a type-4 response with status 0; a type-14 frame adds exactly 1 to the count; a progress update is requested exactly when the new count is a multiple of 50 |
| `RtmsProtocol.Milestones` | rtms/server.js:150-153 | the progress updates between two counts are chunk counts inside that range, multiples of 50, strictly increasing |
| `RtmsProtocol.ReplayProgress` | rtms/server.js:146-153 | after a run of media messages the chunk count has grown by exactly the number of audio frames in it; the updates requested are exactly the multiples of 50 crossed, in increasing order |
| `RtmsProtocol.AudioFramesCounted` | rtms/server.js:146-153 | a session that receives N audio frames from its start counts N chunks and requests exactly N / 50 progress updates |
| `RtmsServer.Server.HandleWebhook` | rtms/server.js:254-269 | the answer is always 200; a started event has the effect of `handleRTMSStarted`, a stopped event that of `handleRTMSStopped`; any other event changes nothing |
| `RtmsServer.Server.Started` | rtms/server.js:167-206 | a payload missing `engagement_id`, `rtms_stream_id` or `server_urls` changes nothing and opens no socket; an id already registered changes nothing; otherwise a status update is requested and a fresh record is registered with chunk count 0, the given stream id and a fresh unclosed signaling socket to `server_urls`, other entries unchanged; if opening the socket throws, the id is absent again |
| `RtmsServer.Server.Stopped` | rtms/server.js:209-220 | without an engagement id nothing changes; with one, a status update is requested and the id is removed, with every socket of its record closed and nothing sent on it; an unknown id only adds the status update |
| `RtmsServer.Server.Cleanup` | rtms/server.js:223-247 | an absent id changes nothing; a present id has whichever of its sockets are set closed, nothing sent on them, and is always removed; the registry stays well formed |
| `RtmsServer.Server.Shutdown` | rtms/server.js:281-287 | the loop leaves the registry empty, and every socket of every engagement that was registered closed with nothing sent on it |
| `RtmsServer.Server.SignalingOpened` | rtms/server.js:49-62 | exactly the signed type-1 handshake for the record's ids is sent on the signaling socket |
| `RtmsServer.Server.SignalingMessage` | rtms/server.js:64-82 | carries out `SignalingStep`: the reply goes on the same socket (dropped if closed), a media socket is created and stored in the record exactly when the step opens media; the registry is untouched, so a failed handshake leaves the entry in place |
| `RtmsServer.Server.MediaOpened` | rtms/server.js:98-123 | exactly the signed type-3 handshake is sent on the media socket |
| `RtmsServer.Server.MediaMessage` | rtms/server.js:125-155 | carries out `MediaStep`: the keep-alive reply goes on the media socket, the ack on the captured signaling socket, the count and the status updates follow the step; the registry and the record's sockets are untouched |
| `RtmsServer.Server.SocketLost` | rtms/server.js:84-90 | after a socket's close or error event the socket is no longer open, so later sends on it are dropped; nothing is sent, `close()` is not called, and the registry and the record stay as they are |
| `WebhookRelay.CorsOrigin` | backend/server.js:32-48 | a request without an origin is allowed; any other origin is allowed exactly when it equals `FRONTEND_URL` (default `http://localhost:3000`) or `PUBLIC_URL` (default the ngrok URL); all others are rejected with "Not allowed by CORS" |
| `WebhookRelay.UrlValidation` | backend/server.js:122-136 | without a truthy `plainToken` the answer is 400; otherwise it is 200 with `plainToken` unchanged and `encryptedToken` equal to the HMAC of the token under the secret |
| `WebhookRelay.DedupKey` | backend/server.js:150 | the key's colon-separated fields are the event name, the engagement id when it is truthy and otherwise the stream id, and `event_ts`; an absent field reads "undefined" |
| `WebhookRelay.DedupKeySeparatesEvents` | backend/server.js:141-150 | two RTMS events of different kinds never share a dedup key, whatever their ids and timestamps |
| `WebhookRelay.Relay.Receive` | backend/server.js:115-179 | validation requests get `UrlValidation`; events outside the four RTMS names get 200 `{received}` with no state change; an RTMS event whose key is remembered is not forwarded and gets `{received, duplicate}`; a first-seen key is inserted with the current time, its expiry is queued, the body is forwarded and the answer is 200; each remembered key has exactly one pending expiry |
| `WebhookRelay.Relay.FireTimer` | backend/server.js:159-164 | the oldest expiry, due no earlier than 5000 ms after its key was inserted, removes exactly that key and keeps the one-expiry-per-key invariant |
| `RtmsControl.StatusUrlRoundTrip` | backend/controllers/zoomController.js:44 | the API URL is the fixed prefix, then the engagement id, then `/rtms_app/status`, and the engagement id can be read back from it |
| `RtmsControl.Validate` | backend/controllers/zoomController.js:14-56 | a missing `engagementId` or `action` gives 400 whatever the configuration; then a missing bearer token gives 500, then a missing client id 500, then an action other than start/stop 400; a request is built exactly when all four guards pass, to the status URL with body `{action, settings: {client_id}}` and a `Bearer` header |
| `RtmsControl.HandleRtmsControl` | backend/controllers/zoomController.js:6-80 | a refused request gets its guard's answer; a successful call echoes `action` and `engagementId` with `success`; a failed one answers with the upstream status if it is non-zero, else 500; a success body appears exactly when the guards pass and the call succeeds |

## Left out

- Logging: every `console` call; the `reason` of a failed handshake is only logged.
- `sendStatusUpdate` delivery: the model records only that an update was requested, as a
  `StatusUpdate` value. For a progress update it keeps the count, not the text.
- Network plumbing: `express`, `http`, the `ws` transport, `axios`, `http-proxy-middleware`,
  static-file serving, `dotenv`, `app.listen` and `process.exit`.
- HMAC-SHA256 and hex encoding: left uninterpreted. Only the string that is signed is
  modelled.
- Clock values: `startedAt` and `reservedAt` are never read, so they are left out. The
  relay's `Date.now()` is a parameter.
- `GET /health` in both servers: it only reads the registry or the clock.
- Exceptions the code does not catch, because they would crash the callback or the process.
  These are: `JSON.parse` of a malformed frame; `new WebSocket` rejecting a media URL inside
  the signaling message handler; `createHmac` with an unset `CLIENT_SECRET`; and a
  `rtms/server.js` webhook without a `payload` object. The relay's equivalent, an RTMS event
  without a payload, is modelled as the outcome `Threw`.
- JSON values other than strings and integers: a `timestamp`, `status_code` or
  `msg_type` of another JSON type is either echoed verbatim or matches no `===` test, and
  `event_ts` is modelled as the text it renders to. The identifier and text fields are
  modelled as strings only: `engagement_id`, `rtms_stream_id`, `server_urls` and the media
  URLs in `rtms/server.js`; `plainToken`, `engagement_id` and `rtms_stream_id` in the relay;
  and `engagementId` and `action` in the control endpoint. A number or other non-string
  there cannot be represented, for example a numeric `engagement_id` (the map key `1` differs
  from `"1"`, and `0` is falsy).
- The relay's suspension at `await axios.post`: `Relay.Receive` is one step. The key is
  inserted before the forward starts, so a duplicate that arrives while the forward is in
  flight is still suppressed, as in the code.
- Iteration order of the SIGINT loop: JavaScript visits entries in insertion order, while
  the model cleans them up in an arbitrary order. Cleanups of different ids touch disjoint
  records, and the model does not record the relative order of `close()` calls, so the
  outcome is the same.
- Frontend files (`frontend/src/App.js`, `frontend/src/components/Engagement.js`) and the
  route table `backend/routes/zoom.js` are not part of this model: they are rendering,
  polling and route mounting.
