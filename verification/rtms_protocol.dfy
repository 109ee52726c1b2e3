/** The pure part of the RTMS session engine (rtms/server.js): the handshake
    signature, the JSON messages the client sends, and the decision each
    channel's message handler takes for one inbound message. The classes in
    module RtmsServer carry these decisions out on the registry and sockets. */
module RtmsProtocol {
  import opened JsValues
  import opened Text

  /** `crypto.createHmac('sha256', key).update(message).digest('hex')`, taken as
      an uninterpreted function of the key and the message. */
  type Hmac = (string, string) -> string

  /** What the signature depends on: `CLIENT_ID`, `CLIENT_SECRET` and the HMAC. */
  datatype Credentials = Credentials(clientId: Option<string>, secret: string, hmac: Hmac)

  /** The string that is signed: `${CLIENT_ID},${engagementId},${rtmsStreamId}`. */
  function SignatureMessage(clientId: Option<string>, engagementId: string, rtmsStreamId: string): string
  {
    Render(clientId) + "," + engagementId + "," + rtmsStreamId
  }

  /** `generateSignature(engagementId, rtmsStreamId)`: the HMAC, keyed by
      `CLIENT_SECRET`, of the one string whose comma-separated fields are
      `CLIENT_ID` (or "undefined"), the engagement id and the stream id. */
  function Signature(cred: Credentials, engagementId: string, rtmsStreamId: string): (sig: string)
    ensures forall m | Fields3(m, Render(cred.clientId), engagementId, rtmsStreamId, ',') ::
      sig == cred.hmac(cred.secret, m)
  {
    Fields3Join(Render(cred.clientId), engagementId, rtmsStreamId, ',');
    cred.hmac(cred.secret, SignatureMessage(cred.clientId, engagementId, rtmsStreamId))
  }

  /** Two signed messages for the same client agree exactly when the engagement
      and stream ids agree, provided the engagement ids hold no comma: a stale or
      different stream id is always signed as a different message. */
  lemma {:induction false} SignatureMessageInjective(clientId: Option<string>, e1: string, s1: string, e2: string, s2: string)
    requires ',' !in e1 && ',' !in e2
    ensures SignatureMessage(clientId, e1, s1) == SignatureMessage(clientId, e2, s2) <==> e1 == e2 && s1 == s2
  {
    var p := Render(clientId) + ",";
    var t1, t2 := e1 + "," + s1, e2 + "," + s2;
    assert SignatureMessage(clientId, e1, s1) == p + t1;
    assert SignatureMessage(clientId, e2, s2) == p + t2;
    if p + t1 == p + t2 {
      assert t1 == (p + t1)[|p|..] == (p + t2)[|p|..] == t2;
      SplitUnique(e1, s1, e2, s2, ',');
    }
  }

  /** `media_params.audio` of the media handshake. */
  datatype AudioParams = AudioParams(contentType: int, sampleRate: int, channel: int, codec: int, dataOpt: int, sendRate: int)

  /** Raw audio (2), 16 kHz (1), mono (1), L16 (1), mixed stream (1), every 20 ms. */
  const RequestedAudio := AudioParams(2, 1, 1, 1, 1, 20)

  /** The JSON messages the client sends. */
  datatype Msg =
    | SignalingHandshake(protocolVersion: int, engagementId: string, rtmsStreamId: string, sequence: int, signature: string)
    | MediaHandshake(protocolVersion: int, engagementId: string, rtmsStreamId: string, signature: string,
                     mediaType: int, payloadEncryption: bool, audio: AudioParams)
    | ClientReadyAck(rtmsStreamId: string)
    | KeepAliveResponse(timestamp: Option<int>)
  {
    /** The `msg_type` field each message carries. */
    function MsgType(): int
    {
      match this
      case SignalingHandshake(_, _, _, _, _) => 1
      case MediaHandshake(_, _, _, _, _, _, _) => 3
      case ClientReadyAck(_) => 7
      case KeepAliveResponse(_) => 13
    }
  }

  /** The handshake sent when the signaling socket opens. */
  function SignalingHello(cred: Credentials, engagementId: string, rtmsStreamId: string): (h: Msg)
    ensures h.SignalingHandshake? && h.MsgType() == 1 && h.protocolVersion == 1 && h.sequence == 0
    ensures h.engagementId == engagementId && h.rtmsStreamId == rtmsStreamId
    ensures h.signature == Signature(cred, engagementId, rtmsStreamId)
  {
    SignalingHandshake(1, engagementId, rtmsStreamId, 0, Signature(cred, engagementId, rtmsStreamId))
  }

  /** The handshake sent when the media socket opens: audio only (1), unencrypted. */
  function MediaHello(cred: Credentials, engagementId: string, rtmsStreamId: string): (h: Msg)
    ensures h.MediaHandshake? && h.MsgType() == 3 && h.protocolVersion == 1
    ensures h.mediaType == 1 && !h.payloadEncryption && h.audio == RequestedAudio
    ensures h.engagementId == engagementId && h.rtmsStreamId == rtmsStreamId
    ensures h.signature == Signature(cred, engagementId, rtmsStreamId)
  {
    MediaHandshake(1, engagementId, rtmsStreamId, Signature(cred, engagementId, rtmsStreamId), 1, false, RequestedAudio)
  }

  /** Both handshakes of a session are signed alike, over `CLIENT_ID,engagementId,rtmsStreamId`;
      the signaling one is type 1, version 1, sequence 0, the media one type 3, version 1. */
  lemma HandshakesShareSignature(cred: Credentials, engagementId: string, rtmsStreamId: string)
    ensures SignalingHello(cred, engagementId, rtmsStreamId).signature
         == MediaHello(cred, engagementId, rtmsStreamId).signature
         == cred.hmac(cred.secret, Render(cred.clientId) + "," + engagementId + "," + rtmsStreamId)
    ensures var h := SignalingHello(cred, engagementId, rtmsStreamId);
      h.MsgType() == 1 && h.protocolVersion == 1 && h.sequence == 0
      && h.engagementId == engagementId && h.rtmsStreamId == rtmsStreamId
    ensures var h := MediaHello(cred, engagementId, rtmsStreamId);
      h.MsgType() == 3 && h.protocolVersion == 1 && h.mediaType == 1 && !h.payloadEncryption
      && h.engagementId == engagementId && h.rtmsStreamId == rtmsStreamId && h.audio == RequestedAudio
  {
  }

  /** The fields of an inbound message (`JSON.parse(data)`) the handlers look at.
      A field that is absent or not a number is `None` and matches no `===` test. */
  datatype Inbound = Inbound(
    msgType: Option<int>,
    statusCode: Option<int>,
    audioUrl: Option<string>,   // media_server.server_urls.audio
    allUrl: Option<string>,     // media_server.server_urls.all
    timestamp: Option<int>)

  /** What the signaling message handler does with one message. */
  datatype SignalingEffect = SignalingEffect(reply: seq<Msg>, openMedia: Option<string>)

  /** The signaling channel's reaction: a successful handshake response (type 2,
      status 0) opens the media socket at the audio URL, else at the `all` URL,
      if either is set; a keep-alive request (type 12) is echoed with its
      timestamp; everything else, a failed handshake included, only logs. */
  function SignalingStep(m: Inbound): (r: SignalingEffect)
    ensures m.msgType == Some(12) ==> r.reply == [KeepAliveResponse(m.timestamp)] && r.openMedia == None
    ensures m.msgType != Some(12) ==> r.reply == []
    ensures r.openMedia.Some? <==>
      m.msgType == Some(2) && m.statusCode == Some(0) && (Truthy(m.audioUrl) || Truthy(m.allUrl))
    ensures r.openMedia.Some? && Truthy(m.audioUrl) ==> r.openMedia.value == m.audioUrl.value
    ensures r.openMedia.Some? && !Truthy(m.audioUrl) ==> r.openMedia.value == m.allUrl.value
  {
    if m.msgType == Some(2) then
      var url := Or(m.audioUrl, m.allUrl);
      if m.statusCode == Some(0) && Truthy(url) then SignalingEffect([], Some(url.value))
      else SignalingEffect([], None)
    else if m.msgType == Some(12) then
      SignalingEffect([KeepAliveResponse(m.timestamp)], None)
    else
      SignalingEffect([], None)
  }

  /** A request for a status line to be posted to the backend (`sendStatusUpdate`). */
  datatype StatusUpdate = StartingConnection | RtmsStopped | ChunksReceived(count: nat)
  {
    /** The `type` argument of the update. */
    function Kind(): string
    {
      match this
      case StartingConnection => "info"
      case RtmsStopped => "success"
      case ChunksReceived(_) => "success"
    }
  }

  /** Every how many audio chunks a progress update is requested. */
  const ReportStride: nat := 50

  /** What the media message handler does with one message, given the session's
      chunk count before it. */
  datatype MediaEffect = MediaEffect(reply: seq<Msg>, toSignaling: seq<Msg>, count: nat, reports: seq<StatusUpdate>)

  /** The media channel's reaction: a successful handshake response (type 4,
      status 0) sends the client-ready acknowledgement on the signaling socket;
      a keep-alive request (type 12) is echoed on the media socket; an audio
      frame (type 14) adds one to the chunk count and requests a progress update
      when the new count is a multiple of the stride. The frame's payload is not
      stored anywhere. */
  function MediaStep(m: Inbound, count: nat, rtmsStreamId: string): (r: MediaEffect)
    ensures m.msgType == Some(12) ==>
      r.reply == [KeepAliveResponse(m.timestamp)] && r.toSignaling == [] && r.count == count && r.reports == []
    ensures m.msgType != Some(12) ==> r.reply == []
    ensures r.toSignaling != [] <==> m.msgType == Some(4) && m.statusCode == Some(0)
    ensures r.toSignaling != [] ==> r.toSignaling == [ClientReadyAck(rtmsStreamId)]
    ensures r.count == if m.msgType == Some(14) then count + 1 else count
    ensures r.reports != [] <==> m.msgType == Some(14) && r.count % ReportStride == 0
    ensures r.reports != [] ==> r.reports == [ChunksReceived(r.count)]
  {
    if m.msgType == Some(4) then
      if m.statusCode == Some(0) then MediaEffect([], [ClientReadyAck(rtmsStreamId)], count, [])
      else MediaEffect([], [], count, [])
    else if m.msgType == Some(12) then
      MediaEffect([KeepAliveResponse(m.timestamp)], [], count, [])
    else if m.msgType == Some(14) then
      var n := count + 1;
      MediaEffect([], [], n, if n % ReportStride == 0 then [ChunksReceived(n)] else [])
    else
      MediaEffect([], [], count, [])
  }

  /** The number of audio frames (type 14) in a run of media messages. */
  function Frames(ms: seq<Inbound>): nat
  {
    if ms == [] then 0 else (if ms[0].msgType == Some(14) then 1 else 0) + Frames(ms[1..])
  }

  /** A session's chunk count and the progress updates requested while the
      media handler processes the messages `ms` in arrival order. */
  datatype Progress = Progress(count: nat, reports: seq<StatusUpdate>)

  function Replay(count: nat, ms: seq<Inbound>, rtmsStreamId: string): Progress
    decreases |ms|
  {
    if ms == [] then Progress(count, [])
    else
      var r := MediaStep(ms[0], count, rtmsStreamId);
      var rest := Replay(r.count, ms[1..], rtmsStreamId);
      Progress(rest.count, r.reports + rest.reports)
  }

  /** The progress updates for the counts in (lo, hi] that are multiples of the
      stride, in increasing order. */
  function Milestones(lo: nat, hi: nat): (r: seq<StatusUpdate>)
    ensures forall i | 0 <= i < |r| ::
      r[i].ChunksReceived? && lo < r[i].count <= hi && r[i].count % ReportStride == 0
    ensures forall i, j | 0 <= i < j < |r| :: r[i].count < r[j].count
    decreases hi
  {
    if hi <= lo then []
    else Milestones(lo, hi - 1) + (if hi % ReportStride == 0 then [ChunksReceived(hi)] else [])
  }

  lemma {:induction false} MilestonesSplit(lo: nat, mid: nat, hi: nat)
    requires lo <= mid <= hi
    ensures Milestones(lo, hi) == Milestones(lo, mid) + Milestones(mid, hi)
    decreases hi
  {
    if hi > mid {
      MilestonesSplit(lo, mid, hi - 1);
    }
  }

  lemma {:induction false} MilestonesCount(lo: nat, hi: nat)
    requires lo <= hi
    ensures |Milestones(lo, hi)| == hi / ReportStride - lo / ReportStride
    decreases hi
  {
    if hi > lo {
      MilestonesCount(lo, hi - 1);
    }
  }

  /** The progress updates one media message requests are the milestones
      between the chunk counts before and after it. */
  lemma MilestonesStep(m: Inbound, c: nat, rtmsStreamId: string)
    ensures MediaStep(m, c, rtmsStreamId).reports == Milestones(c, MediaStep(m, c, rtmsStreamId).count)
  {
    var r := MediaStep(m, c, rtmsStreamId);
    if r.count == c + 1 {
      assert Milestones(c, c + 1) == Milestones(c, c) + (if (c + 1) % ReportStride == 0 then [ChunksReceived(c + 1)] else []);
    }
  }

  /** Replaying media messages from chunk count `c`: the count grows by exactly
      the number of audio frames, and the progress updates requested are
      exactly one per multiple of the stride crossed, in order. */
  lemma {:induction false} ReplayProgress(c: nat, ms: seq<Inbound>, rtmsStreamId: string)
    ensures Replay(c, ms, rtmsStreamId).count == c + Frames(ms)
    ensures Replay(c, ms, rtmsStreamId).reports == Milestones(c, c + Frames(ms))
    decreases |ms|
  {
    if ms != [] {
      var r := MediaStep(ms[0], c, rtmsStreamId);
      var rest := Replay(r.count, ms[1..], rtmsStreamId);
      assert Replay(c, ms, rtmsStreamId) == Progress(rest.count, r.reports + rest.reports);
      assert r.count + Frames(ms[1..]) == c + Frames(ms);
      ReplayProgress(r.count, ms[1..], rtmsStreamId);
      MilestonesStep(ms[0], c, rtmsStreamId);
      MilestonesSplit(c, r.count, c + Frames(ms));
    }
  }

  /** A session that receives N audio frames from its start counts exactly N
      chunks and requests exactly N / 50 progress updates. */
  lemma AudioFramesCounted(ms: seq<Inbound>, rtmsStreamId: string)
    ensures Replay(0, ms, rtmsStreamId).count == Frames(ms)
    ensures |Replay(0, ms, rtmsStreamId).reports| == Frames(ms) / ReportStride
  {
    ReplayProgress(0, ms, rtmsStreamId);
    MilestonesCount(0, Frames(ms));
  }
}
