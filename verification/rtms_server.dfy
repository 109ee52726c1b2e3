/** The session engine of rtms/server.js: the `activeEngagements` registry, the
    webhook handlers that fill and empty it, and the per-socket message handlers.
    Every handler runs to completion inside one JavaScript callback, so each is
    one atomic step here. Sockets are abstract handles; the environment decides
    when a socket opens and which messages arrive. */
module RtmsServer {
  import opened JsValues
  import opened RtmsProtocol

  /** A WebSocket client as the handlers use it: the messages sent on it,
      whether `close()` has been called on it, and whether the connection has
      been lost (its `close` or `error` event has fired). */
  class Socket {
    const url: string
    var sent: seq<Msg>
    var closed: bool
    var lost: bool

    constructor (url: string)
      ensures this.url == url && sent == [] && !closed && !lost
    {
      this.url := url;
      sent := [];
      closed := false;
      lost := false;
    }

    /** `readyState === OPEN`: neither closed by us nor lost. */
    predicate Open()
      reads this
    {
      !closed && !lost
    }

    /** `ws.send(JSON.stringify(m))`; on a socket that is no longer open the
        message is dropped without an exception. */
    method Send(m: Msg)
      modifies this
      ensures closed == old(closed) && lost == old(lost)
      ensures sent == if old(Open()) then old(sent) + [m] else old(sent)
    {
      if Open() {
        sent := sent + [m];
      }
    }

    /** `ws.close()`. */
    method Close()
      modifies this
      ensures closed && lost == old(lost) && sent == old(sent)
    {
      closed := true;
    }
  }

  /** What a send of `ms` leaves on a socket that was or was not open. */
  function Delivered(open: bool, ms: seq<Msg>): seq<Msg>
  {
    if open then ms else []
  }

  /** The `engagementData` record of one engagement. The handlers of its sockets
      hold it in their closures, so it outlives its registry entry. */
  class Engagement {
    const engagementId: string
    const rtmsStreamId: string
    var audioChunkCount: nat
    var signalingWs: Socket?
    var mediaWs: Socket?

    constructor (engagementId: string, rtmsStreamId: string)
      ensures this.engagementId == engagementId && this.rtmsStreamId == rtmsStreamId
      ensures audioChunkCount == 0 && signalingWs == null && mediaWs == null
    {
      this.engagementId := engagementId;
      this.rtmsStreamId := rtmsStreamId;
      audioChunkCount := 0;
      signalingWs := null;
      mediaWs := null;
    }

    /** The sockets this record refers to. */
    ghost function Sockets(): set<Socket>
      reads this
    {
      (if signalingWs != null then {signalingWs} else {}) + (if mediaWs != null then {mediaWs} else {})
    }

    /** Every socket this record refers to has been closed. */
    ghost predicate AllClosed()
      reads this, Sockets()
    {
      forall s | s in Sockets() :: s.closed
    }
  }

  /** The body of a lifecycle webhook, `{event, payload}`. */
  datatype Webhook = Webhook(event: string, payload: Payload)

  /** The payload fields the handlers read. */
  datatype Payload = Payload(engagementId: Option<string>, rtmsStreamId: Option<string>, serverUrls: Option<string>)

  const StartedEvent := "contact_center.voice_rtms_started"
  const StoppedEvent := "contact_center.voice_rtms_stopped"

  /** The process-wide state of the RTMS server. */
  class Server {
    const cred: Credentials
    /** `activeEngagements`. */
    var active: map<string, Engagement>
    /** The `sendStatusUpdate` calls made so far, in order; their delivery is not modelled. */
    var statusUpdates: seq<StatusUpdate>

    /** Each record is filed under its own engagement id, which is never empty. */
    ghost predicate Valid()
      reads this
    {
      forall e | e in active :: e != "" && active[e].engagementId == e
    }

    /** The sockets of every registered engagement. */
    ghost function Sockets(): set<Socket>
      reads this, active.Values
    {
      set d, s | d in active.Values && s in d.Sockets() :: s
    }

    constructor (cred: Credentials)
      ensures Valid() && this.cred == cred && active == map[] && statusUpdates == []
    {
      this.cred := cred;
      active := map[];
      statusUpdates := [];
    }

    /** The effect of `handleRTMSStarted`: an incomplete payload or an already
        registered engagement id changes nothing (no status update, no socket);
        otherwise a status update is requested and, unless opening the
        signaling socket throws, a fresh record with chunk count 0 and a fresh
        signaling socket to `server_urls` is registered under the id, every
        other entry left as it was. When opening throws, the id is absent again. */
    twostate predicate StartedEffect(p: Payload, connectFails: bool, new signaling: Socket?)
      reads this, if signaling != null then {signaling} else {}, active.Values
    {
      && (!(Truthy(p.engagementId) && Truthy(p.rtmsStreamId) && Truthy(p.serverUrls)) ==>
            active == old(active) && statusUpdates == old(statusUpdates) && signaling == null)
      && (Truthy(p.engagementId) && p.engagementId.value in old(active) ==>
            active == old(active) && statusUpdates == old(statusUpdates) && signaling == null)
      && (Truthy(p.engagementId) && Truthy(p.rtmsStreamId) && Truthy(p.serverUrls)
          && p.engagementId.value !in old(active) ==>
            var e := p.engagementId.value;
            && statusUpdates == old(statusUpdates) + [StartingConnection]
            && (connectFails ==> active == old(active) && signaling == null)
            && (!connectFails ==>
                  && e in active && active == old(active)[e := active[e]]
                  && var d := active[e];
                  && fresh(d) && d.engagementId == e && d.rtmsStreamId == p.rtmsStreamId.value && d.audioChunkCount == 0
                  && signaling != null && fresh(signaling) && d.signalingWs == signaling && d.mediaWs == null
                  && signaling.url == p.serverUrls.value && signaling.sent == [] && signaling.Open()))
    }

    /** The effect of `handleRTMSStopped`: without an engagement id nothing
        changes; with one, a status update is requested and the id is no longer
        registered, every socket of its record having been closed with nothing
        sent on it. */
    twostate predicate StoppedEffect(p: Payload)
      reads *
    {
      && (!Truthy(p.engagementId) ==> active == old(active) && statusUpdates == old(statusUpdates))
      && (Truthy(p.engagementId) ==>
            var e := p.engagementId.value;
            && active == old(active) - {e}
            && statusUpdates == old(statusUpdates) + [RtmsStopped]
            && (e in old(active) ==> old(active)[e].AllClosed())
            && (e in old(active) ==> forall s | s in old(active[e].Sockets()) :: s.sent == old(s.sent)))
    }

    /** `app.post('/')`: dispatch on the event name and always answer 200
        `{received: true}`. `connectFails` says whether `new WebSocket` rejects
        the signaling URL of a started event. */
    method HandleWebhook(w: Webhook, connectFails: bool) returns (status: int, signaling: Socket?)
      requires Valid()
      modifies this, if w.event == StoppedEvent && w.payload.engagementId.Some? && w.payload.engagementId.value in active
                     then active[w.payload.engagementId.value].Sockets() else {}
      ensures Valid() && status == 200
      ensures w.event == StartedEvent ==> StartedEffect(w.payload, connectFails, signaling)
      ensures w.event == StoppedEvent ==> StoppedEffect(w.payload) && signaling == null
      ensures w.event != StartedEvent && w.event != StoppedEvent ==>
        active == old(active) && statusUpdates == old(statusUpdates) && signaling == null
    {
      status := 200;
      signaling := null;
      if w.event == StartedEvent {
        signaling := Started(w.payload, connectFails);
      } else if w.event == StoppedEvent {
        Stopped(w.payload);
      }
    }

    /** `handleRTMSStarted`: validate the payload, skip an engagement that is
        already registered, otherwise register a fresh record and open the
        signaling socket; if opening throws, the record is cleaned up again. */
    method Started(p: Payload, connectFails: bool) returns (signaling: Socket?)
      requires Valid()
      modifies this
      ensures Valid()
      ensures StartedEffect(p, connectFails, signaling)
    {
      signaling := null;
      if !(Truthy(p.engagementId) && Truthy(p.rtmsStreamId) && Truthy(p.serverUrls)) {
        return;
      }
      var e := p.engagementId.value;
      if e in active {
        return;
      }
      statusUpdates := statusUpdates + [StartingConnection];
      var d := new Engagement(e, p.rtmsStreamId.value);
      active := active[e := d];
      if connectFails {
        Cleanup(e);
      } else {
        signaling := new Socket(p.serverUrls.value);
        d.signalingWs := signaling;
      }
    }

    /** `handleRTMSStopped`: with an engagement id, request a status update and
        clean the engagement up; without one, do nothing. */
    method Stopped(p: Payload)
      requires Valid()
      modifies this, if p.engagementId.Some? && p.engagementId.value in active
                     then active[p.engagementId.value].Sockets() else {}
      ensures Valid()
      ensures StoppedEffect(p)
    {
      if !Truthy(p.engagementId) {
        return;
      }
      statusUpdates := statusUpdates + [RtmsStopped];
      Cleanup(p.engagementId.value);
    }

    /** `cleanupEngagement`: an unknown id changes nothing; a known one has its
        signaling and media sockets closed, whichever are set, and is always
        removed from the registry. Nothing is sent on any socket. */
    method Cleanup(e: string)
      requires Valid()
      modifies this, if e in active then active[e].Sockets() else {}
      ensures Valid()
      ensures active == old(active) - {e} && statusUpdates == old(statusUpdates)
      ensures e in old(active) ==> old(active)[e].AllClosed()
      ensures e in old(active) ==> forall s | s in old(active)[e].Sockets() :: s.sent == old(s.sent)
    {
      if e !in active {
        return;
      }
      var d := active[e];
      if d.signalingWs != null {
        d.signalingWs.Close();
      }
      if d.mediaWs != null {
        d.mediaWs.Close();
      }
      active := active - {e};
    }

    /** The SIGINT handler: clean up every registered engagement, then exit.
        Afterwards the registry is empty and every socket it referred to is
        closed, with nothing sent on it. */
    method Shutdown()
      requires Valid()
      modifies this, Sockets()
      ensures Valid() && active == map[] && statusUpdates == old(statusUpdates)
      ensures forall e | e in old(active) :: old(active)[e].AllClosed()
      ensures forall s | s in old(Sockets()) :: s.sent == old(s.sent)
    {
      ghost var was := active;
      ghost var sockets := Sockets();
      while active != map[]
        invariant Valid() && statusUpdates == old(statusUpdates)
        invariant forall e | e in active :: e in was && active[e] == was[e]
        invariant forall e | e in was && e !in active :: was[e].AllClosed()
        invariant forall s | s in sockets :: s.sent == old(s.sent)
        decreases |active|
      {
        var e :| e in active;
        assert active[e] == was[e];
        Cleanup(e);
      }
    }

    /** The signaling socket's `open` handler: send the type-1 handshake. */
    method SignalingOpened(d: Engagement, ws: Socket)
      requires d.signalingWs == ws && ws.Open()
      modifies ws
      ensures ws.sent == old(ws.sent) + [SignalingHello(cred, d.engagementId, d.rtmsStreamId)]
      ensures ws.Open()
    {
      ws.Send(SignalingHello(cred, d.engagementId, d.rtmsStreamId));
    }

    /** The signaling socket's `message` handler, carrying out `SignalingStep`:
        a keep-alive is echoed on this socket; a successful handshake response
        with a media URL opens the media socket and stores it in the record. */
    method SignalingMessage(d: Engagement, ws: Socket, m: Inbound) returns (media: Socket?)
      requires d.signalingWs == ws
      modifies ws, d
      ensures active == old(active) && statusUpdates == old(statusUpdates)
      ensures d.signalingWs == ws && d.audioChunkCount == old(d.audioChunkCount)
      ensures ws.closed == old(ws.closed) && ws.lost == old(ws.lost)
      ensures ws.sent == old(ws.sent) + Delivered(old(ws.Open()), SignalingStep(m).reply)
      ensures SignalingStep(m).openMedia.None? ==> media == null && d.mediaWs == old(d.mediaWs)
      ensures SignalingStep(m).openMedia.Some? ==>
        && media != null && fresh(media) && d.mediaWs == media
        && media.url == SignalingStep(m).openMedia.value && media.sent == [] && media.Open()
    {
      media := null;
      if m.msgType == Some(2) {
        if m.statusCode == Some(0) {
          var url := Or(m.audioUrl, m.allUrl);
          if Truthy(url) {
            media := new Socket(url.value);
            d.mediaWs := media;
          }
        }
      } else if m.msgType == Some(12) {
        ws.Send(KeepAliveResponse(m.timestamp));
      }
    }

    /** The media socket's `open` handler: send the type-3 handshake. */
    method MediaOpened(d: Engagement, ws: Socket)
      requires ws.Open()
      modifies ws
      ensures ws.sent == old(ws.sent) + [MediaHello(cred, d.engagementId, d.rtmsStreamId)]
      ensures ws.Open()
    {
      ws.Send(MediaHello(cred, d.engagementId, d.rtmsStreamId));
    }

    /** The media socket's `message` handler, carrying out `MediaStep`. `ws` is
        the media socket the handler was attached to and `signaling` the
        signaling socket its closure captured. */
    method MediaMessage(d: Engagement, ws: Socket, signaling: Socket, m: Inbound)
      requires d.signalingWs == signaling && ws != signaling
      modifies this, d, ws, signaling
      ensures active == old(active)
      ensures d.signalingWs == old(d.signalingWs) && d.mediaWs == old(d.mediaWs)
      ensures ws.closed == old(ws.closed) && ws.lost == old(ws.lost)
      ensures signaling.closed == old(signaling.closed) && signaling.lost == old(signaling.lost)
      ensures var r := MediaStep(m, old(d.audioChunkCount), d.rtmsStreamId);
        && d.audioChunkCount == r.count
        && statusUpdates == old(statusUpdates) + r.reports
        && ws.sent == old(ws.sent) + Delivered(old(ws.Open()), r.reply)
        && signaling.sent == old(signaling.sent) + Delivered(old(signaling.Open()), r.toSignaling)
    {
      if m.msgType == Some(4) {
        if m.statusCode == Some(0) {
          signaling.Send(ClientReadyAck(d.rtmsStreamId));
        }
      } else if m.msgType == Some(12) {
        ws.Send(KeepAliveResponse(m.timestamp));
      } else if m.msgType == Some(14) {
        d.audioChunkCount := d.audioChunkCount + 1;
        if d.audioChunkCount % ReportStride == 0 {
          statusUpdates := statusUpdates + [ChunksReceived(d.audioChunkCount)];
        }
      }
    }

    /** The connection of `ws` is lost: its `close` or `error` event fires and
        the socket is no longer open, so later sends on it are dropped. The
        handlers only log, so the registry and the record are left as they are
        and `close()` is not called. */
    method SocketLost(d: Engagement, ws: Socket)
      modifies ws
      ensures active == old(active) && statusUpdates == old(statusUpdates)
      ensures unchanged(d)
      ensures ws.lost && !ws.Open() && ws.closed == old(ws.closed) && ws.sent == old(ws.sent)
    {
      ws.lost := true;
    }
  }
}
