/**
 * The media session (`WebRTCService`): one local capture stream, one
 * accumulating remote stream and one peer transport, plus the call state the
 * transport's connection events drive.
 *
 * The browser objects are abstract: a track is an object with a kind and the
 * `enabled`/`stopped` flags, a stream an object holding a sequence of tracks,
 * the transport an object recording the tracks it sends, its committed local
 * and remote descriptions, the remote candidates it applied and whether it is
 * closed. What the browser decides (whether capture is granted, the SDP it
 * generates, whether it accepts a candidate, connection-state changes) enters
 * as parameters.
 *
 * The callbacks object is the one the call controller builds: `sink` receives
 * onLocalStream / onRemoteStream / onCallStateChange, and onIceCandidate emits
 * on `iceSocket` under `iceCallId`, both captured when the service is built.
 */
module WebRTC {
  import opened Types
  import opened Signaling
  import opened Sequences

  datatype TrackKind = AudioTrack | VideoTrack

  datatype Outcome = Pass | Fail(message: string)

  const MediaUnavailable: string := "Could not access camera/microphone"
  const NoPeerConnection: string := "No peer connection"

  class MediaTrack {
    const kind: TrackKind
    var enabled: bool
    var stopped: bool

    constructor (kind: TrackKind)
      ensures this.kind == kind && enabled && !stopped
    {
      this.kind := kind;
      enabled := true;
      stopped := false;
    }

    method Stop()
      modifies this
      ensures stopped && enabled == old(enabled)
    {
      stopped := true;
    }
  }

  class MediaStream {
    var tracks: seq<MediaTrack>

    constructor (tracks: seq<MediaTrack>)
      ensures this.tracks == tracks
    {
      this.tracks := tracks;
    }

    /** A track the stream already holds is ignored. */
    method AddTrack(t: MediaTrack)
      modifies this
      ensures tracks == if t in old(tracks) then old(tracks) else old(tracks) + [t]
    {
      if t !in tracks {
        tracks := tracks + [t];
      }
    }

    /** Adds each of `ts` in turn. */
    method AddTracks(ts: seq<MediaTrack>)
      modifies this
      ensures tracks == AppendNew(old(tracks), ts)
    {
      for i := 0 to |ts|
        invariant tracks == AppendNew(old(tracks), ts[..i])
      {
        AddTrack(ts[i]);
        assert ts[..i + 1][..i] == ts[..i];
      }
      assert ts[..|ts|] == ts;
    }
  }

  /** The states of the transport's `connectionState`. */
  datatype ConnectionState = ConnNew | ConnConnecting | ConnConnected | ConnDisconnected | ConnFailed | ConnClosed

  /**
   * The call state a transport connection state leads to, or `None` when the
   * service's state is left as it is.
   */
  function StateForConnection(s: ConnectionState): (r: Option<CallState>)
    ensures r == Some(Connecting) <==> s == ConnConnecting
    ensures r == Some(Connected) <==> s == ConnConnected
    ensures r == Some(Ended) <==> (s == ConnDisconnected || s == ConnFailed || s == ConnClosed)
    ensures r.None? <==> s == ConnNew
  {
    match s
    case ConnConnecting => Some(Connecting)
    case ConnConnected => Some(Connected)
    case ConnDisconnected => Some(Ended)
    case ConnFailed => Some(Ended)
    case ConnClosed => Some(Ended)
    case ConnNew => None
  }

  class PeerTransport {
    var senders: seq<MediaTrack>
    var localDescription: Option<SessionDescription>
    var remoteDescription: Option<SessionDescription>
    var candidates: seq<IceCandidate>
    var closed: bool

    constructor ()
      ensures senders == [] && localDescription == None && remoteDescription == None
      ensures candidates == [] && !closed
    {
      senders := [];
      localDescription := None;
      remoteDescription := None;
      candidates := [];
      closed := false;
    }

    method AddTrack(t: MediaTrack)
      modifies this
      ensures senders == old(senders) + [t]
      ensures localDescription == old(localDescription) && remoteDescription == old(remoteDescription)
      ensures candidates == old(candidates) && closed == old(closed)
    {
      senders := senders + [t];
    }

    method Close()
      modifies this
      ensures closed
      ensures senders == old(senders) && candidates == old(candidates)
      ensures localDescription == old(localDescription) && remoteDescription == old(remoteDescription)
    {
      closed := true;
    }
  }

  /** The receiver of onLocalStream, onRemoteStream and onCallStateChange. */
  class CallbackSink {
    var localStream: MediaStream?
    var remoteStream: MediaStream?
    var callState: CallState

    constructor ()
      ensures localStream == null && remoteStream == null && callState == Idle
    {
      localStream := null;
      remoteStream := null;
      callState := Idle;
    }
  }

  function Obj(o: object?): set<object>
  {
    if o == null then {} else {o}
  }

  function TrackSet(ts: seq<MediaTrack>): set<MediaTrack>
  {
    set t | t in ts
  }

  /**
   * The position of the first track of the given kind (`getAudioTracks()[0]`,
   * `getVideoTracks()[0]`), or `|ts|` when there is none.
   */
  function FirstOfKind(ts: seq<MediaTrack>, kind: TrackKind): (k: nat)
    ensures k <= |ts|
    ensures forall i :: 0 <= i < k ==> ts[i].kind != kind
    ensures k < |ts| ==> ts[k].kind == kind
  {
    if |ts| == 0 then 0
    else if ts[0].kind == kind then 0
    else 1 + FirstOfKind(ts[1..], kind)
  }

  /** Stops every track of `ts`, leaving its `enabled` flag alone. */
  method StopAll(ts: seq<MediaTrack>)
    modifies TrackSet(ts)
    ensures forall t :: t in ts ==> t.stopped && t.enabled == old(t.enabled)
  {
    for i := 0 to |ts|
      invariant forall j :: 0 <= j < i ==> ts[j].stopped
      invariant forall t :: t in ts ==> t.enabled == old(t.enabled)
    {
      ts[i].Stop();
    }
  }

  class WebRTCService {
    var peerConnection: PeerTransport?
    var localStream: MediaStream?
    var remoteStream: MediaStream?
    var callState: CallState
    const sink: CallbackSink?
    const iceSocket: Socket?
    const iceCallId: Option<string>

    constructor (sink: CallbackSink?, iceSocket: Socket?, iceCallId: Option<string>)
      ensures this.sink == sink && this.iceSocket == iceSocket && this.iceCallId == iceCallId
      ensures peerConnection == null && localStream == null && remoteStream == null
      ensures callState == Idle
    {
      this.sink := sink;
      this.iceSocket := iceSocket;
      this.iceCallId := iceCallId;
      peerConnection := null;
      localStream := null;
      remoteStream := null;
      callState := Idle;
    }

    function LocalTracks(): seq<MediaTrack>
      reads this, localStream
    {
      if localStream == null then [] else localStream.tracks
    }

    function RemoteTracks(): seq<MediaTrack>
      reads this, remoteStream
    {
      if remoteStream == null then [] else remoteStream.tracks
    }

    /** Every object a method of the service may change. */
    function Footprint(): set<object>
      reads this, localStream, remoteStream
    {
      {this} + Obj(peerConnection) + Obj(localStream) + Obj(remoteStream) + Obj(sink) + Obj(iceSocket)
      + TrackSet(LocalTracks()) + TrackSet(RemoteTracks())
    }

    /** The sink is told the new state exactly; nothing else of it changes. */
    twostate predicate Notified(s: CallState)
      reads this, sink
    {
      sink != null ==>
        sink.callState == s && sink.localStream == old(sink.localStream) && sink.remoteStream == old(sink.remoteStream)
    }

    twostate predicate SinkUnchanged()
      reads this, sink
    {
      sink != null ==> unchanged(sink)
    }

    method SetCallState(s: CallState)
      modifies this, sink
      ensures callState == s && Notified(s)
      ensures peerConnection == old(peerConnection) && localStream == old(localStream)
      ensures remoteStream == old(remoteStream)
    {
      callState := s;
      if sink != null {
        sink.callState := s;
      }
    }

    /**
     * Asks the platform for the microphone, and the camera when `video`;
     * `granted` is the platform's answer. On success the new stream holds an
     * audio track, then a video track when asked for, and is handed to the
     * sink; on refusal nothing changes.
     */
    method InitializeMedia(video: bool, granted: bool) returns (r: Outcome)
      modifies this, sink
      ensures r == Pass <==> granted
      ensures !granted ==> r == Fail(MediaUnavailable) && localStream == old(localStream) && SinkUnchanged()
      ensures granted ==> localStream != null && fresh(localStream)
      ensures granted ==> |LocalTracks()| == (if video then 2 else 1) && LocalTracks()[0].kind == AudioTrack
      ensures granted && video ==> LocalTracks()[1].kind == VideoTrack
      ensures granted ==> forall t :: t in LocalTracks() ==> fresh(t) && t.enabled && !t.stopped
      ensures granted && sink != null ==>
        sink.localStream == localStream && sink.remoteStream == old(sink.remoteStream) && sink.callState == old(sink.callState)
      ensures peerConnection == old(peerConnection) && remoteStream == old(remoteStream) && callState == old(callState)
    {
      if !granted {
        return Fail(MediaUnavailable);
      }
      var audio := new MediaTrack(AudioTrack);
      var tracks := [audio];
      if video {
        var cam := new MediaTrack(VideoTrack);
        tracks := tracks + [cam];
      }
      localStream := new MediaStream(tracks);
      if sink != null {
        sink.localStream := localStream;
      }
      r := Pass;
    }

    /** Builds a transport that sends every local track, in stream order. */
    method CreatePeerConnection() returns (pc: PeerTransport)
      modifies this
      ensures fresh(pc) && peerConnection == pc
      ensures pc.senders == LocalTracks() && !pc.closed && pc.candidates == []
      ensures pc.localDescription == None && pc.remoteDescription == None
      ensures localStream == old(localStream) && remoteStream == old(remoteStream) && callState == old(callState)
    {
      pc := new PeerTransport();
      if localStream != null {
        var ts := localStream.tracks;
        for i := 0 to |ts|
          modifies pc
          invariant pc.senders == ts[..i]
          invariant !pc.closed && pc.candidates == []
          invariant pc.localDescription == None && pc.remoteDescription == None
        {
          pc.AddTrack(ts[i]);
        }
        assert ts[..|ts|] == ts;
      }
      peerConnection := pc;
    }

    /**
     * The transport's track event, carrying the tracks of the event's first
     * stream. The remote stream is created, and handed to the sink, only on
     * the first event; later tracks are added to the same stream, which
     * ignores a track it already holds.
     */
    method OnTrack(streamTracks: seq<MediaTrack>)
      modifies this, remoteStream, sink
      ensures old(remoteStream) == null ==>
        remoteStream != null && fresh(remoteStream) && RemoteTracks() == AppendNew([], streamTracks)
        && (sink != null ==> sink.remoteStream == remoteStream && sink.localStream == old(sink.localStream)
                             && sink.callState == old(sink.callState))
      ensures old(remoteStream) != null ==>
        remoteStream == old(remoteStream) && RemoteTracks() == AppendNew(old(RemoteTracks()), streamTracks) && SinkUnchanged()
      ensures peerConnection == old(peerConnection) && localStream == old(localStream) && callState == old(callState)
    {
      if remoteStream == null {
        remoteStream := new MediaStream([]);
        if sink != null {
          sink.remoteStream := remoteStream;
        }
      }
      remoteStream.AddTracks(streamTracks);
    }

    /**
     * The transport's candidate event; `None` is the end-of-candidates
     * event. A candidate is forwarded on the captured socket, tagged with the
     * captured call id, when there is a socket and the call id is a
     * non-empty string.
     */
    method OnIceCandidate(c: Option<IceCandidate>)
      modifies iceSocket
      ensures iceSocket != null ==>
        iceSocket.emitted == old(iceSocket.emitted)
          + (if c.Some? && Truthy(iceCallId) then [RtcIceCandidate(iceCallId.value, c.value)] else [])
    {
      if c.Some? && iceSocket != null && Truthy(iceCallId) {
        iceSocket.Emit(RtcIceCandidate(iceCallId.value, c.value));
      }
    }

    /** The transport's connection-state event. */
    method OnConnectionStateChange(s: ConnectionState)
      modifies this, sink
      ensures StateForConnection(s).Some? ==> callState == StateForConnection(s).value && Notified(callState)
      ensures StateForConnection(s).None? ==> callState == old(callState) && SinkUnchanged()
      ensures peerConnection == old(peerConnection) && localStream == old(localStream)
      ensures remoteStream == old(remoteStream)
    {
      var next := StateForConnection(s);
      if next.Some? {
        SetCallState(next.value);
      }
    }

    /**
     * Creates the transport if there is none, commits an offer with the
     * generated `sdp` as local description, and only then moves to Calling.
     */
    method CreateOffer(sdp: string) returns (offer: SessionDescription)
      modifies this, peerConnection, sink
      ensures offer == SessionDescription(Offer, sdp)
      ensures old(peerConnection) != null ==> peerConnection == old(peerConnection)
      ensures old(peerConnection) == null ==>
        fresh(peerConnection) && peerConnection.senders == LocalTracks() && peerConnection.remoteDescription == None
        && peerConnection.candidates == [] && !peerConnection.closed
      ensures peerConnection != null && peerConnection.localDescription == Some(offer)
      ensures old(peerConnection) != null ==>
        peerConnection.senders == old(peerConnection.senders) && peerConnection.candidates == old(peerConnection.candidates)
        && peerConnection.remoteDescription == old(peerConnection.remoteDescription)
        && peerConnection.closed == old(peerConnection.closed)
      ensures callState == Calling && Notified(Calling)
      ensures localStream == old(localStream) && remoteStream == old(remoteStream)
    {
      if peerConnection == null {
        var _ := CreatePeerConnection();
      }
      var pc := peerConnection;
      offer := SessionDescription(Offer, sdp);
      pc.localDescription := Some(offer);
      SetCallState(Calling);
    }

    /**
     * Creates the transport if there is none, commits the remote offer, then
     * commits an answer with the generated `answerSdp` and returns it. The
     * call state is not touched.
     */
    method HandleOffer(offer: SessionDescription, answerSdp: string) returns (answer: SessionDescription)
      modifies this, peerConnection
      ensures answer == SessionDescription(Answer, answerSdp)
      ensures old(peerConnection) != null ==> peerConnection == old(peerConnection)
      ensures old(peerConnection) == null ==>
        fresh(peerConnection) && peerConnection.senders == LocalTracks() && peerConnection.candidates == []
        && !peerConnection.closed
      ensures peerConnection != null
      ensures peerConnection.remoteDescription == Some(offer) && peerConnection.localDescription == Some(answer)
      ensures old(peerConnection) != null ==>
        peerConnection.senders == old(peerConnection.senders) && peerConnection.candidates == old(peerConnection.candidates)
        && peerConnection.closed == old(peerConnection.closed)
      ensures localStream == old(localStream) && remoteStream == old(remoteStream) && callState == old(callState)
    {
      if peerConnection == null {
        var _ := CreatePeerConnection();
      }
      var pc := peerConnection;
      pc.remoteDescription := Some(offer);
      answer := SessionDescription(Answer, answerSdp);
      pc.localDescription := Some(answer);
    }

    /** Commits the remote answer; fails when there is no transport. */
    method HandleAnswer(answer: SessionDescription) returns (r: Outcome)
      modifies peerConnection
      ensures r == Pass <==> peerConnection != null
      ensures r.Fail? ==> r.message == NoPeerConnection
      ensures peerConnection != null ==>
        peerConnection.remoteDescription == Some(answer)
        && peerConnection.localDescription == old(peerConnection.localDescription)
        && peerConnection.senders == old(peerConnection.senders)
        && peerConnection.candidates == old(peerConnection.candidates)
        && peerConnection.closed == old(peerConnection.closed)
    {
      if peerConnection == null {
        return Fail(NoPeerConnection);
      }
      peerConnection.remoteDescription := Some(answer);
      r := Pass;
    }

    /**
     * Applies a remote candidate; fails when there is no transport. Whether
     * the transport accepts the candidate is `accepted`; a refusal is logged
     * and swallowed, so the outcome depends only on the transport existing.
     */
    method AddIceCandidate(c: IceCandidate, accepted: bool) returns (r: Outcome)
      modifies peerConnection
      ensures r == Pass <==> peerConnection != null
      ensures r.Fail? ==> r.message == NoPeerConnection
      ensures peerConnection != null ==>
        peerConnection.candidates == old(peerConnection.candidates) + (if accepted then [c] else [])
        && peerConnection.localDescription == old(peerConnection.localDescription)
        && peerConnection.remoteDescription == old(peerConnection.remoteDescription)
        && peerConnection.senders == old(peerConnection.senders)
        && peerConnection.closed == old(peerConnection.closed)
    {
      if peerConnection == null {
        return Fail(NoPeerConnection);
      }
      if accepted {
        peerConnection.candidates := peerConnection.candidates + [c];
      }
      r := Pass;
    }

    /**
     * Flips the `enabled` flag of the first local track of `kind` and answers
     * whether that track is now disabled; answers false, changing nothing,
     * when there is no local stream or no such track.
     */
    method ToggleFirst(kind: TrackKind) returns (off: bool)
      modifies TrackSet(LocalTracks())
      ensures var ts := LocalTracks(); var k := FirstOfKind(ts, kind);
        && ts == old(LocalTracks())
        && (k < |ts| ==> ts[k].enabled == !old(ts[k].enabled) && off == !ts[k].enabled)
        && (k == |ts| ==> !off)
        && forall t :: t in ts && (k == |ts| || t != ts[k]) ==> t.enabled == old(t.enabled)
      ensures forall t :: t in old(LocalTracks()) ==> t.stopped == old(t.stopped)
    {
      if localStream == null {
        return false;
      }
      var ts := localStream.tracks;
      var k := FirstOfKind(ts, kind);
      if k < |ts| {
        ts[k].enabled := !ts[k].enabled;
        return !ts[k].enabled;
      }
      return false;
    }

    /** `toggleMute`: answers true when the microphone is now muted. */
    method ToggleMute() returns (muted: bool)
      modifies TrackSet(LocalTracks())
      ensures var ts := LocalTracks(); var k := FirstOfKind(ts, AudioTrack);
        && ts == old(LocalTracks())
        && (k < |ts| ==> ts[k].enabled == !old(ts[k].enabled) && muted == !ts[k].enabled)
        && (k == |ts| ==> !muted)
        && forall t :: t in ts && (k == |ts| || t != ts[k]) ==> t.enabled == old(t.enabled)
      ensures forall t :: t in old(LocalTracks()) ==> t.stopped == old(t.stopped)
    {
      muted := ToggleFirst(AudioTrack);
    }

    /** `toggleCamera`: answers true when the camera is now off. */
    method ToggleCamera() returns (cameraOff: bool)
      modifies TrackSet(LocalTracks())
      ensures var ts := LocalTracks(); var k := FirstOfKind(ts, VideoTrack);
        && ts == old(LocalTracks())
        && (k < |ts| ==> ts[k].enabled == !old(ts[k].enabled) && cameraOff == !ts[k].enabled)
        && (k == |ts| ==> !cameraOff)
        && forall t :: t in ts && (k == |ts| || t != ts[k]) ==> t.enabled == old(t.enabled)
      ensures forall t :: t in old(LocalTracks()) ==> t.stopped == old(t.stopped)
    {
      cameraOff := ToggleFirst(VideoTrack);
    }

    /**
     * Stops every local and remote track, closes the transport, drops all
     * three references and moves to Idle.
     */
    method Close()
      modifies this, peerConnection, sink, TrackSet(LocalTracks()), TrackSet(RemoteTracks())
      ensures forall t :: t in old(LocalTracks()) ==> t.stopped && t.enabled == old(t.enabled)
      ensures forall t :: t in old(RemoteTracks()) ==> t.stopped && t.enabled == old(t.enabled)
      ensures old(peerConnection) != null ==> old(peerConnection).closed
      ensures peerConnection == null && localStream == null && remoteStream == null
      ensures callState == Idle && Notified(Idle)
    {
      if localStream != null {
        StopAll(localStream.tracks);
      }
      if remoteStream != null {
        StopAll(remoteStream.tracks);
      }
      if peerConnection != null {
        peerConnection.Close();
      }
      localStream := null;
      remoteStream := null;
      peerConnection := null;
      SetCallState(Idle);
    }
  }
}
