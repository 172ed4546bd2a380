/**
 * The call controller (the `useWebRTC` hook): the state the presentation
 * layer observes (call state, streams, mute and camera flags, the pending
 * incoming call), the call id the controller is bound to, and the handlers
 * for the user's actions and the server's `call:*` and `rtc:*` events.
 *
 * Each handler is one atomic step; asynchronous steps complete in place,
 * with the outcomes the browser decides as parameters. The hook's React
 * state for the call state and the two streams is the `view` object, which
 * is also the sink of the media session's callbacks. Server events reach the
 * controller only through its socket, so the event handlers require one.
 */
module CallHook {
  import opened Types
  import opened Signaling
  import opened WebRTC

  datatype IncomingCall = IncomingCall(callId: string, caller: User, callType: CallType)

  /** The controller's observable state, taken as one value. */
  datatype HookState = HookState(
    callState: CallState,
    localStream: MediaStream?,
    remoteStream: MediaStream?,
    isMuted: bool,
    isCameraOff: bool,
    currentCallId: Option<string>,
    incomingCall: Option<IncomingCall>,
    awaitingInitiated: bool)

  /** The state every call-ending path leaves behind. */
  function Cleared(h: HookState): (r: HookState)
    ensures r.callState == Idle && r.localStream == null && r.remoteStream == null
    ensures !r.isMuted && !r.isCameraOff && r.currentCallId == None && r.incomingCall == None
    ensures r.awaitingInitiated == h.awaitingInitiated
  {
    HookState(Idle, null, null, false, false, None, None, h.awaitingInitiated)
  }

  /** An event tagged `callId` is for the call the controller is bound to. */
  function IsCurrent(callId: string, current: Option<string>): (r: bool)
    ensures r <==> current.Some? && current.value == callId
    ensures current.None? ==> !r
  {
    current == Some(callId)
  }

  class CallController {
    const socket: Socket?
    const view: CallbackSink
    var webrtc: WebRTCService?
    var isMuted: bool
    var isCameraOff: bool
    var currentCallId: Option<string>
    var incomingCall: Option<IncomingCall>
    /** The one-shot `call:initiated` listener is registered. */
    var awaitingInitiated: bool

    /** The media session, when there is one, reports to this controller. */
    ghost predicate Valid()
      reads this, webrtc
    {
      webrtc != null ==> webrtc.sink == view && webrtc.iceSocket == socket
    }

    function Repr(): set<object>
      reads this, webrtc, if webrtc != null then {webrtc.localStream, webrtc.remoteStream} else {}
    {
      {this, view} + Obj(socket) + (if webrtc != null then webrtc.Footprint() else {})
    }

    function Snapshot(): HookState
      reads this, view
    {
      HookState(view.callState, view.localStream, view.remoteStream, isMuted, isCameraOff,
                currentCallId, incomingCall, awaitingInitiated)
    }

    /** Everything the controller reaches is as it was. */
    twostate predicate Untouched()
      reads this, view, socket, webrtc, if webrtc != null then {webrtc.peerConnection} else {}
    {
      && unchanged(this, view)
      && (socket != null ==> unchanged(socket))
      && (webrtc != null ==> unchanged(webrtc) && (webrtc.peerConnection != null ==> unchanged(webrtc.peerConnection)))
    }

    twostate predicate EmittedNothing()
      reads this, socket
    {
      socket != null ==> socket.emitted == old(socket.emitted)
    }

    constructor (socket: Socket?)
      ensures this.socket == socket && fresh(view) && webrtc == null && Valid()
      ensures Snapshot() == HookState(Idle, null, null, false, false, None, None, false)
    {
      this.socket := socket;
      view := new CallbackSink();
      webrtc := null;
      isMuted := false;
      isCameraOff := false;
      currentCallId := None;
      incomingCall := None;
      awaitingInitiated := false;
    }

    /**
     * Closes the current media session, if any, and forgets it. Closing
     * tells the view the state is idle; the view's streams are left as they
     * are.
     */
    method DropSession()
      requires Valid()
      modifies Repr()
      ensures Valid() && webrtc == null && EmittedNothing()
      ensures Snapshot() == old(Snapshot()).(callState := if old(webrtc) != null then Idle else old(view.callState))
      ensures old(webrtc) != null ==>
        && old(webrtc).peerConnection == null && old(webrtc).localStream == null
        && old(webrtc).remoteStream == null && old(webrtc).callState == Idle
        && (forall t :: t in old(webrtc.LocalTracks()) + old(webrtc.RemoteTracks()) ==> t.stopped)
        && (old(webrtc.peerConnection) != null ==> old(webrtc.peerConnection).closed)
    {
      if webrtc != null {
        webrtc.Close();
      }
      webrtc := null;
    }

    /**
     * Closes the current media session, if any, and builds a new one whose
     * candidate forwarding captures the socket and the call id bound now.
     */
    method InitWebRTC() returns (s: WebRTCService)
      requires Valid()
      modifies Repr()
      ensures Valid() && webrtc == s && fresh(s)
      ensures s.iceCallId == currentCallId && s.peerConnection == null && s.localStream == null
      ensures s.remoteStream == null && s.callState == Idle
      ensures Snapshot() == old(Snapshot()).(callState := if old(webrtc) != null then Idle else old(view.callState))
      ensures old(webrtc) != null ==>
        && old(webrtc).peerConnection == null && old(webrtc).localStream == null
        && old(webrtc).remoteStream == null && old(webrtc).callState == Idle
        && (forall t :: t in old(webrtc.LocalTracks()) + old(webrtc.RemoteTracks()) ==> t.stopped)
        && (old(webrtc.peerConnection) != null ==> old(webrtc.peerConnection).closed)
      ensures EmittedNothing()
    {
      DropSession();
      s := new WebRTCService(view, socket, currentCallId);
      webrtc := s;
    }

    /**
     * The common start of both call paths: a new media session, then
     * capture, with video exactly when `video`; `ok` is whether capture was
     * granted, and on success the view shows the new local stream.
     */
    method OpenSession(video: bool, granted: bool) returns (ok: bool)
      requires Valid()
      modifies Repr()
      ensures Valid() && ok == granted && EmittedNothing()
      ensures webrtc != null && fresh(webrtc) && webrtc.iceCallId == old(currentCallId)
      ensures webrtc.peerConnection == null && webrtc.remoteStream == null
      ensures granted <==> webrtc.localStream != null
      ensures granted ==> |webrtc.LocalTracks()| == (if video then 2 else 1)
      ensures Snapshot() == old(Snapshot()).(
        callState := if old(webrtc) != null then Idle else old(view.callState),
        localStream := if granted then webrtc.localStream else old(view.localStream))
      ensures old(webrtc) != null ==>
        && old(webrtc).peerConnection == null && old(webrtc).localStream == null
        && old(webrtc).remoteStream == null && old(webrtc).callState == Idle
        && (forall t :: t in old(webrtc.LocalTracks()) + old(webrtc.RemoteTracks()) ==> t.stopped)
        && (old(webrtc.peerConnection) != null ==> old(webrtc.peerConnection).closed)
    {
      var s := InitWebRTC();
      var r := s.InitializeMedia(video, granted);
      ok := r.Pass?;
    }

    /** `call:incoming`: records the pending call and rings, whatever the current state. */
    method OnIncoming(callId: string, initiator: User, callType: CallType)
      requires socket != null
      modifies this, view
      ensures Snapshot() == old(Snapshot()).(incomingCall := Some(IncomingCall(callId, initiator, callType)), callState := Ringing)
      ensures webrtc == old(webrtc)
    {
      incomingCall := Some(IncomingCall(callId, initiator, callType));
      view.callState := Ringing;
    }

    /**
     * `call:initiated`, seen by the one-shot listener `InitiateCall`
     * registers: the first such event binds its call id and removes the
     * listener; later ones find no listener.
     */
    method OnInitiated(callId: string)
      requires socket != null
      modifies this
      ensures old(awaitingInitiated) ==>
        Snapshot() == old(Snapshot()).(currentCallId := Some(callId), awaitingInitiated := false)
      ensures !old(awaitingInitiated) ==> Snapshot() == old(Snapshot())
      ensures webrtc == old(webrtc)
    {
      if awaitingInitiated {
        currentCallId := Some(callId);
        awaitingInitiated := false;
      }
    }

    /**
     * `call:accepted`: for the bound call, with a media session, creates one
     * offer and sends it tagged with that call id; otherwise nothing happens.
     */
    method OnAccepted(callId: string, offerSdp: string)
      requires Valid() && socket != null
      modifies Repr()
      ensures Valid() && webrtc == old(webrtc)
      ensures IsCurrent(callId, old(currentCallId)) && old(webrtc) != null ==>
        && socket.emitted == old(socket.emitted) + [RtcOffer(callId, SessionDescription(Offer, offerSdp))]
        && Snapshot() == old(Snapshot()).(callState := Calling)
        && webrtc.peerConnection != null
        && webrtc.peerConnection.localDescription == Some(SessionDescription(Offer, offerSdp))
      ensures !(IsCurrent(callId, old(currentCallId)) && old(webrtc) != null) ==> Untouched()
    {
      if IsCurrent(callId, currentCallId) && webrtc != null {
        var offer := webrtc.CreateOffer(offerSdp);
        socket.Emit(RtcOffer(callId, offer));
      }
    }

    /** `call:rejected`: ends the bound call; other calls' events change nothing. */
    method OnRejected(callId: string)
      requires Valid() && socket != null
      modifies Repr()
      ensures Valid()
      ensures IsCurrent(callId, old(currentCallId)) ==>
        && Snapshot() == Cleared(old(Snapshot())) && webrtc == null
        && socket.emitted == old(socket.emitted) + (if callId != "" then [CallEnd(callId)] else [])
      ensures !IsCurrent(callId, old(currentCallId)) ==> Untouched() && webrtc == old(webrtc)
    {
      if IsCurrent(callId, currentCallId) {
        EndCall();
      }
    }

    /** `call:ended`: ends the bound call; other calls' events change nothing. */
    method OnEnded(callId: string)
      requires Valid() && socket != null
      modifies Repr()
      ensures Valid()
      ensures IsCurrent(callId, old(currentCallId)) ==>
        && Snapshot() == Cleared(old(Snapshot())) && webrtc == null
        && socket.emitted == old(socket.emitted) + (if callId != "" then [CallEnd(callId)] else [])
      ensures !IsCurrent(callId, old(currentCallId)) ==> Untouched() && webrtc == old(webrtc)
    {
      if IsCurrent(callId, currentCallId) {
        EndCall();
      }
    }

    /**
     * `rtc:offer`: for the bound call, with a media session, commits the
     * offer, answers it and sends the answer tagged with the same call id.
     */
    method OnOffer(callId: string, offer: SessionDescription, answerSdp: string)
      requires Valid() && socket != null
      modifies Repr()
      ensures Valid() && webrtc == old(webrtc)
      ensures IsCurrent(callId, old(currentCallId)) && old(webrtc) != null ==>
        && socket.emitted == old(socket.emitted) + [RtcAnswer(callId, SessionDescription(Answer, answerSdp))]
        && Snapshot() == old(Snapshot())
        && webrtc.peerConnection != null
        && webrtc.peerConnection.remoteDescription == Some(offer)
        && webrtc.peerConnection.localDescription == Some(SessionDescription(Answer, answerSdp))
      ensures !(IsCurrent(callId, old(currentCallId)) && old(webrtc) != null) ==> Untouched()
    {
      if IsCurrent(callId, currentCallId) && webrtc != null {
        var answer := webrtc.HandleOffer(offer, answerSdp);
        socket.Emit(RtcAnswer(callId, answer));
      }
    }

    /**
     * `rtc:answer`: for the bound call, with a media session, commits the
     * answer. Without a transport the session's error is left unhandled and
     * nothing changes.
     */
    method OnAnswer(callId: string, answer: SessionDescription)
      requires Valid() && socket != null
      modifies Repr()
      ensures Valid() && webrtc == old(webrtc) && Snapshot() == old(Snapshot()) && EmittedNothing()
      ensures IsCurrent(callId, old(currentCallId)) && old(webrtc) != null && old(webrtc.peerConnection) != null ==>
        old(webrtc.peerConnection).remoteDescription == Some(answer)
      ensures !(IsCurrent(callId, old(currentCallId)) && old(webrtc) != null && old(webrtc.peerConnection) != null) ==>
        Untouched()
    {
      if IsCurrent(callId, currentCallId) && webrtc != null {
        var _ := webrtc.HandleAnswer(answer);
      }
    }

    /**
     * `rtc:ice-candidate`: for the bound call, with a media session, applies
     * the candidate at once (nothing is buffered); `accepted` is whether the
     * transport takes it.
     */
    method OnRemoteCandidate(callId: string, candidate: IceCandidate, accepted: bool)
      requires Valid() && socket != null
      modifies Repr()
      ensures Valid() && webrtc == old(webrtc) && Snapshot() == old(Snapshot()) && EmittedNothing()
      ensures IsCurrent(callId, old(currentCallId)) && old(webrtc) != null && old(webrtc.peerConnection) != null ==>
        old(webrtc.peerConnection).candidates == old(webrtc.peerConnection.candidates) + (if accepted then [candidate] else [])
      ensures !(IsCurrent(callId, old(currentCallId)) && old(webrtc) != null && old(webrtc.peerConnection) != null) ==>
        Untouched()
    {
      if IsCurrent(callId, currentCallId) && webrtc != null {
        var _ := webrtc.AddIceCandidate(candidate, accepted);
      }
    }

    /**
     * Starts a call to `userId`. Without a socket nothing happens. Otherwise
     * a new media session is built and capture is requested, with video
     * exactly for a video call; only when capture is `granted` does the state
     * become Calling, `call:initiate` go out and the one-shot listener for
     * `call:initiated` get registered.
     */
    method InitiateCall(userId: string, callType: CallType, granted: bool)
      requires Valid()
      modifies Repr()
      ensures Valid()
      ensures socket == null ==> Untouched()
      ensures socket != null ==>
        && webrtc != null && fresh(webrtc) && webrtc.iceCallId == old(currentCallId)
        && (granted <==> webrtc.localStream != null)
        && (granted ==> |webrtc.LocalTracks()| == (if callType == Video then 2 else 1))
      ensures socket != null && granted ==>
        && socket.emitted == old(socket.emitted) + [CallInitiate(userId, callType)]
        && Snapshot() == old(Snapshot()).(callState := Calling, localStream := webrtc.localStream, awaitingInitiated := true)
      ensures socket != null && !granted ==>
        && EmittedNothing()
        && Snapshot() == old(Snapshot()).(callState := if old(webrtc) != null then Idle else old(view.callState))
      ensures socket != null && old(webrtc) != null ==>
        && old(webrtc).peerConnection == null && old(webrtc).localStream == null
        && old(webrtc).remoteStream == null && old(webrtc).callState == Idle
        && (forall t :: t in old(webrtc.LocalTracks()) + old(webrtc.RemoteTracks()) ==> t.stopped)
        && (old(webrtc.peerConnection) != null ==> old(webrtc.peerConnection).closed)
    {
      if socket == null {
        return;
      }
      var ok := OpenSession(callType == Video, granted);
      if !ok {
        return;
      }
      view.callState := Calling;
      socket.Emit(CallInitiate(userId, callType));
      awaitingInitiated := true;
    }

    /**
     * Accepts the pending call. Without a socket or a pending call nothing
     * happens. Otherwise a new media session is built and capture requested,
     * with video exactly for a video call; when `granted`, the pending call
     * id becomes the bound call, `call:accept` goes out with it and the
     * pending call is cleared. The call state is left to the transport.
     */
    method AcceptCall(granted: bool)
      requires Valid()
      modifies Repr()
      ensures Valid()
      ensures socket == null || old(incomingCall).None? ==> Untouched()
      ensures socket != null && old(incomingCall).Some? ==>
        && webrtc != null && fresh(webrtc) && webrtc.iceCallId == old(currentCallId)
        && (granted <==> webrtc.localStream != null)
        && (granted ==> |webrtc.LocalTracks()| == (if old(incomingCall).value.callType == Video then 2 else 1))
      ensures socket != null && old(incomingCall).Some? && granted ==>
        var id := old(incomingCall).value.callId;
        && socket.emitted == old(socket.emitted) + [CallAccept(id)]
        && Snapshot() == old(Snapshot()).(
             callState := if old(webrtc) != null then Idle else old(view.callState),
             localStream := webrtc.localStream, currentCallId := Some(id), incomingCall := None)
      ensures socket != null && old(incomingCall).Some? && !granted ==>
        && EmittedNothing()
        && Snapshot() == old(Snapshot()).(callState := if old(webrtc) != null then Idle else old(view.callState))
      ensures socket != null && old(incomingCall).Some? && old(webrtc) != null ==>
        && old(webrtc).peerConnection == null && old(webrtc).localStream == null
        && old(webrtc).remoteStream == null && old(webrtc).callState == Idle
        && (forall t :: t in old(webrtc.LocalTracks()) + old(webrtc.RemoteTracks()) ==> t.stopped)
        && (old(webrtc.peerConnection) != null ==> old(webrtc.peerConnection).closed)
    {
      if socket == null || incomingCall.None? {
        return;
      }
      var pending := incomingCall.value;
      var ok := OpenSession(pending.callType == Video, granted);
      if !ok {
        return;
      }
      currentCallId := Some(pending.callId);
      socket.Emit(CallAccept(pending.callId));
      incomingCall := None;
    }

    /**
     * Rejects the pending call: `call:reject` with its id, the pending call
     * cleared, state Idle. Without a socket or a pending call nothing happens.
     */
    method RejectCall()
      modifies this, view, socket
      ensures socket == null || old(incomingCall).None? ==> unchanged(this, view) && EmittedNothing()
      ensures socket != null && old(incomingCall).Some? ==>
        && socket.emitted == old(socket.emitted) + [CallReject(old(incomingCall).value.callId)]
        && Snapshot() == old(Snapshot()).(incomingCall := None, callState := Idle)
      ensures webrtc == old(webrtc)
    {
      if socket == null || incomingCall.None? {
        return;
      }
      socket.Emit(CallReject(incomingCall.value.callId));
      incomingCall := None;
      view.callState := Idle;
    }

    /**
     * Ends the call from any state: `call:end` goes out only when there is a
     * socket and the bound call id is a non-empty string; the media session is
     * closed and dropped, and every piece of call state is reset.
     */
    method EndCall()
      requires Valid()
      modifies Repr()
      ensures Valid() && webrtc == null
      ensures Snapshot() == Cleared(old(Snapshot()))
      ensures socket != null ==>
        socket.emitted == old(socket.emitted) + (if Truthy(old(currentCallId)) then [CallEnd(old(currentCallId).value)] else [])
      ensures old(webrtc) != null ==>
        && old(webrtc).peerConnection == null && old(webrtc).localStream == null && old(webrtc).remoteStream == null
        && old(webrtc).callState == Idle
        && (forall t :: t in old(webrtc.LocalTracks()) + old(webrtc.RemoteTracks()) ==> t.stopped)
        && (old(webrtc.peerConnection) != null ==> old(webrtc.peerConnection).closed)
    {
      if socket != null && Truthy(currentCallId) {
        socket.Emit(CallEnd(currentCallId.value));
      }
      DropSession();
      view.localStream := null;
      view.remoteStream := null;
      view.callState := Idle;
      currentCallId := None;
      incomingCall := None;
      isMuted := false;
      isCameraOff := false;
    }

    /** Mirrors the session's answer into `isMuted`; no session, no change. */
    method ToggleMute()
      requires Valid()
      modifies this, if webrtc != null then TrackSet(webrtc.LocalTracks()) else {}
      ensures webrtc == old(webrtc)
      ensures old(webrtc) == null ==> Snapshot() == old(Snapshot())
      ensures old(webrtc) != null ==>
        var ts := webrtc.LocalTracks(); var k := FirstOfKind(ts, AudioTrack);
        && ts == old(webrtc.LocalTracks())
        && Snapshot() == old(Snapshot()).(isMuted := k < |ts| && !ts[k].enabled)
        && (k < |ts| ==> ts[k].enabled == !old(ts[k].enabled))
        && (forall t :: t in ts && (k == |ts| || t != ts[k]) ==> t.enabled == old(t.enabled))
        && (forall t :: t in ts ==> t.stopped == old(t.stopped))
    {
      if webrtc != null {
        var muted := webrtc.ToggleMute();
        isMuted := muted;
      }
    }

    /** Mirrors the session's answer into `isCameraOff`; no session, no change. */
    method ToggleCamera()
      requires Valid()
      modifies this, if webrtc != null then TrackSet(webrtc.LocalTracks()) else {}
      ensures webrtc == old(webrtc)
      ensures old(webrtc) == null ==> Snapshot() == old(Snapshot())
      ensures old(webrtc) != null ==>
        var ts := webrtc.LocalTracks(); var k := FirstOfKind(ts, VideoTrack);
        && ts == old(webrtc.LocalTracks())
        && Snapshot() == old(Snapshot()).(isCameraOff := k < |ts| && !ts[k].enabled)
        && (k < |ts| ==> ts[k].enabled == !old(ts[k].enabled))
        && (forall t :: t in ts && (k == |ts| || t != ts[k]) ==> t.enabled == old(t.enabled))
        && (forall t :: t in ts ==> t.stopped == old(t.stopped))
    {
      if webrtc != null {
        var off := webrtc.ToggleCamera();
        isCameraOff := off;
      }
    }

    /**
     * Unmounting closes the media session, if any; the reference to it is
     * kept and nothing else of the controller changes.
     */
    method Unmount()
      requires Valid()
      modifies Repr()
      ensures Valid() && webrtc == old(webrtc) && EmittedNothing()
      ensures Snapshot() == old(Snapshot()).(callState := if old(webrtc) != null then Idle else old(view.callState))
      ensures webrtc != null ==>
        && webrtc.peerConnection == null && webrtc.localStream == null
        && webrtc.remoteStream == null && webrtc.callState == Idle
        && (forall t :: t in old(webrtc.LocalTracks()) + old(webrtc.RemoteTracks()) ==> t.stopped)
        && (old(webrtc.peerConnection) != null ==> old(webrtc.peerConnection).closed)
    {
      if webrtc != null {
        webrtc.Close();
      }
    }
  }
}
