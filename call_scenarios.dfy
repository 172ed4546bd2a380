/**
 * Consequences of the media session's and the call controller's contracts:
 * closing twice is closing once, toggling a track twice restores it, and a
 * freshly built controller forwards no local candidate on either side of a
 * call, because each side builds its session before the call id is bound.
 */
module CallScenarios {
  import opened Types
  import opened Signaling
  import opened WebRTC
  import opened CallHook

  /**
   * Closing twice ends where closing once does: the second close finds no
   * transport and no streams, so it stops nothing more.
   */
  method CloseTwice(s: WebRTCService)
    modifies s, s.peerConnection, s.sink, TrackSet(s.LocalTracks()), TrackSet(s.RemoteTracks())
    ensures forall t :: t in old(s.LocalTracks()) + old(s.RemoteTracks()) ==> t.stopped && t.enabled == old(t.enabled)
    ensures old(s.peerConnection) != null ==> old(s.peerConnection).closed
    ensures s.peerConnection == null && s.localStream == null && s.remoteStream == null
    ensures s.callState == Idle && (s.sink != null ==> s.sink.callState == Idle)
  {
    s.Close();
    assert s.LocalTracks() == [] && s.RemoteTracks() == [];
    s.Close();
  }

  /** Toggling a kind twice restores every track's flag; the second answer is the negation of the first. */
  method ToggleTwice(s: WebRTCService, kind: TrackKind) returns (first: bool, second: bool)
    modifies TrackSet(s.LocalTracks())
    ensures forall t :: t in s.LocalTracks() ==> t.enabled == old(t.enabled)
    ensures FirstOfKind(s.LocalTracks(), kind) < |s.LocalTracks()| ==> second == !first
    ensures FirstOfKind(s.LocalTracks(), kind) == |s.LocalTracks()| ==> !first && !second
  {
    first := s.ToggleFirst(kind);
    second := s.ToggleFirst(kind);
  }

  /**
   * The caller: the session is built in `initiateCall`, before
   * `call:initiated` binds the id, so once the id is bound a local
   * candidate still goes nowhere; only `call:initiate` was sent.
   */
  method CallerForwardsNothing(socket: Socket, peer: string, t: CallType, callId: string, cand: IceCandidate)
    returns (c: CallController)
    modifies socket
    ensures c.socket == socket && c.currentCallId == Some(callId)
    ensures c.webrtc != null && c.webrtc.iceCallId == None
    ensures socket.emitted == old(socket.emitted) + [CallInitiate(peer, t)]
  {
    c := new CallController(socket);
    c.InitiateCall(peer, t, true);
    c.OnInitiated(callId);
    c.webrtc.OnIceCandidate(Some(cand));
  }

  /**
   * The callee: the session is built in `acceptCall` before the pending id
   * is bound, so after accepting a local candidate goes nowhere either;
   * only `call:accept` was sent.
   */
  method CalleeForwardsNothing(socket: Socket, callId: string, caller: User, t: CallType, cand: IceCandidate)
    returns (c: CallController)
    modifies socket
    ensures c.socket == socket && c.currentCallId == Some(callId)
    ensures c.webrtc != null && c.webrtc.iceCallId == None
    ensures socket.emitted == old(socket.emitted) + [CallAccept(callId)]
  {
    c := new CallController(socket);
    c.OnIncoming(callId, caller, t);
    c.AcceptCall(true);
    c.webrtc.OnIceCandidate(Some(cand));
  }
}
