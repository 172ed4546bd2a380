/**
 * The call provider: it remembers who the call is with and of which kind,
 * wraps the controller's start, accept and end operations, and decides which
 * of the two call screens, the incoming-call modal or the call overlay, is
 * shown.
 */
module CallContext {
  import opened Types
  import opened Signaling
  import opened WebRTC
  import opened CallHook

  /** A call is in progress in every state but idle; an ended call still counts until it is cleared. */
  function IsInCall(s: CallState): (r: bool)
    ensures r <==> s == Calling || s == Ringing || s == Connecting || s == Connected || s == Ended
    ensures s == Idle ==> !r
  {
    s != Idle
  }

  /** The incoming-call modal: a pending call while ringing. */
  function ShowIncomingModal(incoming: Option<IncomingCall>, s: CallState): (r: bool)
    ensures r ==> s == Ringing && IsInCall(s)
    ensures incoming.None? ==> !r
    ensures incoming.Some? && s == Ringing ==> r
  {
    incoming.Some? && s == Ringing
  }

  /** The call overlay: in a call, not ringing, with a known peer. */
  function ShowCallOverlay(s: CallState, callUser: Option<User>): (r: bool)
    ensures r ==> IsInCall(s) && callUser.Some?
    ensures r ==> forall incoming :: !ShowIncomingModal(incoming, s)
    ensures s != Idle && s != Ringing && callUser.Some? ==> r
  {
    IsInCall(s) && s != Ringing && callUser.Some?
  }

  /** The two call screens are never shown together, and neither when idle. */
  lemma ScreensExclusive(incoming: Option<IncomingCall>, s: CallState, callUser: Option<User>)
    ensures !(ShowIncomingModal(incoming, s) && ShowCallOverlay(s, callUser))
    ensures s == Idle ==> !ShowIncomingModal(incoming, s) && !ShowCallOverlay(s, callUser)
  {
  }

  /** The name the call overlay shows for the peer. */
  function RemoteName(u: User): (r: string)
    ensures Truthy(u.displayName) ==> r == u.displayName.value
    ensures !Truthy(u.displayName) ==> r == u.username
  {
    UserLabel(u)
  }

  class CallProvider {
    const hook: CallController
    var callUser: Option<User>
    var callType: CallType

    ghost predicate Valid()
      reads this, hook, hook.webrtc
    {
      hook.Valid()
    }

    constructor (socket: Socket?)
      ensures fresh(hook) && hook.socket == socket && hook.webrtc == null && Valid()
      ensures hook.Snapshot() == HookState(Idle, null, null, false, false, None, None, false)
      ensures callUser == None && callType == Voice
    {
      hook := new CallController(socket);
      callUser := None;
      callType := Voice;
    }

    /** Whether the overlay for the current state is the call overlay. */
    function OverlayShown(): (r: bool)
      reads this, hook, hook.view
      ensures r ==> hook.view.callState != Idle && hook.view.callState != Ringing && callUser.Some?
      ensures hook.view.callState != Idle && hook.view.callState != Ringing && callUser.Some? ==> r
    {
      ShowCallOverlay(hook.view.callState, callUser)
    }

    /**
     * Records the peer and the call type and starts the call through the
     * controller; the peer stays recorded even when the controller does
     * nothing or capture fails. The provider's fields and the controller's
     * state are disjoint, so the provider's fields are set after the call
     * here without changing the outcome.
     */
    method StartCall(user: User, t: CallType, granted: bool)
      requires Valid()
      modifies this, hook.Repr()
      ensures Valid() && callUser == Some(user) && callType == t
      ensures hook.socket == null ==> hook.Untouched()
      ensures hook.socket != null && granted ==>
        && hook.socket.emitted == old(hook.socket.emitted) + [CallInitiate(user.id, t)]
        && hook.view.callState == Calling && hook.awaitingInitiated
        && OverlayShown()
      ensures hook.socket != null && !granted ==> hook.EmittedNothing()
    {
      hook.InitiateCall(user.id, t, granted);
      callUser := Some(user);
      callType := t;
    }

    /**
     * Accepting from the modal: with a pending call, copies its caller and
     * type and accepts through the controller; without one, nothing. With a
     * pending call but no socket, or with capture refused, nothing is sent
     * and the call stays pending.
     */
    method HandleAcceptCall(granted: bool)
      requires Valid()
      modifies this, hook.Repr()
      ensures Valid()
      ensures old(hook.incomingCall).None? ==>
        callUser == old(callUser) && callType == old(callType) && hook.Untouched()
      ensures old(hook.incomingCall).Some? ==>
        && callUser == Some(old(hook.incomingCall).value.caller)
        && callType == old(hook.incomingCall).value.callType
      ensures old(hook.incomingCall).Some? && hook.socket != null && granted ==>
        && hook.socket.emitted == old(hook.socket.emitted) + [CallAccept(old(hook.incomingCall).value.callId)]
        && hook.currentCallId == Some(old(hook.incomingCall).value.callId)
        && hook.incomingCall == None
      ensures old(hook.incomingCall).Some? && hook.socket == null ==> hook.Untouched()
      ensures old(hook.incomingCall).Some? && hook.socket != null && !granted ==>
        hook.EmittedNothing() && hook.incomingCall == old(hook.incomingCall)
        && hook.currentCallId == old(hook.currentCallId)
    {
      var pending := hook.incomingCall;
      if pending.Some? {
        hook.AcceptCall(granted);
        callUser := Some(pending.value.caller);
        callType := pending.value.callType;
      }
    }

    /**
     * `call:incoming` reaching the controller while the provider is mounted:
     * the pending call is recorded and the state rings, so the incoming-call
     * modal is what the provider renders, and the call overlay is not.
     */
    method ReceiveIncoming(callId: string, caller: User, t: CallType)
      requires Valid() && hook.socket != null
      modifies hook, hook.view
      ensures Valid() && callUser == old(callUser) && callType == old(callType)
      ensures hook.incomingCall == Some(IncomingCall(callId, caller, t))
      ensures ShowIncomingModal(hook.incomingCall, hook.view.callState) && !OverlayShown()
    {
      hook.OnIncoming(callId, caller, t);
    }

    /** Ends the call through the controller, then forgets the peer. */
    method HandleEndCall()
      requires Valid()
      modifies this, hook.Repr()
      ensures Valid() && callUser == None && callType == old(callType)
      ensures hook.webrtc == null && hook.Snapshot() == Cleared(old(hook.Snapshot()))
      ensures !IsInCall(hook.view.callState) && !OverlayShown()
      ensures !ShowIncomingModal(hook.incomingCall, hook.view.callState)
    {
      hook.EndCall();
      callUser := None;
    }
  }
}
