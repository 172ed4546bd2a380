/**
 * The client side of the signalling channel: the events the client sends to
 * the server, and the socket, observed as the append-only sequence of the
 * events emitted on it. Connection set-up and the network are outside the
 * model; inbound events are the arguments of the handler methods.
 */
module Signaling {
  import opened Types

  datatype SdpType = Offer | Answer

  /** A session description; its SDP text is an opaque token here. */
  datatype SessionDescription = SessionDescription(sdpType: SdpType, sdp: string)

  /** An ICE candidate, opaque. */
  type IceCandidate = string

  /** Client-to-server events used by the call machine and the chat page. */
  datatype ClientEvent =
    | CallInitiate(receiverId: string, callType: CallType)
    | CallAccept(callId: string)
    | CallReject(callId: string)
    | CallEnd(callId: string)
    | RtcOffer(callId: string, offer: SessionDescription)
    | RtcAnswer(callId: string, answer: SessionDescription)
    | RtcIceCandidate(callId: string, candidate: IceCandidate)
    | MessageSend(conversationId: string, content: string)

  /** A connected socket; `emitted` is everything sent on it, oldest first. */
  class Socket {
    var emitted: seq<ClientEvent>

    constructor ()
      ensures emitted == []
    {
      emitted := [];
    }

    method Emit(e: ClientEvent)
      modifies this
      ensures emitted == old(emitted) + [e]
    {
      emitted := emitted + [e];
    }
  }
}
