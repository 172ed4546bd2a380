/**
 * The client's shared vocabulary: call states and kinds, users, conversations
 * and messages, as the client receives them from the server.
 *
 * Timestamps are the numbers `new Date(s).getTime()` yields for the server's
 * ISO-8601 strings; the parsing itself is not modelled.
 */
module Types {

  datatype Option<+T> = None | Some(value: T)

  /** The call state shared by the media session and the call controller. */
  datatype CallState = Idle | Calling | Ringing | Connecting | Connected | Ended

  datatype CallType = Voice | Video

  /**
   * Message kinds. Besides the four of the message type declaration, the
   * conversation preview also distinguishes VIDEO and AUDIO messages.
   */
  datatype MessageType = Text | Image | VideoMsg | AudioMsg | File | System

  datatype MessageStatus = Sent | Delivered | Read

  datatype ConversationType = Direct | Group

  datatype User = User(
    id: string,
    username: string,
    email: string,
    displayName: Option<string>,
    isOnline: bool)

  datatype Participant = Participant(userId: string, user: User)

  datatype Message = Message(
    id: string,
    content: string,
    msgType: MessageType,
    status: MessageStatus,
    senderId: string,
    conversationId: string,
    createdAt: int,
    updatedAt: int)

  datatype Conversation = Conversation(
    id: string,
    convType: ConversationType,
    name: Option<string>,
    participants: seq<Participant>,
    lastMessage: Option<Message>,
    updatedAt: int)

  /**
   * JavaScript truthiness of an optional string: `undefined` and `""` are
   * both falsy.
   */
  predicate Truthy(s: Option<string>)
  {
    s.Some? && s.value != ""
  }

  /**
   * `user.displayName || user.username`: the display name when it is a
   * non-empty string, the username otherwise.
   */
  function UserLabel(u: User): (r: string)
    ensures Truthy(u.displayName) ==> r == u.displayName.value
    ensures !Truthy(u.displayName) ==> r == u.username
  {
    if Truthy(u.displayName) then u.displayName.value else u.username
  }

  /**
   * The position of the first participant that is not the signed-in user,
   * or `|ps|` when there is none. `me` is `None` when nobody is signed in,
   * and then every participant qualifies.
   */
  function FirstOtherIndex(ps: seq<Participant>, me: Option<string>): (k: nat)
    ensures k <= |ps|
    ensures forall i :: 0 <= i < k ==> Some(ps[i].userId) == me
    ensures k < |ps| ==> Some(ps[k].userId) != me
  {
    if |ps| == 0 then 0
    else if Some(ps[0].userId) != me then 0
    else 1 + FirstOtherIndex(ps[1..], me)
  }

  /** `participants.find(p => p.userId !== me)?.user` */
  function OtherParticipant(ps: seq<Participant>, me: Option<string>): (r: Option<User>)
    ensures r.None? <==> forall i :: 0 <= i < |ps| ==> Some(ps[i].userId) == me
    ensures r.Some? ==> exists k :: (0 <= k < |ps| && r.value == ps[k].user && Some(ps[k].userId) != me
      && forall j :: 0 <= j < k ==> Some(ps[j].userId) == me)
  {
    var k := FirstOtherIndex(ps, me);
    if k < |ps| then Some(ps[k].user) else None
  }

  /**
   * `participants.find(p => p.userId === userId)`: the first participant
   * with that user id.
   */
  function FindParticipant(ps: seq<Participant>, userId: string): (r: Option<Participant>)
    ensures r.None? <==> forall i :: 0 <= i < |ps| ==> ps[i].userId != userId
    ensures r.Some? ==> exists k :: (0 <= k < |ps| && r.value == ps[k] && ps[k].userId == userId
      && forall j :: 0 <= j < k ==> ps[j].userId != userId)
  {
    if |ps| == 0 then None
    else if ps[0].userId == userId then Some(ps[0])
    else
      var r := FindParticipant(ps[1..], userId);
      assert r.Some? ==> exists k :: (1 <= k < |ps| && r.value == ps[k] && ps[k].userId == userId
        && forall j :: 0 <= j < k ==> ps[j].userId != userId) by {
        if r.Some? {
          var k :| 0 <= k < |ps[1..]| && r.value == ps[1..][k] && ps[1..][k].userId == userId
            && forall j :: 0 <= j < k ==> ps[1..][j].userId != userId;
          assert forall j :: 0 <= j < k + 1 ==> ps[j].userId != userId by {
            forall j | 0 <= j < k + 1 ensures ps[j].userId != userId {
              if j > 0 { assert ps[j] == ps[1..][j - 1]; }
            }
          }
        }
      }
      r
  }
}
