/**
 * One entry of the conversation list: the name it shows and the preview of
 * its last message.
 */
module ConversationEntry {
  import opened Types

  const ImageLabel: string := "\U{1F4F7} Imagem"
  const VideoLabel: string := "\U{1F3A5} V\U{00ED}deo"
  const AudioLabel: string := "\U{1F3A4} \U{00C1}udio"
  const FileLabel: string := "\U{1F4CE} Arquivo"

  /**
   * A group shows its own name; a direct conversation shows the label of
   * the first participant who is not the signed-in user.
   */
  function DisplayName(c: Conversation, me: Option<string>): (r: Option<string>)
    ensures c.convType == Group ==> r == c.name
    ensures c.convType == Direct ==>
      (r.None? <==> forall i :: 0 <= i < |c.participants| ==> Some(c.participants[i].userId) == me)
    ensures c.convType == Direct && r.Some? ==>
      exists k :: 0 <= k < |c.participants| && Some(c.participants[k].userId) != me
        && r.value == UserLabel(c.participants[k].user)
        && forall j :: 0 <= j < k ==> Some(c.participants[j].userId) == me
    ensures c.convType == Direct && r.Some? ==> r.value == UserLabel(OtherParticipant(c.participants, me).value)
  {
    if c.convType == Group then c.name
    else
      match OtherParticipant(c.participants, me)
      case Some(u) => Some(UserLabel(u))
      case None => None
  }

  /** The media label for a message type, if it has one. */
  function MediaLabel(t: MessageType): (r: Option<string>)
    ensures r.None? <==> t == Text || t == System
    ensures t == Image ==> r == Some(ImageLabel)
    ensures t == VideoMsg ==> r == Some(VideoLabel)
    ensures t == AudioMsg ==> r == Some(AudioLabel)
    ensures t == File ==> r == Some(FileLabel)
  {
    match t
    case Image => Some(ImageLabel)
    case VideoMsg => Some(VideoLabel)
    case AudioMsg => Some(AudioLabel)
    case File => Some(FileLabel)
    case _ => None
  }

  /**
   * The preview line: nothing without a last message; the fixed label for
   * media messages; the text itself otherwise.
   */
  function LastMessagePreview(c: Conversation): (r: string)
    ensures c.lastMessage.None? ==> r == ""
    ensures c.lastMessage.Some? && MediaLabel(c.lastMessage.value.msgType).Some? ==>
      r == MediaLabel(c.lastMessage.value.msgType).value
    ensures c.lastMessage.Some? && MediaLabel(c.lastMessage.value.msgType).None? ==>
      r == c.lastMessage.value.content
  {
    match c.lastMessage
    case None => ""
    case Some(m) =>
      match MediaLabel(m.msgType)
      case Some(tag) => tag
      case None => m.content
  }

  /** The four media labels are pairwise distinct, so the preview tells the kinds apart. */
  lemma MediaLabelsDistinct(s: MessageType, t: MessageType)
    requires MediaLabel(s).Some? && MediaLabel(t).Some? && s != t
    ensures MediaLabel(s) != MediaLabel(t)
  {
  }
}
