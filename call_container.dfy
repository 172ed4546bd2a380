/**
 * What the call overlay shows: the status line for each call state, whether
 * the call is a video call, and when the status overlay, the audio
 * visualizer and the avatar initial appear.
 */
module CallView {
  import opened Types
  import opened Text

  const CallingLabel: string := "Chamando..."
  const RingingLabel: string := "Tocando..."
  const ConnectingLabel: string := "Conectando..."
  const ConnectedLabel: string := "Conectado"

  /** The status line: one label per active state, nothing for idle and ended. */
  function StatusText(s: CallState): (r: string)
    ensures s == Calling <==> r == CallingLabel
    ensures s == Ringing <==> r == RingingLabel
    ensures s == Connecting <==> r == ConnectingLabel
    ensures s == Connected <==> r == ConnectedLabel
    ensures r == "" <==> s == Idle || s == Ended
  {
    match s
    case Calling => CallingLabel
    case Ringing => RingingLabel
    case Connecting => ConnectingLabel
    case Connected => ConnectedLabel
    case _ => ""
  }

  /** Two states share a status line only when both have none. */
  lemma StatusTextDistinct(s: CallState, t: CallState)
    requires s != t && StatusText(s) == StatusText(t)
    ensures StatusText(s) == "" && (s == Idle || s == Ended) && (t == Idle || t == Ended)
  {
  }

  /** Only a video call shows video; every other call is a voice call. */
  function IsVideoCall(t: CallType): (r: bool)
    ensures r <==> t != Voice
  {
    t == Video
  }

  /** The spinner overlay covers a video call until it is connected. */
  function ShowStatusOverlay(t: CallType, s: CallState): (r: bool)
    ensures r ==> t == Video && StatusText(s) != ConnectedLabel
    ensures !r ==> t == Voice || StatusText(s) == ConnectedLabel
  {
    IsVideoCall(t) && s != Connected
  }

  /** The audio visualizer: a voice call in the connected state. */
  function ShowVisualizer(t: CallType, s: CallState): (r: bool)
    ensures r ==> t == Voice && s == Connected
    ensures r ==> !ShowStatusOverlay(t, s)
    ensures t == Voice && s == Connected ==> r
  {
    !IsVideoCall(t) && s == Connected
  }

  /**
   * One of the status overlay and the visualizer is on screen exactly when
   * the call is a video call that is not yet connected or a connected voice
   * call; a connected video call and an unconnected voice call show neither.
   */
  lemma OverlayOrVisualizer(t: CallType, s: CallState)
    ensures ShowStatusOverlay(t, s) || ShowVisualizer(t, s) <==> ((t == Video) != (s == Connected))
  {
  }

  predicate IsLowerLetter(c: char)
  {
    ('a' <= c <= 'z') || ('\U{00E0}' <= c <= '\U{00FE}' && c != '\U{00F7}')
  }

  /** Upper-case mapping of one character (ASCII and Latin-1 letters). */
  function UpperChar(c: char): (r: char)
    ensures IsLowerLetter(c) ==> IsUpper(r) && LowerChar(r) == c
    ensures !IsLowerLetter(c) ==> r == c
  {
    if IsLowerLetter(c) then (c as int - 32) as char else c
  }

  /** `name.charAt(0).toUpperCase()`: the voice-call avatar's letter. */
  function Initial(name: string): (r: string)
    ensures name == "" <==> r == ""
    ensures name != "" ==> r == [UpperChar(name[0])] && !IsLowerLetter(r[0])
  {
    if name == "" then "" else [UpperChar(name[0])]
  }
}
