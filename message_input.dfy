/**
 * The message composer: its text, the typing flag with its stop timer, and
 * the calls it makes to the page (`onTypingStart`, `onTypingStop`,
 * `onSend`), recorded in order.
 *
 * Timers are numbered in the order they are set; a cleared timer never
 * fires, and the stop timer's two-second delay is not modelled.
 */
module Composer {
  import opened Types
  import opened Text

  datatype InputCall = TypingStart | TypingStop | Send(content: string)

  /** The latest typing start or stop among `calls`, if any. */
  function LastTypingSignal(calls: seq<InputCall>): (r: Option<InputCall>)
    ensures r.Some? ==> r.value in calls && (r.value == TypingStart || r.value == TypingStop)
    ensures r.None? ==> forall i :: 0 <= i < |calls| ==> calls[i].Send?
    ensures r.Some? ==> exists i :: (0 <= i < |calls| && calls[i] == r.value
      && forall j :: i < j < |calls| ==> calls[j].Send?)
  {
    if |calls| == 0 then None
    else if calls[|calls| - 1].Send? then
      var prefix := calls[..|calls| - 1];
      var r := LastTypingSignal(prefix);
      if r.Some? then
        var i :| 0 <= i < |prefix| && prefix[i] == r.value && forall j :: i < j < |prefix| ==> prefix[j].Send?;
        assert calls[i] == r.value && forall j :: i < j < |calls| ==> calls[j].Send?;
        r
      else r
    else Some(calls[|calls| - 1])
  }

  /** The send button is disabled when the input is, or there is nothing but white space to send. */
  function SendDisabled(disabled: bool, content: string): (r: bool)
    ensures !r ==> !disabled && Trim(content) != ""
    ensures !disabled && Trim(content) != "" ==> !r
  {
    disabled || Trim(content) == ""
  }

  /** The button is enabled exactly when the input is enabled and some character is not white space. */
  lemma {:induction false} SendEnabledIffText(disabled: bool, content: string)
    ensures !SendDisabled(disabled, content) <==> !disabled && !AllWhite(content)
  {
    TrimEmptyIffAllWhite(content);
  }

  class MessageInput {
    const disabled: bool
    var content: string
    var isTyping: bool
    /** The stop timer that is set and not cleared, if any. */
    var armed: Option<nat>
    var nextTimer: nat
    var calls: seq<InputCall>

    /**
     * A stop timer is pending exactly while the typing flag is set, and the
     * flag is set exactly when the last start-or-stop call was a start.
     */
    ghost predicate Valid()
      reads this
    {
      && (armed.Some? <==> isTyping)
      && (armed.Some? ==> armed.value < nextTimer)
      && (isTyping <==> LastTypingSignal(calls) == Some(TypingStart))
    }

    constructor (disabled: bool)
      ensures Valid() && this.disabled == disabled
      ensures content == "" && !isTyping && armed == None && calls == []
    {
      this.disabled := disabled;
      content := "";
      isTyping := false;
      armed := None;
      nextTimer := 0;
      calls := [];
    }

    /**
     * A keystroke: the text is replaced; a start is signalled only when not
     * already typing; the pending stop timer is cleared and a new one set.
     */
    method Change(value: string)
      requires Valid()
      modifies this
      ensures Valid() && content == value && isTyping
      ensures calls == old(calls) + (if old(isTyping) then [] else [TypingStart])
      ensures armed == Some(old(nextTimer)) && nextTimer == old(nextTimer) + 1
    {
      content := value;
      if !isTyping {
        isTyping := true;
        calls := calls + [TypingStart];
      }
      armed := Some(nextTimer);
      nextTimer := nextTimer + 1;
    }

    /**
     * Timer `id` expires. Only the pending timer fires: it clears the flag
     * and signals a stop. Cleared or unknown timers change nothing.
     */
    method TimerExpires(id: nat)
      requires Valid()
      modifies this
      ensures Valid() && content == old(content) && nextTimer == old(nextTimer)
      ensures old(armed) == Some(id) ==> !isTyping && armed == None && calls == old(calls) + [TypingStop]
      ensures old(armed) != Some(id) ==> isTyping == old(isTyping) && armed == old(armed) && calls == old(calls)
    {
      if armed == Some(id) {
        isTyping := false;
        armed := None;
        calls := calls + [TypingStop];
      }
    }

    /**
     * Submitting: white space only does nothing. Otherwise the trimmed text
     * is sent, the input emptied, the timer cleared, the flag reset and a
     * stop signalled, in that order.
     */
    method Submit()
      requires Valid()
      modifies this
      ensures Valid() && nextTimer == old(nextTimer)
      ensures Trim(old(content)) == "" ==>
        content == old(content) && isTyping == old(isTyping) && armed == old(armed) && calls == old(calls)
      ensures Trim(old(content)) != "" ==>
        && calls == old(calls) + [Send(Trim(old(content))), TypingStop]
        && content == "" && !isTyping && armed == None
    {
      var trimmed := Trim(content);
      if trimmed == "" {
        return;
      }
      calls := calls + [Send(trimmed)];
      content := "";
      armed := None;
      isTyping := false;
      calls := calls + [TypingStop];
    }

    /** Unmounting clears the pending timer; nothing else happens. */
    method Unmount()
      modifies this
      ensures armed == None
      ensures content == old(content) && isTyping == old(isTyping) && calls == old(calls)
      ensures nextTimer == old(nextTimer)
    {
      armed := None;
    }
  }
}
