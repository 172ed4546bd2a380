/**
 * The chat page: the message list with its optimistic `temp-` messages, the
 * conversation list kept most-recent first, the map of users typing in the
 * selected conversation, and the header information for the selection.
 *
 * The list updaters are pure functions; the page's handlers replace its
 * state with their results. Server replies arrive as parameters (`None` for
 * a failed request), and `now` stands for `Date.now()`.
 */
module ChatPage {
  import opened Types
  import opened Text
  import opened Signaling
  import opened Sequences

  const TempPrefix: string := "temp-"
  const GroupFallbackName: string := "Grupo"

  /** An optimistic message not yet confirmed by the server. */
  predicate IsTemp(m: Message)
  {
    StartsWith(m.id, TempPrefix)
  }

  /** The messages that are not temporary, in their order. */
  function WithoutTemp(ms: seq<Message>): (r: seq<Message>)
    ensures forall m :: m in r <==> m in ms && !IsTemp(m)
    ensures forall m :: multiset(r)[m] == if IsTemp(m) then 0 else multiset(ms)[m]
  {
    Filter(ms, m => !IsTemp(m))
  }

  /** Dropping the temporary messages keeps the rest in order. */
  lemma WithoutTempSubsequence(ms: seq<Message>)
    ensures IsSubsequence(WithoutTemp(ms), ms)
  {
    FilterSubsequence(ms, m => !IsTemp(m));
  }

  /**
   * The message list after `message:new`: the signed-in user's own message
   * replaces every temporary message; anyone else's is appended.
   */
  function ReconcileMessages(prev: seq<Message>, m: Message, me: Option<string>): (r: seq<Message>)
    ensures |r| > 0 && r[|r| - 1] == m
    ensures Some(m.senderId) == me ==> r[..|r| - 1] == WithoutTemp(prev)
    ensures Some(m.senderId) != me ==> r[..|r| - 1] == prev
  {
    if Some(m.senderId) == me then WithoutTemp(prev) + [m] else prev + [m]
  }

  /** After the user's own message arrives, no temporary message is left but that message itself. */
  lemma OwnMessageClearsTemp(prev: seq<Message>, m: Message, me: Option<string>)
    requires Some(m.senderId) == me
    ensures forall x :: x in ReconcileMessages(prev, m, me) && IsTemp(x) ==> x == m
    ensures forall x :: x in prev && !IsTemp(x) ==> x in ReconcileMessages(prev, m, me)
  {
    var r := ReconcileMessages(prev, m, me);
    assert r == r[..|r| - 1] + [m];
    forall x | x in prev && !IsTemp(x) ensures x in r {
      assert x in r[..|r| - 1];
    }
  }

  /** The conversation of `m` carries it as its last message and takes its time. */
  function WithLastMessage(cs: seq<Conversation>, m: Message): (r: seq<Conversation>)
    ensures |r| == |cs|
    ensures forall i :: 0 <= i < |cs| && cs[i].id == m.conversationId ==>
      r[i] == cs[i].(lastMessage := Some(m), updatedAt := m.createdAt)
    ensures forall i :: 0 <= i < |cs| && cs[i].id != m.conversationId ==> r[i] == cs[i]
  {
    seq(|cs|, i requires 0 <= i < |cs| =>
      if cs[i].id == m.conversationId then cs[i].(lastMessage := Some(m), updatedAt := m.createdAt) else cs[i])
  }

  predicate SortedByRecency(cs: seq<Conversation>)
  {
    forall i, j :: 0 <= i < j < |cs| ==> cs[i].updatedAt >= cs[j].updatedAt
  }

  /**
   * Places `c` before the first conversation that is not more recent than
   * it, so that among equally recent ones it stays first.
   */
  function Insert(c: Conversation, cs: seq<Conversation>): (r: seq<Conversation>)
    ensures |r| == |cs| + 1
  {
    if |cs| == 0 || cs[0].updatedAt <= c.updatedAt then [c] + cs
    else [cs[0]] + Insert(c, cs[1..])
  }

  /**
   * The list sorted most recent first; equally recent conversations keep
   * their relative order, as with the stable sort of the runtime.
   */
  function SortByRecency(cs: seq<Conversation>): (r: seq<Conversation>)
    ensures |r| == |cs|
  {
    if |cs| == 0 then [] else Insert(cs[0], SortByRecency(cs[1..]))
  }

  lemma {:induction false} InsertPermutes(c: Conversation, cs: seq<Conversation>)
    ensures multiset(Insert(c, cs)) == multiset(cs) + multiset{c}
  {
    if |cs| > 0 && cs[0].updatedAt > c.updatedAt {
      InsertPermutes(c, cs[1..]);
      assert cs == [cs[0]] + cs[1..];
    }
  }

  lemma {:induction false} InsertSorted(c: Conversation, cs: seq<Conversation>)
    requires SortedByRecency(cs)
    ensures SortedByRecency(Insert(c, cs))
  {
    if |cs| > 0 && cs[0].updatedAt > c.updatedAt {
      InsertSorted(c, cs[1..]);
      InsertPermutes(c, cs[1..]);
      var r := Insert(c, cs[1..]);
      forall k | 0 <= k < |r| ensures cs[0].updatedAt >= r[k].updatedAt {
        assert r[k] in multiset(r);
        if r[k] != c {
          assert r[k] in multiset(cs[1..]);
          var j :| 0 <= j < |cs[1..]| && cs[1..][j] == r[k];
          assert cs[j + 1] == r[k];
        }
      }
      var full := [cs[0]] + r;
      forall i, j | 0 <= i < j < |full| ensures full[i].updatedAt >= full[j].updatedAt {
        if i > 0 { assert full[i] == r[i - 1] && full[j] == r[j - 1]; }
        else { assert full[j] == r[j - 1]; }
      }
    }
  }

  /** Sorting yields the same conversations, most recent first. */
  lemma {:induction false} SortByRecencyCorrect(cs: seq<Conversation>)
    ensures SortedByRecency(SortByRecency(cs))
    ensures multiset(SortByRecency(cs)) == multiset(cs)
  {
    if |cs| > 0 {
      SortByRecencyCorrect(cs[1..]);
      InsertSorted(cs[0], SortByRecency(cs[1..]));
      InsertPermutes(cs[0], SortByRecency(cs[1..]));
      assert cs == [cs[0]] + cs[1..];
    }
  }

  /**
   * The typing map after `typing:update`: a user who starts typing is added
   * under their username when they take part in the selected conversation;
   * a user who stops is removed; no other entry changes.
   */
  function TypingUpdate(prev: map<string, string>, selected: Option<Conversation>, userId: string, isTyping: bool)
    : (r: map<string, string>)
    ensures !isTyping ==> userId !in r
    ensures isTyping && selected.Some? && FindParticipant(selected.value.participants, userId).Some? ==>
      userId in r && r[userId] == FindParticipant(selected.value.participants, userId).value.user.username
    ensures isTyping && (selected.None? || FindParticipant(selected.value.participants, userId).None?) ==> r == prev
    ensures forall k :: k != userId ==> (k in r <==> k in prev) && (k in r ==> r[k] == prev[k])
  {
    if isTyping then
      if selected.Some? then
        match FindParticipant(selected.value.participants, userId)
        case Some(p) => prev[userId := p.user.username]
        case None => prev
      else prev
    else prev - {userId}
  }

  /** Whether some conversation in `cs` has id `id`. */
  predicate HasConversation(cs: seq<Conversation>, id: string)
  {
    exists i :: 0 <= i < |cs| && cs[i].id == id
  }

  /** A direct conversation opened from search is added in front unless it is listed. */
  function AddIfAbsent(cs: seq<Conversation>, c: Conversation): (r: seq<Conversation>)
    ensures HasConversation(cs, c.id) ==> r == cs
    ensures !HasConversation(cs, c.id) ==> r == [c] + cs
    ensures HasConversation(r, c.id)
  {
    if HasConversation(cs, c.id) then cs
    else
      assert ([c] + cs)[0] == c;
      [c] + cs
  }

  /** Adding a conversation twice is adding it once. */
  lemma {:induction false} AddIfAbsentIdempotent(cs: seq<Conversation>, c: Conversation)
    ensures AddIfAbsent(AddIfAbsent(cs, c), c) == AddIfAbsent(cs, c)
  {
    var r := AddIfAbsent(cs, c);
    assert HasConversation(r, c.id);
  }

  /**
   * The peer of a direct selection, the first participant who is not the
   * signed-in user; none for a group or no selection.
   */
  function GetOtherUser(selected: Option<Conversation>, me: Option<string>): (r: Option<User>)
    ensures selected.None? || selected.value.convType == Group ==> r.None?
    ensures r.Some? ==> exists k :: (0 <= k < |selected.value.participants|
      && selected.value.participants[k].user == r.value && Some(selected.value.participants[k].userId) != me)
    ensures selected.Some? && selected.value.convType == Direct ==>
      (r.None? <==> forall i :: 0 <= i < |selected.value.participants| ==> Some(selected.value.participants[i].userId) == me)
    ensures selected.Some? && selected.value.convType == Direct ==> r == OtherParticipant(selected.value.participants, me)
  {
    if selected.None? || selected.value.convType != Direct then None
    else OtherParticipant(selected.value.participants, me)
  }

  datatype ConversationInfo =
    | GroupInfo(name: string, participantCount: nat)
    | DirectInfo(name: string, isOnline: bool)

  /** The header line for the selection, when there is one to show. */
  function GetConversationInfo(selected: Option<Conversation>, me: Option<string>): (r: Option<ConversationInfo>)
    ensures selected.None? ==> r.None?
    ensures selected.Some? && selected.value.convType == Group ==>
      && r.Some? && r.value.GroupInfo?
      && r.value.participantCount == |selected.value.participants|
      && r.value.name == (if Truthy(selected.value.name) then selected.value.name.value else GroupFallbackName)
    ensures selected.Some? && selected.value.convType == Direct ==>
      (r.Some? <==> GetOtherUser(selected, me).Some?)
    ensures r.Some? && r.value.DirectInfo? ==>
      var u := GetOtherUser(selected, me).value;
      r.value.name == UserLabel(u) && r.value.isOnline == u.isOnline
  {
    if selected.None? then None
    else if selected.value.convType == Group then
      Some(GroupInfo(if Truthy(selected.value.name) then selected.value.name.value else GroupFallbackName,
                     |selected.value.participants|))
    else
      match GetOtherUser(selected, me)
      case Some(u) => Some(DirectInfo(UserLabel(u), u.isOnline))
      case None => None
  }

  /** The message an optimistic send shows at once. */
  function OptimisticMessage(content: string, me: string, conversationId: string, now: nat): (r: Message)
    ensures IsTemp(r) && r.content == content && r.msgType == Text && r.status == Sent
    ensures r.senderId == me && r.conversationId == conversationId
  {
    assert (TempPrefix + Decimal(now))[..|TempPrefix|] == TempPrefix;
    Message(TempPrefix + Decimal(now), content, Text, Sent, me, conversationId, now, now)
  }

  /** Optimistic messages built at different times have different ids. */
  lemma OptimisticIdsDistinct(c1: string, c2: string, me1: string, me2: string, id1: string, id2: string, t1: nat, t2: nat)
    requires t1 != t2
    ensures OptimisticMessage(c1, me1, id1, t1).id != OptimisticMessage(c2, me2, id2, t2).id
  {
    var a := TempPrefix + Decimal(t1);
    var b := TempPrefix + Decimal(t2);
    assert a[|TempPrefix|..] == Decimal(t1);
    assert b[|TempPrefix|..] == Decimal(t2);
    DecimalInjective(t1, t2);
  }

  class ChatPageState {
    /** The signed-in user's id; `None` when nobody is signed in. */
    const me: Option<string>
    const socket: Socket?
    var conversations: seq<Conversation>
    var selected: Option<Conversation>
    var messages: seq<Message>
    var typingUsers: map<string, string>

    constructor (me: Option<string>, socket: Socket?, conversations: seq<Conversation>)
      ensures this.me == me && this.socket == socket && this.conversations == conversations
      ensures selected == None && messages == [] && typingUsers == map[]
    {
      this.me := me;
      this.socket := socket;
      this.conversations := conversations;
      selected := None;
      messages := [];
      typingUsers := map[];
    }

    /**
     * `message:new`: reconciles the message list, and moves the message into
     * its conversation, re-sorting the list most recent first.
     */
    method HandleNewMessage(m: Message)
      modifies this
      ensures messages == ReconcileMessages(old(messages), m, me)
      ensures conversations == SortByRecency(WithLastMessage(old(conversations), m))
      ensures SortedByRecency(conversations)
      ensures multiset(conversations) == multiset(WithLastMessage(old(conversations), m))
      ensures selected == old(selected) && typingUsers == old(typingUsers)
    {
      messages := ReconcileMessages(messages, m, me);
      conversations := SortByRecency(WithLastMessage(conversations, m));
      SortByRecencyCorrect(WithLastMessage(old(conversations), m));
    }

    /** `typing:update` */
    method HandleTypingUpdate(userId: string, isTyping: bool)
      modifies this
      ensures typingUsers == TypingUpdate(old(typingUsers), selected, userId, isTyping)
      ensures conversations == old(conversations) && selected == old(selected) && messages == old(messages)
    {
      typingUsers := TypingUpdate(typingUsers, selected, userId, isTyping);
    }

    /**
     * Sends a text message. Without a selection or a socket nothing happens;
     * with nobody signed in building the message fails and nothing happens.
     * Otherwise one optimistic message is appended, and `message:send` goes
     * out when the selected conversation's id is non-empty.
     */
    method HandleSendMessage(content: string, now: nat)
      modifies this, socket
      ensures conversations == old(conversations) && selected == old(selected)
      ensures typingUsers == old(typingUsers)
      ensures selected.None? || socket == null || me.None? ==>
        messages == old(messages) && (socket != null ==> socket.emitted == old(socket.emitted))
      ensures selected.Some? && socket != null && me.Some? ==>
        && messages == old(messages) + [OptimisticMessage(content, me.value, selected.value.id, now)]
        && socket.emitted == old(socket.emitted)
             + (if selected.value.id != "" then [MessageSend(selected.value.id, content)] else [])
    {
      if selected.None? || socket == null || me.None? {
        return;
      }
      messages := messages + [OptimisticMessage(content, me.value, selected.value.id, now)];
      if selected.value.id != "" {
        socket.Emit(MessageSend(selected.value.id, content));
      }
    }

    /**
     * Opens the direct conversation the server returned (`None` when the
     * request failed, which changes nothing): listed once, and selected.
     */
    method HandleStartConversation(fetched: Option<Conversation>)
      modifies this
      ensures fetched.None? ==> conversations == old(conversations) && selected == old(selected)
      ensures fetched.Some? ==>
        conversations == AddIfAbsent(old(conversations), fetched.value) && selected == fetched
      ensures messages == old(messages) && typingUsers == old(typingUsers)
    {
      if fetched.Some? {
        conversations := AddIfAbsent(conversations, fetched.value);
        selected := fetched;
      }
    }

    /** A created group goes in front, unconditionally, and is selected. */
    method HandleGroupCreated(c: Conversation)
      modifies this
      ensures conversations == [c] + old(conversations) && selected == Some(c)
      ensures messages == old(messages) && typingUsers == old(typingUsers)
    {
      conversations := [c] + conversations;
      selected := Some(c);
    }
  }
}
