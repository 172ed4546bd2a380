/**
 * The sidebar's conversation filter: with a non-empty filter text, a
 * conversation is kept when the name it is known by contains the text,
 * ignoring case.
 */
module SidebarFilter {
  import opened Types
  import opened Text
  import opened Sequences

  /**
   * The name a conversation is searched by: a group's own name; for a
   * direct conversation, the username of the first participant who is not
   * the signed-in user. `None` when there is no such name.
   */
  function SearchName(c: Conversation, me: Option<string>): (r: Option<string>)
    ensures c.convType == Group ==> r == c.name
    ensures c.convType == Direct ==>
      (r.None? <==> OtherParticipant(c.participants, me).None?)
      && (r.Some? ==> r.value == OtherParticipant(c.participants, me).value.username)
  {
    if c.convType == Group then c.name
    else
      match OtherParticipant(c.participants, me)
      case Some(u) => Some(u.username)
      case None => None
  }

  /** Case-insensitive containment of `filter` in the conversation's search name. */
  function Matches(c: Conversation, filter: string, me: Option<string>): (r: bool)
    ensures filter == "" ==> r
    ensures filter != "" ==>
      (r <==> (SearchName(c, me).Some? && exists i :: OccursAt(ToLower(SearchName(c, me).value), ToLower(filter), i)))
  {
    match SearchName(c, me)
    case None => filter == ""
    case Some(name) =>
      IncludesIffOccurs(ToLower(name), ToLower(filter));
      filter == "" || Includes(ToLower(name), ToLower(filter))
  }

  /** The conversations the sidebar lists for the filter text. */
  function FilterConversations(cs: seq<Conversation>, filter: string, me: Option<string>): (r: seq<Conversation>)
    ensures forall c :: c in r <==> c in cs && Matches(c, filter, me)
    ensures forall c :: multiset(r)[c] == if Matches(c, filter, me) then multiset(cs)[c] else 0
  {
    Filter(cs, c => Matches(c, filter, me))
  }

  /** An empty filter lists every conversation, in order. */
  lemma EmptyFilterKeepsAll(cs: seq<Conversation>, me: Option<string>)
    ensures FilterConversations(cs, "", me) == cs
  {
    FilterAll(cs, c => Matches(c, "", me));
  }

  /** Filtering only leaves conversations out; it never adds or reorders. */
  lemma FilterKeepsOrder(cs: seq<Conversation>, filter: string, me: Option<string>)
    ensures IsSubsequence(FilterConversations(cs, filter, me), cs)
  {
    FilterSubsequence(cs, c => Matches(c, filter, me));
  }

  /** With a non-empty filter, a conversation without a search name is never listed. */
  lemma NamelessExcluded(cs: seq<Conversation>, filter: string, me: Option<string>, c: Conversation)
    requires filter != "" && SearchName(c, me).None?
    ensures c !in FilterConversations(cs, filter, me)
  {
  }

  /**
   * Case-insensitivity: a conversation is listed for a filter exactly when
   * it is listed for the filter lower-cased, and it is listed when the
   * filter occurs in its search name verbatim.
   */
  lemma {:induction false} MatchIgnoresCase(c: Conversation, filter: string, me: Option<string>)
    ensures Matches(c, filter, me) <==> Matches(c, ToLower(filter), me)
    ensures SearchName(c, me).Some? && Includes(SearchName(c, me).value, filter) ==> Matches(c, filter, me)
  {
    ToLowerIdempotent(filter);
    if filter != "" && SearchName(c, me).Some? && Includes(SearchName(c, me).value, filter) {
      var name := SearchName(c, me).value;
      IncludesIffOccurs(name, filter);
      var i :| OccursAt(name, filter, i);
      assert ToLower(name)[i..i + |filter|] == ToLower(filter);
      assert OccursAt(ToLower(name), ToLower(filter), i);
      IncludesIffOccurs(ToLower(name), ToLower(filter));
    }
  }
}
