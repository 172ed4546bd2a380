/**
 * The create-group dialog: the group name, the user search with its results,
 * the members picked so far, and the creation request.
 *
 * The search runs as one step once the query has settled (the debounce
 * delay is not modelled); server replies are parameters, `None` for a
 * failed request. Whether the dialog is open is the parent's decision;
 * `onClose` and `onGroupCreated` are recorded as calls.
 */
module GroupModal {
  import opened Types
  import opened Text
  import opened Sequences

  const MinQueryLength: nat := 2

  /** Whether some selected user has id `id`. */
  predicate IsSelected(selected: seq<User>, id: string)
  {
    exists i :: 0 <= i < |selected| && selected[i].id == id
  }

  /** Search results without the users already picked, in the server's order. */
  function ExcludeSelected(results: seq<User>, selected: seq<User>): (r: seq<User>)
    ensures forall u :: u in r <==> u in results && !IsSelected(selected, u.id)
    ensures forall u :: multiset(r)[u] == if IsSelected(selected, u.id) then 0 else multiset(results)[u]
  {
    Filter(results, (u: User) => !IsSelected(selected, u.id))
  }

  /** The selection without any user with id `id`, the rest in order. */
  function RemoveById(selected: seq<User>, id: string): (r: seq<User>)
    ensures forall u :: u in r <==> u in selected && u.id != id
    ensures forall u :: multiset(r)[u] == if u.id == id then 0 else multiset(selected)[u]
    ensures !IsSelected(r, id)
  {
    Filter(selected, (u: User) => u.id != id)
  }

  /** Removing keeps the remaining members in their order. */
  lemma RemoveKeepsOrder(selected: seq<User>, id: string)
    ensures IsSubsequence(RemoveById(selected, id), selected)
  {
    FilterSubsequence(selected, (u: User) => u.id != id);
  }

  /** Removing a user who is not selected changes nothing. */
  lemma RemoveAbsent(selected: seq<User>, id: string)
    requires !IsSelected(selected, id)
    ensures RemoveById(selected, id) == selected
  {
    FilterAll(selected, (u: User) => u.id != id);
  }

  /** The create button is disabled when the name is blank, nobody is picked, or a request is running. */
  function CreateDisabled(groupName: string, selected: seq<User>, isCreating: bool): (r: bool)
    ensures !r ==> Trim(groupName) != "" && |selected| > 0 && !isCreating
    ensures Trim(groupName) == "" || |selected| == 0 || isCreating ==> r
  {
    Trim(groupName) == "" || |selected| == 0 || isCreating
  }

  /** What the creation request carries: the trimmed name and the member ids in selection order. */
  datatype GroupPayload = GroupPayload(name: string, participantIds: seq<string>)

  function Ids(users: seq<User>): (r: seq<string>)
    ensures |r| == |users| && forall i :: 0 <= i < |users| ==> r[i] == users[i].id
  {
    seq(|users|, i requires 0 <= i < |users| => users[i].id)
  }

  class CreateGroupModal {
    var isOpen: bool
    var groupName: string
    var searchQuery: string
    var users: seq<User>
    var selectedUsers: seq<User>
    var isLoading: bool
    var isCreating: bool
    /** Search requests sent, by query. */
    var searches: seq<string>
    /** Creation requests sent. */
    var requests: seq<GroupPayload>
    /** Groups handed to `onGroupCreated`. */
    var created: seq<Conversation>
    /** How many times `onClose` was called. */
    var closeCalls: nat

    constructor (isOpen: bool)
      ensures this.isOpen == isOpen && groupName == "" && searchQuery == "" && users == []
      ensures selectedUsers == [] && !isLoading && !isCreating
      ensures searches == [] && requests == [] && created == [] && closeCalls == 0
    {
      this.isOpen := isOpen;
      groupName := "";
      searchQuery := "";
      users := [];
      selectedUsers := [];
      isLoading := false;
      isCreating := false;
      searches := [];
      requests := [];
      created := [];
      closeCalls := 0;
    }

    method SetGroupName(value: string)
      modifies this
      ensures groupName == value
      ensures isOpen == old(isOpen) && searchQuery == old(searchQuery) && users == old(users)
      ensures selectedUsers == old(selectedUsers) && searches == old(searches) && requests == old(requests)
      ensures isCreating == old(isCreating) && created == old(created) && closeCalls == old(closeCalls)
    {
      groupName := value;
    }

    method SetSearchQuery(value: string)
      modifies this
      ensures searchQuery == value
      ensures isOpen == old(isOpen) && groupName == old(groupName) && users == old(users)
      ensures selectedUsers == old(selectedUsers) && searches == old(searches) && requests == old(requests)
      ensures isCreating == old(isCreating) && created == old(created) && closeCalls == old(closeCalls)
    {
      searchQuery := value;
    }

    /**
     * The parent opens or closes the dialog. Closing resets the name, the
     * query and the selection; the last results are kept.
     */
    method SetOpen(open: bool)
      modifies this
      ensures isOpen == open
      ensures !open ==> groupName == "" && searchQuery == "" && selectedUsers == []
      ensures open ==> groupName == old(groupName) && searchQuery == old(searchQuery)
      ensures open ==> selectedUsers == old(selectedUsers)
      ensures users == old(users) && searches == old(searches) && requests == old(requests)
      ensures isCreating == old(isCreating) && created == old(created) && closeCalls == old(closeCalls)
    {
      isOpen := open;
      if !open {
        groupName := "";
        searchQuery := "";
        selectedUsers := [];
      }
    }

    /**
     * The settled search. A closed dialog does nothing; a query shorter
     * than two characters clears the results without a request; otherwise
     * one request is sent and its results, minus the users already picked,
     * replace the list (a failed request keeps the old list).
     */
    method Search(results: Option<seq<User>>)
      modifies this
      ensures !isOpen ==> users == old(users) && searches == old(searches)
      ensures isOpen && |searchQuery| < MinQueryLength ==> users == [] && searches == old(searches)
      ensures isOpen && |searchQuery| >= MinQueryLength ==>
        && searches == old(searches) + [searchQuery]
        && (results.Some? ==> users == ExcludeSelected(results.value, selectedUsers))
        && (results.None? ==> users == old(users))
        && !isLoading
      ensures isOpen == old(isOpen) && groupName == old(groupName) && searchQuery == old(searchQuery)
      ensures selectedUsers == old(selectedUsers) && requests == old(requests)
      ensures isCreating == old(isCreating) && created == old(created) && closeCalls == old(closeCalls)
    {
      if !isOpen {
        return;
      }
      if |searchQuery| < MinQueryLength {
        users := [];
        return;
      }
      isLoading := true;
      searches := searches + [searchQuery];
      if results.Some? {
        users := ExcludeSelected(results.value, selectedUsers);
      }
      isLoading := false;
    }

    /** Picking a user appends it and clears the query and the results. */
    method SelectUser(u: User)
      modifies this
      ensures selectedUsers == old(selectedUsers) + [u] && searchQuery == "" && users == []
      ensures isOpen == old(isOpen) && groupName == old(groupName) && searches == old(searches)
      ensures requests == old(requests) && isCreating == old(isCreating)
      ensures created == old(created) && closeCalls == old(closeCalls)
    {
      selectedUsers := selectedUsers + [u];
      searchQuery := "";
      users := [];
    }

    method RemoveUser(id: string)
      modifies this
      ensures selectedUsers == RemoveById(old(selectedUsers), id)
      ensures isOpen == old(isOpen) && groupName == old(groupName) && searchQuery == old(searchQuery)
      ensures users == old(users) && searches == old(searches) && requests == old(requests)
      ensures isCreating == old(isCreating) && created == old(created) && closeCalls == old(closeCalls)
    {
      selectedUsers := RemoveById(selectedUsers, id);
    }

    /**
     * Creating: a blank name or an empty selection does nothing. Otherwise
     * one request goes out with the trimmed name and the member ids in
     * selection order; on success the group is handed to the parent and the
     * dialog asks to be closed; `isCreating` is off afterwards either way.
     */
    method CreateGroup(reply: Option<Conversation>)
      modifies this
      ensures Trim(old(groupName)) == "" || |old(selectedUsers)| == 0 ==>
        requests == old(requests) && created == old(created) && closeCalls == old(closeCalls)
        && isCreating == old(isCreating)
      ensures Trim(old(groupName)) != "" && |old(selectedUsers)| > 0 ==>
        && requests == old(requests) + [GroupPayload(Trim(old(groupName)), Ids(old(selectedUsers)))]
        && created == old(created) + (if reply.Some? then [reply.value] else [])
        && closeCalls == old(closeCalls) + (if reply.Some? then 1 else 0)
        && !isCreating
      ensures |requests| == |old(requests)| + (if CreateDisabled(old(groupName), old(selectedUsers), false) then 0 else 1)
      ensures isOpen == old(isOpen) && groupName == old(groupName) && searchQuery == old(searchQuery)
      ensures users == old(users) && selectedUsers == old(selectedUsers) && searches == old(searches)
    {
      var name := Trim(groupName);
      if name == "" || |selectedUsers| == 0 {
        return;
      }
      isCreating := true;
      requests := requests + [GroupPayload(name, Ids(selectedUsers))];
      if reply.Some? {
        created := created + [reply.value];
        closeCalls := closeCalls + 1;
      }
      isCreating := false;
    }
  }
}
