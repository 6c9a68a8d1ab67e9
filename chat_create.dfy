/**
 * The new-conversation screen app/chat-create.tsx: the staff search list, the
 * member toggle, and the rows a direct or group conversation is created with.
 */
module ChatCreate {
  import opened Common
  import opened Selection

  /** A member of the organisation as `useStaff` lists it. */
  datatype StaffMember = StaffMember(id: string, fullName: Option<string>, organizationId: Option<string>)

  /**
   * The `filteredStaff` condition: not the current user, and a name whose lower
   * case contains the lower-cased search text. A member without a name never
   * matches; while the current user is unknown nobody is excluded as self.
   */
  predicate Matches(m: StaffMember, me: Option<string>, search: string) {
    (me.None? || m.id != me.value) &&
    m.fullName.Some? && Includes(ToLower(m.fullName.value), ToLower(search))
  }

  /** `staff.filter(...)` with that condition. */
  function FilteredStaff(staff: seq<StaffMember>, me: Option<string>, search: string): (r: seq<StaffMember>)
    ensures |r| <= |staff|
    ensures forall m :: m in r <==> m in staff && Matches(m, me, search)
  {
    if staff == [] then []
    else (if Matches(staff[0], me, search) then [staff[0]] else []) + FilteredStaff(staff[1..], me, search)
  }

  /** Filtering distributes over concatenation, so the list keeps the staff order. */
  lemma {:induction false} FilteredStaffAppend(a: seq<StaffMember>, b: seq<StaffMember>, me: Option<string>, search: string)
    ensures FilteredStaff(a + b, me, search) == FilteredStaff(a, me, search) + FilteredStaff(b, me, search)
  {
    if a != [] {
      assert (a + b)[1..] == a[1..] + b;
      FilteredStaffAppend(a[1..], b, me, search);
    } else {
      assert a + b == b;
    }
  }

  /** With an empty search every named member other than the current user is listed. */
  lemma EmptySearchKeepsNamed(staff: seq<StaffMember>, me: Option<string>, m: StaffMember)
    ensures m in FilteredStaff(staff, me, "") <==>
      m in staff && m.fullName.Some? && (me.None? || m.id != me.value)
  {
    if m.fullName.Some? {
      EmptyIncluded(ToLower(m.fullName.value));
    }
  }

  /** The current user is never offered as a chat partner. */
  lemma SelfNeverListed(staff: seq<StaffMember>, me: string, search: string, m: StaffMember)
    requires m in FilteredStaff(staff, Some(me), search)
    ensures m.id != me
  {
  }

  datatype Mode = Dm | Group

  /** `staff.find(s => s.id === id)`: the first member with that id. */
  function Find(staff: seq<StaffMember>, id: string): (r: Option<StaffMember>)
    ensures r.Some? ==> r.value in staff && r.value.id == id
    ensures r.None? ==> forall m :: m in staff ==> m.id != id
    ensures r.Some? ==> exists i :: 0 <= i < |staff| && staff[i] == r.value && forall j :: 0 <= j < i ==> staff[j].id != id
  {
    if staff == [] then None
    else if staff[0].id == id then Some(staff[0])
    else Find(staff[1..], id)
  }

  /** The `conversations` row of a new chat. */
  datatype Conversation = Conversation(organizationId: Option<string>, kind: string, name: string)

  /** A `conversation_participants` row. */
  datatype Participant = Participant(conversationId: string, userId: string)

  function ParticipantsOf(conversationId: string, ids: seq<string>): (r: seq<Participant>)
    ensures |r| == |ids|
    ensures forall i :: 0 <= i < |ids| ==> r[i] == Participant(conversationId, ids[i])
  {
    seq(|ids|, i requires 0 <= i < |ids| => Participant(conversationId, ids[i]))
  }

  /** The conversation a DM with `target` is created as: the target's organisation, type 'direct'. */
  function DmConversation(staff: seq<StaffMember>, target: string): (c: Conversation)
    ensures c.kind == "direct" && c.name == "Direct Message"
    ensures Find(staff, target).Some? ==> c.organizationId == Find(staff, target).value.organizationId
    ensures Find(staff, target).None? ==> c.organizationId == None
  {
    var m := Find(staff, target);
    Conversation(if m.Some? then m.value.organizationId else None, "direct", "Direct Message")
  }

  /** A DM's participants: exactly me and the target, in that order. */
  function DmParticipants(conversationId: string, me: string, target: string): (r: seq<Participant>)
    ensures r == [Participant(conversationId, me), Participant(conversationId, target)]
  {
    ParticipantsOf(conversationId, [me, target])
  }

  /** A group's participants: me first, then the selected ids in selection order. */
  function GroupParticipants(conversationId: string, me: string, selected: seq<string>): (r: seq<Participant>)
    ensures |r| == |selected| + 1
    ensures r[0] == Participant(conversationId, me)
    ensures forall i :: 0 <= i < |selected| ==> r[i + 1] == Participant(conversationId, selected[i])
  {
    ParticipantsOf(conversationId, [me] + selected)
  }

  datatype GroupCheck = GroupOk | GroupRejected(message: string)

  /** The checks of `handleCreateGroup`, made before any remote call. */
  function CheckGroup(groupName: string, selected: seq<string>): (r: GroupCheck)
    ensures IsBlank(groupName) ==> r == GroupRejected("Please enter a group name")
    ensures !IsBlank(groupName) && selected == [] ==> r == GroupRejected("Please select at least one member")
    ensures r == GroupOk <==> !IsBlank(groupName) && selected != []
  {
    if IsBlank(groupName) then GroupRejected("Please enter a group name")
    else if selected == [] then GroupRejected("Please select at least one member")
    else GroupOk
  }

  /** Putting me in front of a duplicate-free selection that excludes me keeps it duplicate-free. */
  lemma MeFirstDistinct(me: string, selected: seq<string>)
    requires NoDuplicates(selected) && me !in selected
    ensures NoDuplicates([me] + selected)
  {
    var ids := [me] + selected;
    forall i, j | 0 <= i < j < |ids|
      ensures ids[i] != ids[j]
    {
      assert ids[j] == selected[j - 1];
      if i > 0 {
        assert ids[i] == selected[i - 1];
      }
    }
  }

  /** A group built from a duplicate-free selection that excludes me lists every user once. */
  lemma GroupParticipantsDistinct(conversationId: string, me: string, selected: seq<string>)
    requires NoDuplicates(selected) && me !in selected
    ensures var r := GroupParticipants(conversationId, me, selected);
      forall i, j :: 0 <= i < j < |r| ==> r[i].userId != r[j].userId
  {
    MeFirstDistinct(me, selected);
    var ids := [me] + selected;
    var r := ParticipantsOf(conversationId, ids);
    assert forall i :: 0 <= i < |r| ==> r[i].userId == ids[i];
  }

  class ChatCreateForm {
    var mode: Mode
    var selectedUserIds: seq<string>

    constructor()
      ensures mode == Dm && selectedUserIds == []
    {
      mode := Dm;
      selectedUserIds := [];
    }

    /**
     * `toggleUser`: in DM mode the tap starts the DM with that user (returned)
     * and the selection is left alone; in group mode it toggles the id.
     */
    method ToggleUser(userId: string) returns (startDmWith: Option<string>)
      modifies this
      ensures mode == old(mode)
      ensures old(mode) == Dm ==> selectedUserIds == old(selectedUserIds) && startDmWith == Some(userId)
      ensures old(mode) == Group ==> selectedUserIds == Toggle(old(selectedUserIds), userId) && startDmWith == None
    {
      if mode == Dm {
        startDmWith := Some(userId);
      } else {
        selectedUserIds := Toggle(selectedUserIds, userId);
        startDmWith := None;
      }
    }
  }
}
