/**
 * context/ChatContext.tsx: the conversation list shared by the chat tabs,
 * its loading flag, its refresh on every new message, and the unread total
 * shown on the tab badge. The RPC's answer is a parameter.
 */
module ChatContext {
  import opened Common

  /** The part of a `Conversation` the provider computes with; `unreadCount` is optional. */
  datatype ConversationSummary = ConversationSummary(id: string, unreadCount: Option<int>)

  /** `chat.unread_count || 0`. */
  function Unread(c: ConversationSummary): int {
    if c.unreadCount.Some? then c.unreadCount.value else 0
  }

  /**
   * The `reduce` of `totalUnreadCount`, from the left: non-negative when no
   * count is negative, and 0 when every conversation is read.
   */
  function TotalUnread(cs: seq<ConversationSummary>): (r: int)
    ensures (forall j :: 0 <= j < |cs| ==> Unread(cs[j]) >= 0) ==> r >= 0
    ensures (forall j :: 0 <= j < |cs| ==> Unread(cs[j]) == 0) ==> r == 0
  {
    if cs == [] then 0 else TotalUnread(cs[..|cs| - 1]) + Unread(cs[|cs| - 1])
  }

  /** The total is additive over concatenation. */
  lemma {:induction false} TotalUnreadAppend(a: seq<ConversationSummary>, b: seq<ConversationSummary>)
    ensures TotalUnread(a + b) == TotalUnread(a) + TotalUnread(b)
    decreases |b|
  {
    if b != [] {
      assert (a + b)[..|a + b| - 1] == a + b[..|b| - 1];
      TotalUnreadAppend(a, b[..|b| - 1]);
    } else {
      assert a + b == a;
    }
  }

  /** With no negative counts the total bounds every conversation's count, and a missing count adds nothing. */
  lemma {:induction false} TotalUnreadBounds(cs: seq<ConversationSummary>, i: int)
    requires forall j :: 0 <= j < |cs| ==> Unread(cs[j]) >= 0
    requires 0 <= i < |cs|
    ensures 0 <= Unread(cs[i]) <= TotalUnread(cs)
  {
    var n := |cs| - 1;
    var init := cs[..n];
    assert TotalUnread(cs) == TotalUnread(init) + Unread(cs[n]);
    if i < n {
      assert init[i] == cs[i];
      TotalUnreadBounds(init, i);
    }
  }

  /** With no negative counts the total is non-negative and bounds every conversation's count. */
  lemma TotalUnreadBoundsAll(cs: seq<ConversationSummary>)
    ensures (forall j :: 0 <= j < |cs| ==> Unread(cs[j]) >= 0) ==>
      TotalUnread(cs) >= 0 && forall i :: 0 <= i < |cs| ==> Unread(cs[i]) <= TotalUnread(cs)
  {
    if forall j :: 0 <= j < |cs| ==> Unread(cs[j]) >= 0 {
      forall i | 0 <= i < |cs|
        ensures Unread(cs[i]) <= TotalUnread(cs)
      {
        TotalUnreadBounds(cs, i);
      }
    }
  }

  /** A conversation without a count contributes as one with 0 unread. */
  lemma MissingCountIsZero(a: seq<ConversationSummary>, id: string, b: seq<ConversationSummary>)
    ensures TotalUnread(a + [ConversationSummary(id, None)] + b) == TotalUnread(a + b)
  {
    TotalUnreadAppend(a + [ConversationSummary(id, None)], b);
    TotalUnreadAppend(a, [ConversationSummary(id, None)]);
    TotalUnreadAppend(a, b);
    assert TotalUnread([ConversationSummary(id, None)]) == 0 by {
      assert [ConversationSummary(id, None)][..0] == [];
    }
  }

  class ChatProvider {
    var conversations: seq<ConversationSummary>
    var loading: bool

    constructor()
      ensures conversations == [] && loading
    {
      conversations := [];
      loading := true;
    }

    /** `totalUnreadCount`, the tab badge: with no negative counts it is at least every conversation's count. */
    function TotalUnreadCount(): (r: int)
      reads this
      ensures r == TotalUnread(conversations)
      ensures (forall j :: 0 <= j < |conversations| ==> Unread(conversations[j]) >= 0) ==>
        r >= 0 && forall i :: 0 <= i < |conversations| ==> Unread(conversations[i]) <= r
    {
      TotalUnreadBoundsAll(conversations);
      TotalUnread(conversations)
    }

    /**
     * `fetchConversations(isBackground)` with the RPC's `data` (None for null)
     * and whether it returned an error. A background refresh leaves `loading`
     * alone; a foreground one ends with it false. An error or a null `data`
     * keeps the list.
     */
    method FetchConversations(isBackground: bool, data: Option<seq<ConversationSummary>>, rpcError: bool)
      modifies this
      ensures isBackground ==> loading == old(loading)
      ensures !isBackground ==> !loading
      ensures rpcError || data.None? ==> conversations == old(conversations)
      ensures !rpcError && data.Some? ==> conversations == data.value
    {
      if !isBackground {
        loading := true;
      }
      if !rpcError && data.Some? {
        conversations := data.value;
      }
      if !isBackground {
        loading := false;
      }
    }

    /** The realtime handler: every message INSERT triggers a background refresh. */
    method OnMessageInsert(data: Option<seq<ConversationSummary>>, rpcError: bool)
      modifies this
      ensures loading == old(loading)
      ensures conversations == (if !rpcError && data.Some? then data.value else old(conversations))
    {
      FetchConversations(true, data, rpcError);
    }
  }
}
