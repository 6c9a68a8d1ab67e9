/**
 * The message cache of one conversation as hooks/useChat.ts maintains it:
 * the mapping of fetched rows, the optimistic send with rollback, and the
 * realtime INSERT and UPDATE handlers. The query cache entry
 * ['messages', conversationId] is a field; the auth user, the clock and the
 * server's replies are parameters.
 */
module Chat {
  import opened Common

  /** A row of the `messages` table, as the server returns or broadcasts it. */
  datatype Row = Row(id: string, conversationId: string, senderId: string, contentOriginal: string,
                     contentTranslated: Option<string>, originalLanguage: Option<string>, createdAt: string)

  /** `Message`: a row plus the two fields the client adds for display. */
  datatype Message = Message(row: Row, senderName: string, avatarUrl: Option<string>)

  /** The joined or looked-up sender profile. */
  datatype Profile = Profile(fullName: Option<string>, avatarUrl: Option<string>)

  /** A fetched row with its joined `profiles` object, which may be missing. */
  datatype Fetched = Fetched(row: Row, profile: Option<Profile>)

  /** The display name of a sender: the profile's full name, or "Unknown" when missing or empty. */
  function SenderName(profile: Option<Profile>): (r: string)
    ensures profile.Some? && Present(profile.value.fullName) ==> r == profile.value.fullName.value
    ensures !(profile.Some? && Present(profile.value.fullName)) ==> r == "Unknown"
  {
    if profile.Some? then OrElse(profile.value.fullName, "Unknown") else "Unknown"
  }

  /** A row dressed with its sender's profile (the fetch mapping and the realtime INSERT). */
  function WithProfile(row: Row, profile: Option<Profile>): (m: Message)
    ensures m.row == row
    ensures m.avatarUrl == if profile.Some? then profile.value.avatarUrl else None
    ensures m.senderName == SenderName(profile)
    ensures profile.None? ==> m.senderName == "Unknown"
  {
    Message(row, SenderName(profile), if profile.Some? then profile.value.avatarUrl else None)
  }

  /** The fetch's `data.map(...)`: every row mapped, order kept. */
  function MapFetched(data: seq<Fetched>): (r: seq<Message>)
    ensures |r| == |data|
    ensures forall i :: 0 <= i < |data| ==> r[i] == WithProfile(data[i].row, data[i].profile)
  {
    seq(|data|, i requires 0 <= i < |data| => WithProfile(data[i].row, data[i].profile))
  }

  /** `old || []`. */
  function Messages(cache: Option<seq<Message>>): seq<Message> {
    if cache.Some? then cache.value else []
  }

  predicate HasId(ms: seq<Message>, id: string) {
    exists i :: 0 <= i < |ms| && ms[i].row.id == id
  }

  predicate IsTempId(id: string) {
    |id| >= 5 && id[..5] == "temp-"
  }

  /** The optimistic message `temp-<now>`, shown as sent by "Me". */
  function TempMessage(conversationId: string, user: string, text: string, now: nat, nowIso: string): (m: Message)
    ensures IsTempId(m.row.id)
    ensures m.row.contentOriginal == text && m.row.senderId == user && m.row.conversationId == conversationId
    ensures m.senderName == "Me" && m.avatarUrl == None
  {
    Message(Row("temp-" + NatToString(now), conversationId, user, text, None, None, nowIso), "Me", None)
  }

  /** The optimistic update: the temp message in front of whatever was cached. */
  function Prepend(cache: Option<seq<Message>>, m: Message): (r: Option<seq<Message>>)
    ensures r.Some? && |r.value| == |Messages(cache)| + 1
    ensures r.value[0] == m && r.value[1..] == Messages(cache)
  {
    Some([m] + Messages(cache))
  }

  /** The realtime INSERT: a message already cached under the same id is not added again. */
  function ApplyInsert(cache: Option<seq<Message>>, m: Message): (r: Option<seq<Message>>)
    ensures cache.Some? && HasId(cache.value, m.row.id) ==> r == cache
    ensures !(cache.Some? && HasId(cache.value, m.row.id)) ==> r == Prepend(cache, m)
  {
    if cache.Some? && HasId(cache.value, m.row.id) then cache else Prepend(cache, m)
  }

  /** The realtime UPDATE: the broadcast row replaces the row of the message with its id. */
  function ApplyUpdate(cache: Option<seq<Message>>, row: Row): (r: Option<seq<Message>>)
    ensures r.Some? <==> cache.Some?
    ensures cache.Some? ==> |r.value| == |cache.value|
    ensures cache.Some? ==> forall i :: 0 <= i < |cache.value| ==>
      r.value[i] == if cache.value[i].row.id == row.id then cache.value[i].(row := row) else cache.value[i]
  {
    if cache.None? then None
    else Some(seq(|cache.value|, i requires 0 <= i < |cache.value| =>
      if cache.value[i].row.id == row.id then cache.value[i].(row := row) else cache.value[i]))
  }

  /** What `mutationFn` sends to the `messages` table. */
  datatype NewMessage = NewMessage(conversationId: string, senderId: string, contentOriginal: string,
                                   originalLanguage: string)

  datatype SendOutcome = Failed(reason: string) | Sent(request: NewMessage)

  class ChatHook {
    const conversationId: string
    /** The cache entry ['messages', conversationId]; None before the first fetch. */
    var cache: Option<seq<Message>>
    /** `userRef.current`. */
    var userRef: Option<string>
    /** Set by `invalidateQueries`: the entry will be refetched. */
    var stale: bool

    constructor(conversationId: string)
      ensures this.conversationId == conversationId
      ensures cache == None && userRef == None && !stale
    {
      this.conversationId := conversationId;
      cache := None;
      userRef := None;
      stale := false;
    }

    /** The mount effect and the query function both store `user?.id || null`. */
    method SetUser(authUserId: Option<string>)
      modifies this
      ensures userRef == if Present(authUserId) then authUserId else None
      ensures cache == old(cache) && stale == old(stale)
    {
      userRef := if Present(authUserId) then authUserId else None;
    }

    /**
     * The query function after the user step: `fetched` is the server's list
     * (latest first) or None for an error, which keeps the cached data.
     */
    method Refetch(fetched: Option<seq<Fetched>>)
      modifies this
      ensures fetched.Some? ==> cache == Some(MapFetched(fetched.value)) && !stale
      ensures fetched.None? ==> cache == old(cache) && stale == old(stale)
      ensures userRef == old(userRef)
    {
      if fetched.Some? {
        cache := Some(MapFetched(fetched.value));
        stale := false;
      }
    }

    /**
     * One `mutateAsync(text)`: `onMutate` (snapshot, optimistic prepend when the
     * user is known), `mutationFn` (the "Invalid message" guard, then the insert,
     * whose success is `insertOk`), `onError` (rollback to a snapshot if there
     * was one) and `onSettled` (invalidate).
     */
    method Send(text: string, now: nat, nowIso: string, insertOk: bool) returns (outcome: SendOutcome)
      modifies this
      ensures stale && userRef == old(userRef)
      ensures IsBlank(text) || !Present(old(userRef)) ==> outcome == Failed("Invalid message")
      ensures !IsBlank(text) && Present(old(userRef)) && !insertOk ==> outcome.Failed?
      ensures !IsBlank(text) && Present(old(userRef)) && insertOk ==>
        outcome == Sent(NewMessage(conversationId, old(userRef).value, text, "en"))
      ensures outcome.Sent? && Present(old(userRef)) ==>
        cache == Prepend(old(cache), TempMessage(conversationId, old(userRef).value, text, now, nowIso))
      ensures outcome.Failed? && old(cache).Some? ==> cache == old(cache)
      ensures outcome.Failed? && old(cache).None? && Present(old(userRef)) ==>
        cache == Prepend(None, TempMessage(conversationId, old(userRef).value, text, now, nowIso))
      ensures !Present(old(userRef)) ==> cache == old(cache)
    {
      var previous := cache;
      if Present(userRef) {
        cache := Prepend(cache, TempMessage(conversationId, userRef.value, text, now, nowIso));
      }
      if IsBlank(text) || !Present(userRef) {
        outcome := Failed("Invalid message");
      } else if !insertOk {
        outcome := Failed("insert error");
      } else {
        outcome := Sent(NewMessage(conversationId, userRef.value, text, "en"));
      }
      if outcome.Failed? && previous.Some? {
        cache := previous;
      }
      stale := true;
    }

    /** A realtime INSERT, with the sender profile that was looked up for it. */
    method OnInsert(row: Row, profile: Option<Profile>)
      modifies this
      ensures cache == ApplyInsert(old(cache), WithProfile(row, profile))
      ensures userRef == old(userRef) && stale == old(stale)
    {
      cache := ApplyInsert(cache, WithProfile(row, profile));
    }

    /** A realtime UPDATE (a translation arriving). */
    method OnUpdate(row: Row)
      modifies this
      ensures cache == ApplyUpdate(old(cache), row)
      ensures userRef == old(userRef) && stale == old(stale)
    {
      cache := ApplyUpdate(cache, row);
    }
  }

  /** Delivering the same INSERT twice has the effect of delivering it once. */
  lemma ApplyInsertIdempotent(cache: Option<seq<Message>>, m: Message)
    ensures ApplyInsert(ApplyInsert(cache, m), m) == ApplyInsert(cache, m)
  {
    if !(cache.Some? && HasId(cache.value, m.row.id)) {
      assert ApplyInsert(cache, m).value[0].row.id == m.row.id;
    }
  }

  /** After an INSERT the message's id is cached, and every message cached before is still there. */
  lemma ApplyInsertKeeps(cache: Option<seq<Message>>, m: Message, x: Message)
    ensures HasId(ApplyInsert(cache, m).value, m.row.id)
    ensures x in Messages(cache) ==> x in ApplyInsert(cache, m).value
  {
    var r := ApplyInsert(cache, m);
    if !(cache.Some? && HasId(cache.value, m.row.id)) {
      assert r.value[0].row.id == m.row.id;
      if x in Messages(cache) {
        var k :| 0 <= k < |Messages(cache)| && Messages(cache)[k] == x;
        assert r.value[k + 1] == x;
      }
    }
  }

  /**
   * The confirmed copy of an optimistic message (a server id, not `temp-`) is
   * prepended beside it: until the refetch on settle both are cached.
   */
  lemma TempAndConfirmedBothCached(rest: seq<Message>, temp: Message, confirmed: Message)
    requires IsTempId(temp.row.id) && !IsTempId(confirmed.row.id)
    requires !HasId(rest, confirmed.row.id)
    ensures var r := ApplyInsert(Some([temp] + rest), confirmed).value;
      r[0] == confirmed && r[1] == temp
  {
    var c := [temp] + rest;
    forall i | 0 <= i < |c|
      ensures c[i].row.id != confirmed.row.id
    {
      if i > 0 {
        assert c[i] == rest[i - 1];
      }
    }
  }

  /** An UPDATE for an id that is not cached changes nothing. */
  lemma ApplyUpdateUnknownId(cache: Option<seq<Message>>, row: Row)
    requires cache.Some? ==> !HasId(cache.value, row.id)
    ensures ApplyUpdate(cache, row) == cache
  {
    if cache.Some? {
      var r := ApplyUpdate(cache, row).value;
      forall i | 0 <= i < |cache.value|
        ensures r[i] == cache.value[i]
      {
        assert cache.value[i].row.id != row.id;
      }
      assert r == cache.value;
    }
  }

  /** Applying the same UPDATE twice equals applying it once. */
  lemma ApplyUpdateIdempotent(cache: Option<seq<Message>>, row: Row)
    ensures ApplyUpdate(ApplyUpdate(cache, row), row) == ApplyUpdate(cache, row)
  {
    if cache.Some? {
      var once := ApplyUpdate(cache, row).value;
      var twice := ApplyUpdate(ApplyUpdate(cache, row), row).value;
      forall i | 0 <= i < |once|
        ensures twice[i] == once[i]
      {
      }
      assert twice == once;
    }
  }

  /** An UPDATE keeps every message's id, sender name and avatar, so the order of ids is unchanged. */
  lemma ApplyUpdateKeepsIds(cache: Option<seq<Message>>, row: Row, i: int)
    requires cache.Some? && 0 <= i < |cache.value|
    ensures ApplyUpdate(cache, row).value[i].row.id == cache.value[i].row.id
    ensures ApplyUpdate(cache, row).value[i].senderName == cache.value[i].senderName
    ensures ApplyUpdate(cache, row).value[i].avatarUrl == cache.value[i].avatarUrl
  {
  }
}
