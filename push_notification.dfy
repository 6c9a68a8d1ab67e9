/**
 * The edge function supabase/functions/push-notification/index.ts: for a new
 * chat message it collects the push tokens of the other participants and
 * builds one Expo push message per token. The sender's profile, the
 * conversation row, the participant rows and the push service's answer are
 * parameters.
 */
module PushNotification {
  import opened Common

  /** The fields of the inserted `messages` row the function reads; ids are text columns. */
  datatype MessageRecord = MessageRecord(conversationId: Option<string>, senderId: Option<string>,
                                         content: Option<string>)

  /** A `conversation_participants` row with its profile's push token (None when null or no profile). */
  datatype Participant = Participant(userId: string, pushToken: Option<string>)

  /** The conversation row: `name` and `is_group`. */
  datatype ConversationInfo = ConversationInfo(name: Option<string>, isGroup: bool)

  /** One entry of the array posted to the push service. */
  datatype PushMessage = PushMessage(to: string, sound: string, title: string, body: Option<string>,
                                     conversationId: string, kind: string)

  datatype ReplyBody = MissingRecordData | NoTokensFound | Failed(error: string) | Sent

  /** The reply, and the messages posted (empty when nothing was posted). */
  datatype Outcome = Outcome(status: nat, body: ReplyBody, posted: seq<PushMessage>)

  /** A template literal's rendering of a nullable text column. */
  function Interpolate(s: Option<string>): string {
    if s.Some? then s.value else "null"
  }

  /**
   * The participant query (`.neq('user_id', sender)`) followed by
   * `map(expo_push_token).filter(token => !!token)`.
   */
  function Tokens(ps: seq<Participant>, sender: string): (r: seq<string>)
    ensures |r| <= |ps|
    ensures forall t :: t in r <==> t != "" && exists p :: p in ps && p.userId != sender && p.pushToken == Some(t)
  {
    if ps == [] then []
    else
      var head := if ps[0].userId != sender && Present(ps[0].pushToken) then [ps[0].pushToken.value] else [];
      head + Tokens(ps[1..], sender)
  }

  /** The tokens keep the participants' order: the filter distributes over concatenation. */
  lemma {:induction false} TokensAppend(a: seq<Participant>, b: seq<Participant>, sender: string)
    ensures Tokens(a + b, sender) == Tokens(a, sender) + Tokens(b, sender)
  {
    if a != [] {
      assert (a + b)[0] == a[0];
      assert (a + b)[1..] == a[1..] + b;
      TokensAppend(a[1..], b, sender);
      var head := if a[0].userId != sender && Present(a[0].pushToken) then [a[0].pushToken.value] else [];
      assert Tokens(a + b, sender) == head + (Tokens(a[1..], sender) + Tokens(b, sender));
      assert head + (Tokens(a[1..], sender) + Tokens(b, sender)) == (head + Tokens(a[1..], sender)) + Tokens(b, sender);
    } else {
      assert a + b == b;
    }
  }

  /** A participant whose token is missing or empty is skipped, whatever follows. */
  lemma TokensSkipFalsy(p: Participant, rest: seq<Participant>, sender: string)
    requires !Present(p.pushToken)
    ensures Tokens([p] + rest, sender) == Tokens(rest, sender)
  {
    assert ([p] + rest)[1..] == rest;
  }

  /** The title: the conversation's name for a group, the sender otherwise (also when the row is missing). */
  function Title(conv: Option<ConversationInfo>, senderName: string): (r: string)
    ensures conv.Some? && conv.value.isGroup ==> r == Interpolate(conv.value.name)
    ensures !(conv.Some? && conv.value.isGroup) ==> r == senderName
  {
    if conv.Some? && conv.value.isGroup then Interpolate(conv.value.name) else senderName
  }

  /** The body: "sender: content" for a group, the bare content otherwise. */
  function Body(conv: Option<ConversationInfo>, senderName: string, content: Option<string>): (r: Option<string>)
    ensures conv.Some? && conv.value.isGroup ==> r == Some(senderName + ": " + Interpolate(content))
    ensures !(conv.Some? && conv.value.isGroup) ==> r == content
  {
    if conv.Some? && conv.value.isGroup then Some(senderName + ": " + Interpolate(content)) else content
  }

  /** `tokens.map(...)`: one message per token, in token order, all sharing title, body and data. */
  function Fanout(tokens: seq<string>, title: string, body: Option<string>, conversationId: string): (r: seq<PushMessage>)
    ensures |r| == |tokens|
    ensures forall i :: 0 <= i < |tokens| ==>
      r[i] == PushMessage(tokens[i], "default", title, body, conversationId, "chat")
  {
    seq(|tokens|, i requires 0 <= i < |tokens| => PushMessage(tokens[i], "default", title, body, conversationId, "chat"))
  }

  /**
   * One invocation, with the sender's `full_name`, the conversation row, the
   * participant rows (None for a null `data`), the participant query's error
   * and the push service's failure, if any.
   */
  function Handle(record: Option<MessageRecord>, senderFullName: Option<string>, conv: Option<ConversationInfo>,
                  participants: Option<seq<Participant>>, participantsError: Option<string>,
                  pushError: Option<string>): (o: Outcome)
    ensures record.None? || !Present(record.value.conversationId) || !Present(record.value.senderId) ==>
      o == Outcome(200, MissingRecordData, [])
    ensures o.posted != [] ==>
      record.Some? && participantsError.None? && participants.Some? &&
      o.posted == Fanout(Tokens(participants.value, record.value.senderId.value),
                         Title(conv, OrElse(senderFullName, "Someone")),
                         Body(conv, OrElse(senderFullName, "Someone"), record.value.content),
                         record.value.conversationId.value)
    ensures o.body == NoTokensFound <==>
      record.Some? && Present(record.value.conversationId) && Present(record.value.senderId) &&
      participantsError.None? && (participants.None? || Tokens(participants.value, record.value.senderId.value) == [])
    ensures o.body == NoTokensFound ==> o.status == 200 && o.posted == []
    ensures o.body == Sent ==> o.status == 200 && pushError.None? && o.posted != []
    ensures o.body.Failed? ==> o.status == 500
    ensures (record.Some? && Present(record.value.conversationId) && Present(record.value.senderId) &&
             participantsError.Some?) ==> o == Outcome(500, Failed(participantsError.value), [])
    ensures (record.Some? && Present(record.value.conversationId) && Present(record.value.senderId) &&
             participantsError.None? && participants.Some? &&
             Tokens(participants.value, record.value.senderId.value) != []) ==>
      o.posted == Fanout(Tokens(participants.value, record.value.senderId.value),
                         Title(conv, OrElse(senderFullName, "Someone")),
                         Body(conv, OrElse(senderFullName, "Someone"), record.value.content),
                         record.value.conversationId.value) &&
      (pushError.None? ==> o.status == 200 && o.body == Sent) &&
      (pushError.Some? ==> o.status == 500 && o.body == Failed(pushError.value))
  {
    if record.None? || !Present(record.value.conversationId) || !Present(record.value.senderId) then
      Outcome(200, MissingRecordData, [])
    else
      var sender := record.value.senderId.value;
      var senderName := OrElse(senderFullName, "Someone");
      if participantsError.Some? then Outcome(500, Failed(participantsError.value), [])
      else if participants.None? || Tokens(participants.value, sender) == [] then Outcome(200, NoTokensFound, [])
      else
        var posted := Fanout(Tokens(participants.value, sender), Title(conv, senderName),
                             Body(conv, senderName, record.value.content), record.value.conversationId.value);
        if pushError.Some? then Outcome(500, Failed(pushError.value), posted)
        else Outcome(200, Sent, posted)
  }

  /** The sender is never notified of their own message, even when their token is set. */
  lemma SenderNotNotified(record: MessageRecord, senderFullName: Option<string>, conv: Option<ConversationInfo>,
                          ps: seq<Participant>, pushError: Option<string>, m: PushMessage)
    requires Present(record.conversationId) && Present(record.senderId)
    requires m in Handle(Some(record), senderFullName, conv, Some(ps), None, pushError).posted
    ensures exists p :: p in ps && p.userId != record.senderId.value && p.pushToken == Some(m.to)
  {
    var tokens := Tokens(ps, record.senderId.value);
    var i :| 0 <= i < |Handle(Some(record), senderFullName, conv, Some(ps), None, pushError).posted| &&
             Handle(Some(record), senderFullName, conv, Some(ps), None, pushError).posted[i] == m;
    assert m.to == tokens[i];
  }

  /** Without a profile name the sender is "Someone", in the title of a direct message too. */
  lemma UnnamedSenderIsSomeone(conv: Option<ConversationInfo>, content: Option<string>)
    requires !(conv.Some? && conv.value.isGroup)
    ensures Title(conv, OrElse(None, "Someone")) == "Someone"
    ensures Body(conv, OrElse(None, "Someone"), content) == content
  {
  }
}
