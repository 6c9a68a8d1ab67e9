/**
 * hooks/useGlobalRealtime.ts: the app-wide listener that turns realtime
 * message and schedule events into local notifications for the signed-in
 * user. The tracked user id is the mutable ref; the sender's profile name is
 * a parameter.
 */
module GlobalRealtime {
  import opened Common

  /** A local notification: title, body and the delay in seconds. */
  datatype Notification = Notification(title: string, body: string, seconds: nat)

  /** The fields of `payload.new` for a message INSERT. */
  datatype NewMessage = NewMessage(senderId: Option<string>, content: Option<string>)

  datatype EventType = Insert | Update | Delete

  /**
   * `payload.new` of a schedule event: None when it is null, and an item with
   * no `userId` for the empty object a DELETE carries.
   */
  datatype ScheduleItem = ScheduleItem(userId: Option<string>)

  /** The message handler: my own messages, and all messages while nobody is signed in, are ignored. */
  function MessageNotification(me: Option<string>, m: NewMessage, senderFullName: Option<string>): (r: Option<Notification>)
    ensures r.None? <==> !Present(me) || m.senderId == Some(me.value)
    ensures r.Some? ==>
      r.value == Notification("New message from " + OrElse(senderFullName, "Someone"),
                              OrElse(m.content, "Sent an image/attachment"), 1)
  {
    if !Present(me) || m.senderId == Some(me.value) then None
    else Some(Notification("New message from " + OrElse(senderFullName, "Someone"),
                           OrElse(m.content, "Sent an image/attachment"), 1))
  }

  /** Whether a schedule event concerns me: someone is signed in and a non-null item is assigned to me. */
  predicate ConcernsMe(me: Option<string>, item: Option<ScheduleItem>) {
    Present(me) && (item.None? || item.value.userId == Some(me.value))
  }

  /** The schedule handler: INSERT and UPDATE of an item that concerns me, nothing else. */
  function ScheduleNotification(me: Option<string>, event: EventType, item: Option<ScheduleItem>): (r: Option<Notification>)
    ensures r.Some? <==> ConcernsMe(me, item) && event != Delete
    ensures r.Some? && event == Insert ==>
      r.value == Notification("New Schedule Item", "A new shift or event has been added to your calendar.", 1)
    ensures r.Some? && event == Update ==>
      r.value == Notification("Schedule Change", "Your schedule has been updated.", 1)
  {
    if !ConcernsMe(me, item) then None
    else match event
      case Insert => Some(Notification("New Schedule Item", "A new shift or event has been added to your calendar.", 1))
      case Update => Some(Notification("Schedule Change", "Your schedule has been updated.", 1))
      case Delete => None
  }

  /** A DELETE never notifies: its empty `new` object has no user id, and DELETE has no text anyway. */
  lemma DeleteNeverNotifies(me: Option<string>)
    ensures ScheduleNotification(me, Delete, Some(ScheduleItem(None))) == None
  {
  }

  /** Another user's item never notifies me. */
  lemma OthersItemsSilent(me: string, other: string, event: EventType)
    requires other != me
    ensures ScheduleNotification(Some(me), event, Some(ScheduleItem(Some(other)))) == None
  {
  }

  /** The listener's `userIdRef`. */
  class RealtimeListener {
    var userId: Option<string>

    constructor()
      ensures userId == None
    {
      userId := None;
    }

    /** The initial `getUser`: the ref is set only when a user is returned. */
    method InitialUser(user: Option<string>)
      modifies this
      ensures userId == (if user.Some? then user else old(userId))
    {
      if user.Some? {
        userId := user;
      }
    }

    /** `onAuthStateChange`: the session's user id, or null on sign-out. */
    method OnAuthStateChange(sessionUser: Option<string>)
      modifies this
      ensures userId == (if Present(sessionUser) then sessionUser else None)
    {
      userId := if Present(sessionUser) then sessionUser else None;
    }

    /** A message INSERT, with the sender's profile name. */
    method OnMessage(m: NewMessage, senderFullName: Option<string>) returns (n: Option<Notification>)
      ensures n == MessageNotification(userId, m, senderFullName)
    {
      n := MessageNotification(userId, m, senderFullName);
    }

    /** A schedule change. */
    method OnSchedule(event: EventType, item: Option<ScheduleItem>) returns (n: Option<Notification>)
      ensures n == ScheduleNotification(userId, event, item)
    {
      n := ScheduleNotification(userId, event, item);
    }
  }

  /** After a sign-out no event of either kind notifies. */
  lemma SignedOutSilent(m: NewMessage, name: Option<string>, event: EventType, item: Option<ScheduleItem>)
    ensures MessageNotification(None, m, name) == None
    ensures ScheduleNotification(None, event, item) == None
  {
  }
}
