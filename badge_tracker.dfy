/**
 * hooks/useBadgeTracker.ts: the last time the travel and schedule tabs were
 * visited, kept in state and in storage, and the "has new items" test the
 * tab badges use. Times are integers (milliseconds); the clock is a
 * parameter.
 */
module BadgeTracker {
  import opened Common

  /** `items.some(i => new Date(i.created_at) > last)`: some creation time strictly after `last`. */
  function SomeAfter(createdAt: seq<int>, last: int): (r: bool)
    ensures r <==> exists i :: 0 <= i < |createdAt| && createdAt[i] > last
  {
    if createdAt == [] then false
    else createdAt[0] > last || SomeAfter(createdAt[1..], last)
  }

  /** `hasNewTravel` / `hasNewSchedule`: false while the last visit or the list is unknown. */
  function HasNew(last: Option<int>, createdAt: Option<seq<int>>): (r: bool)
    ensures last.None? || createdAt.None? ==> !r
    ensures last.Some? && createdAt.Some? ==>
      (r <==> exists i :: 0 <= i < |createdAt.value| && createdAt.value[i] > last.value)
  {
    last.Some? && createdAt.Some? && SomeAfter(createdAt.value, last.value)
  }

  /** An item created exactly at the last visit is not new. */
  lemma SameInstantNotNew(t: int)
    ensures !HasNew(Some(t), Some([t]))
  {
  }

  /** A later last visit can only clear the badge, never raise it. */
  lemma {:induction false} LaterVisitClearsOnly(createdAt: seq<int>, earlier: int, later: int)
    requires earlier <= later
    ensures SomeAfter(createdAt, later) ==> SomeAfter(createdAt, earlier)
  {
    if createdAt != [] {
      LaterVisitClearsOnly(createdAt[1..], earlier, later);
    }
  }

  /** Visiting after everything was created clears the badge. */
  lemma VisitAfterAllClears(createdAt: seq<int>, now: int)
    requires forall i :: 0 <= i < |createdAt| ==> createdAt[i] <= now
    ensures !HasNew(Some(now), Some(createdAt))
  {
  }

  /** The two last-visit timestamps in state and under `last_visit_travel` / `last_visit_schedule`. */
  class Tracker {
    var lastVisitTravel: Option<int>
    var lastVisitSchedule: Option<int>
    var storedTravel: Option<int>
    var storedSchedule: Option<int>

    constructor(travel: Option<int>, schedule: Option<int>)
      ensures lastVisitTravel == None && lastVisitSchedule == None
      ensures storedTravel == travel && storedSchedule == schedule
    {
      lastVisitTravel := None;
      lastVisitSchedule := None;
      storedTravel := travel;
      storedSchedule := schedule;
    }

    /**
     * `loadTimestamps`: a stored time is taken as it is; a missing one is set to
     * the clock's reading and persisted. The travel and schedule sides each read
     * the clock on their own (`nowTravel`, `nowSchedule`).
     */
    method LoadTimestamps(nowTravel: int, nowSchedule: int)
      modifies this
      ensures lastVisitTravel == (if old(storedTravel).Some? then old(storedTravel) else Some(nowTravel))
      ensures storedTravel == lastVisitTravel
      ensures lastVisitSchedule == (if old(storedSchedule).Some? then old(storedSchedule) else Some(nowSchedule))
      ensures storedSchedule == lastVisitSchedule
    {
      if storedTravel.Some? {
        lastVisitTravel := storedTravel;
      } else {
        storedTravel := Some(nowTravel);
        lastVisitTravel := Some(nowTravel);
      }
      if storedSchedule.Some? {
        lastVisitSchedule := storedSchedule;
      } else {
        storedSchedule := Some(nowSchedule);
        lastVisitSchedule := Some(nowSchedule);
      }
    }

    /** `markTravelVisited`: state and storage become now; the schedule side is untouched. */
    method MarkTravelVisited(now: int)
      modifies this
      ensures lastVisitTravel == Some(now) && storedTravel == Some(now)
      ensures lastVisitSchedule == old(lastVisitSchedule) && storedSchedule == old(storedSchedule)
    {
      lastVisitTravel := Some(now);
      storedTravel := Some(now);
    }

    /** `markScheduleVisited`: the same for the schedule side. */
    method MarkScheduleVisited(now: int)
      modifies this
      ensures lastVisitSchedule == Some(now) && storedSchedule == Some(now)
      ensures lastVisitTravel == old(lastVisitTravel) && storedTravel == old(storedTravel)
    {
      lastVisitSchedule := Some(now);
      storedSchedule := Some(now);
    }

    /** `hasNewTravel(tickets)` over the tickets' creation times. */
    function HasNewTravel(ticketsCreatedAt: Option<seq<int>>): (r: bool)
      reads this
      ensures r <==> (lastVisitTravel.Some? && ticketsCreatedAt.Some? &&
                      exists i :: 0 <= i < |ticketsCreatedAt.value| && ticketsCreatedAt.value[i] > lastVisitTravel.value)
    {
      HasNew(lastVisitTravel, ticketsCreatedAt)
    }

    /** `hasNewSchedule(items)`: the same test against the schedule timestamp. */
    function HasNewSchedule(itemsCreatedAt: Option<seq<int>>): (r: bool)
      reads this
      ensures r <==> (lastVisitSchedule.Some? && itemsCreatedAt.Some? &&
                      exists i :: 0 <= i < |itemsCreatedAt.value| && itemsCreatedAt.value[i] > lastVisitSchedule.value)
    {
      HasNew(lastVisitSchedule, itemsCreatedAt)
    }
  }
}
