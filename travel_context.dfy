/**
 * The provider of context/TravelContext.tsx: which trip the travel tab shows,
 * which of its tickets a user may see, and the membership flag. Every query
 * result is a parameter (None for a missing `data`).
 */
module TravelContext {
  import opened Common

  datatype SimpleProject = SimpleProject(id: string, name: string, startDate: string)

  /** The selected project's own row. */
  datatype ProjectRow = ProjectRow(id: string, name: string, description: Option<string>,
                                   startDate: Option<string>, endDate: Option<string>)

  /** A logistics ticket; `userId` is the staff member it is booked for, if any. */
  datatype Ticket = Ticket(id: string, userId: Option<string>)

  datatype TripDetails = TripDetails(id: string, name: string, description: Option<string>, dates: string,
                                     tickets: seq<Ticket>, accommodations: seq<string>)

  predicate IsAdmin(role: Option<string>) {
    role == Some("admin")
  }

  predicate Listed(ps: seq<SimpleProject>, id: string) {
    exists i :: 0 <= i < |ps| && ps[i].id == id
  }

  /** The project to show: the selected one if it was fetched, otherwise the first (earliest) one. */
  function TargetProject(selected: Option<string>, ps: seq<SimpleProject>): (r: string)
    requires ps != []
    ensures Present(selected) && Listed(ps, selected.value) ==> r == selected.value
    ensures !(Present(selected) && Listed(ps, selected.value)) ==> r == ps[0].id
    ensures Listed(ps, r)
  {
    if Present(selected) && Listed(ps, selected.value) then selected.value else ps[0].id
  }

  /** A ticket a non-admin may see: unassigned, or assigned to them. */
  predicate VisibleTo(t: Ticket, uid: string) {
    !Present(t.userId) || t.userId.value == uid
  }

  /** The client-side ticket filter, applied to non-admins only. */
  function VisibleTickets(ts: seq<Ticket>, admin: bool, uid: string): (r: seq<Ticket>)
    ensures admin ==> r == ts
    ensures |r| <= |ts|
    ensures forall t :: t in r <==> t in ts && (admin || VisibleTo(t, uid))
  {
    if admin || ts == [] then ts
    else (if VisibleTo(ts[0], uid) then [ts[0]] else []) + VisibleTickets(ts[1..], admin, uid)
  }

  /** The filter keeps the tickets' (departure) order: it distributes over concatenation. */
  lemma {:induction false} VisibleTicketsAppend(a: seq<Ticket>, b: seq<Ticket>, admin: bool, uid: string)
    ensures VisibleTickets(a + b, admin, uid) == VisibleTickets(a, admin, uid) + VisibleTickets(b, admin, uid)
  {
    if !admin && a != [] {
      assert (a + b)[1..] == a[1..] + b;
      VisibleTicketsAppend(a[1..], b, admin, uid);
    } else if !admin {
      assert a + b == b;
    }
  }

  /** `${start || '?'} - ${end || '?'}`. */
  function DatesText(start: Option<string>, end: Option<string>): (r: string)
    ensures |r| == |OrElse(start, "?")| + 3 + |OrElse(end, "?")|
    ensures r[|OrElse(start, "?")|..|OrElse(start, "?")| + 3] == " - "
    ensures Present(start) ==> r[..|start.value|] == start.value
    ensures !Present(start) ==> r[0] == '?'
    ensures Present(end) ==> r[|r| - |end.value|..] == end.value
    ensures !Present(end) ==> r[|r| - 1] == '?'
  {
    OrElse(start, "?") + " - " + OrElse(end, "?")
  }

  /** `isMemberOfActiveTrip`. */
  function IsMemberOfActiveTrip(selected: Option<string>, myProjectIds: seq<string>): (r: bool)
    ensures r <==> Present(selected) && selected.value in myProjectIds
  {
    if Present(selected) then selected.value in myProjectIds else false
  }

  /** The profile fields the provider reads. */
  datatype Profile = Profile(organizationId: Option<string>, role: Option<string>)

  class TravelProvider {
    var trip: Option<TripDetails>
    var projects: seq<SimpleProject>
    var myProjectIds: seq<string>
    var selectedProjectId: Option<string>
    var loading: bool

    constructor()
      ensures trip == None && projects == [] && myProjectIds == [] && selectedProjectId == None && loading
    {
      trip := None;
      projects := [];
      myProjectIds := [];
      selectedProjectId := None;
      loading := true;
    }

    /** `selectProject`. */
    method SelectProject(id: string)
      modifies this
      ensures selectedProjectId == Some(id)
      ensures trip == old(trip) && projects == old(projects) && myProjectIds == old(myProjectIds)
      ensures loading == old(loading)
    {
      selectedProjectId := Some(id);
    }

    /**
     * `fetchTravel` with the results of its queries: the auth user, the profile,
     * the membership ids, the project list, the target project's row, its
     * tickets and its accommodation ids.
     */
    method FetchTravel(user: Option<string>, profile: Option<Profile>, membership: Option<seq<string>>,
                       projectsData: Option<seq<SimpleProject>>, projectRow: Option<ProjectRow>,
                       tickets: Option<seq<Ticket>>, accommodations: Option<seq<string>>)
      modifies this
      ensures !loading
      ensures user.None? || profile.None? ==>
        trip == old(trip) && projects == old(projects) && myProjectIds == old(myProjectIds) &&
        selectedProjectId == old(selectedProjectId)
      ensures user.Some? && profile.Some? ==>
        myProjectIds == (if membership.Some? then membership.value else [])
      ensures user.Some? && profile.Some? && !IsAdmin(profile.value.role) && myProjectIds == [] ==>
        trip == None && projects == [] && selectedProjectId == old(selectedProjectId)
      ensures user.Some? && profile.Some? && (IsAdmin(profile.value.role) || myProjectIds != []) ==>
        projects == (if projectsData.Some? then projectsData.value else [])
      ensures user.Some? && profile.Some? && (IsAdmin(profile.value.role) || myProjectIds != []) && projects == [] ==>
        trip == None && selectedProjectId == old(selectedProjectId)
      ensures user.Some? && profile.Some? && (IsAdmin(profile.value.role) || myProjectIds != []) && projects != [] ==>
        var target := TargetProject(old(selectedProjectId), projects);
        selectedProjectId == (if Present(old(selectedProjectId)) then old(selectedProjectId) else Some(target)) &&
        (projectRow.None? ==> trip == old(trip)) &&
        (projectRow.Some? ==> trip == Some(TripDetails(
          projectRow.value.id, projectRow.value.name, projectRow.value.description,
          DatesText(projectRow.value.startDate, projectRow.value.endDate),
          VisibleTickets(if tickets.Some? then tickets.value else [], IsAdmin(profile.value.role), user.value),
          if accommodations.Some? then accommodations.value else [])))
    {
      loading := true;
      if user.None? {
        loading := false;
        return;
      }
      if profile.None? {
        loading := false;
        return;
      }
      var myIds := if membership.Some? then membership.value else [];
      myProjectIds := myIds;
      var admin := IsAdmin(profile.value.role);
      if !admin && |myIds| == 0 {
        trip := None;
        projects := [];
        loading := false;
        return;
      }
      projects := if projectsData.Some? then projectsData.value else [];
      if projectsData.None? || |projectsData.value| == 0 {
        trip := None;
        loading := false;
        return;
      }
      var targetId := TargetProject(selectedProjectId, projectsData.value);
      if !Present(selectedProjectId) {
        selectedProjectId := Some(targetId);
      }
      if projectRow.Some? {
        var finalTickets := VisibleTickets(if tickets.Some? then tickets.value else [], admin, user.value);
        trip := Some(TripDetails(projectRow.value.id, projectRow.value.name, projectRow.value.description,
                                 DatesText(projectRow.value.startDate, projectRow.value.endDate),
                                 finalTickets, if accommodations.Some? then accommodations.value else []));
      }
      loading := false;
    }
  }

  /** An existing selection is never overwritten by the fetch: the target only fills an empty one. */
  lemma KeptSelectionIsTarget(selected: string, ps: seq<SimpleProject>)
    requires ps != [] && selected != "" && Listed(ps, selected)
    ensures TargetProject(Some(selected), ps) == selected
  {
  }

  /** A selection that is not among the fetched projects falls back to the first one. */
  lemma StaleSelectionFallsBack(selected: Option<string>, ps: seq<SimpleProject>)
    requires ps != [] && (selected.Some? ==> !Listed(ps, selected.value))
    ensures TargetProject(selected, ps) == ps[0].id
  {
  }

  /** Both dates missing render as "? - ?". */
  lemma UnknownDates()
    ensures DatesText(None, Some("")) == "? - ?"
  {
  }
}
