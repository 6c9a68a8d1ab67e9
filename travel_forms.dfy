/**
 * The submit rules of the two travel screens that use the period calendar:
 * app/travel/add-hotel.tsx (an accommodation of a project) and
 * app/travel/create.tsx (a new trip project).
 */
module TravelForms {
  import opened Common
  import opened Types
  import opened DateRange

  /** The row `handleCreate` of the hotel screen inserts into `accommodations`. */
  datatype HotelRow = HotelRow(projectId: string, name: string, address: string, mapUrl: string,
                     checkIn: int, checkOut: int)

  datatype HotelOutcome = HotelRejected(message: string) | InsertHotel(row: HotelRow)

  /**
   * The hotel screen's checks in order (blank name, missing project id, either
   * date missing), then the insert.
   */
  function AddHotel(name: string, projectId: Option<string>, address: string, mapUrl: string,
                    start: Option<int>, end: Option<int>): (r: HotelOutcome)
    ensures IsBlank(name) ==> r == HotelRejected("Please enter hotel name")
    ensures !IsBlank(name) && !Present(projectId) ==> r == HotelRejected("Project ID missing")
    ensures !IsBlank(name) && Present(projectId) && (start.None? || end.None?) ==>
      r == HotelRejected("Please select check-in and check-out dates")
    ensures r.InsertHotel? <==> !IsBlank(name) && Present(projectId) && start.Some? && end.Some?
    ensures r.InsertHotel? ==>
      r.row.checkIn == start.value && r.row.checkOut == end.value &&
      r.row.projectId == projectId.value && r.row.name == name
  {
    if IsBlank(name) then HotelRejected("Please enter hotel name")
    else if !Present(projectId) then HotelRejected("Project ID missing")
    else if start.None? || end.None? then HotelRejected("Please select check-in and check-out dates")
    else InsertHotel(HotelRow(projectId.value, name, address, mapUrl, start.value, end.value))
  }

  /** The row the trip screen inserts into `projects`. */
  datatype Project = Project(organizationId: Option<string>, name: string, description: string,
                             startDate: int, endDate: int, status: ProjectStatus)

  datatype TripOutcome = TripRejected(message: string) | NoUser | InsertTrip(row: Project)

  /**
   * The trip screen: a blank name or a missing start is rejected, a missing end
   * is not; without a signed-in user nothing happens; the end defaults to the
   * start and the status is 'planning'.
   */
  function CreateTrip(name: string, description: string, start: Option<int>, end: Option<int>,
                      user: Option<string>, organizationId: Option<string>): (r: TripOutcome)
    ensures IsBlank(name) ==> r == TripRejected("Please enter a trip name")
    ensures !IsBlank(name) && start.None? ==> r == TripRejected("Please select at least one date")
    ensures r.InsertTrip? <==> !IsBlank(name) && start.Some? && user.Some?
    ensures r.InsertTrip? ==> r.row.startDate == start.value && r.row.status == Planning
    ensures r.InsertTrip? && end.Some? ==> r.row.endDate == end.value
    ensures r.InsertTrip? && end.None? ==> r.row.endDate == start.value
  {
    if IsBlank(name) then TripRejected("Please enter a trip name")
    else if start.None? then TripRejected("Please select at least one date")
    else if user.None? then NoUser
    else InsertTrip(Project(organizationId, name, description, start.value,
                            if end.Some? then end.value else start.value, Planning))
  }

  /** A trip created from the picker's state never ends before it starts. */
  lemma TripDatesOrdered(name: string, description: string, start: Option<int>, end: Option<int>,
                         user: Option<string>, organizationId: Option<string>)
    requires Ordered(start, end)
    requires CreateTrip(name, description, start, end, user, organizationId).InsertTrip?
    ensures var p := CreateTrip(name, description, start, end, user, organizationId).row;
      p.startDate <= p.endDate
  {
  }

  /** A hotel booked from the picker's state never checks out before it checks in. */
  lemma HotelDatesOrdered(name: string, projectId: Option<string>, address: string, mapUrl: string,
                          start: Option<int>, end: Option<int>)
    requires Ordered(start, end)
    requires AddHotel(name, projectId, address, mapUrl, start, end).InsertHotel?
    ensures var a := AddHotel(name, projectId, address, mapUrl, start, end).row;
      a.checkIn <= a.checkOut
  {
  }

  /** A whitespace-only trip or hotel name is rejected even when everything else is filled in. */
  lemma WhitespaceNameRejected(start: int, end: int)
    ensures CreateTrip("  ", "", Some(start), Some(end), Some("u"), None).TripRejected?
    ensures AddHotel(" ", Some("p"), "", "", Some(start), Some(end)).HotelRejected?
  {
    assert IsSpace("  "[0]) && IsSpace("  "[1]);
    BlankIffAllSpace("  ");
    BlankIffAllSpace(" ");
  }
}
