/**
 * The bulk shift screen of app/schedule/create.tsx: staff selection, the
 * checks of `handleCreate`, and the expansion of a date range and a staff
 * selection into one schedule item per (day, staff member).
 */
module Schedule {
  import opened Common
  import opened Selection
  import opened DateRange

  /** One row for `schedule_items`. */
  datatype ShiftItem = ShiftItem(userId: string, date: int, shiftType: string,
                                 startTime: string, endTime: string, locationName: string)

  /** The fields every item of one submission shares. */
  datatype ShiftTemplate = ShiftTemplate(shiftType: string, startTime: string, endTime: string, locationName: string)

  function Item(t: ShiftTemplate, day: int, userId: string): ShiftItem {
    ShiftItem(userId, day, t.shiftType, t.startTime, t.endTime, t.locationName)
  }

  /** The items of one day, staff in selection order. */
  function DayItems(t: ShiftTemplate, day: int, staff: seq<string>): (r: seq<ShiftItem>)
    ensures |r| == |staff|
    ensures forall j :: 0 <= j < |staff| ==> r[j] == Item(t, day, staff[j])
  {
    seq(|staff|, j requires 0 <= j < |staff| => Item(t, day, staff[j]))
  }

  /** The items for days `first..last` inclusive, days outermost. */
  function Expansion(t: ShiftTemplate, first: int, last: int, staff: seq<string>): seq<ShiftItem>
    decreases last - first
  {
    if last < first then [] else Expansion(t, first, last - 1, staff) + DayItems(t, last, staff)
  }

  /** `selectAllStaff`: clear when the selection is as long as the staff list, otherwise select everyone. */
  function SelectAll(selected: seq<string>, staffIds: seq<string>): (r: seq<string>)
    ensures |selected| == |staffIds| ==> r == []
    ensures |selected| != |staffIds| ==> r == staffIds
  {
    if |selected| == |staffIds| then [] else staffIds
  }

  datatype CreateResult =
    | Rejected(message: string)
    | InsertFailed(items: seq<ShiftItem>)
    | Created(items: seq<ShiftItem>)

  class BulkShiftForm {
    const picker: RangePicker
    var selectedStaff: seq<string>
    var template: ShiftTemplate

    constructor(picker: RangePicker)
      ensures this.picker == picker && selectedStaff == [] &&
              template == ShiftTemplate("work_shift", "09:00", "18:00", "")
    {
      this.picker := picker;
      selectedStaff := [];
      template := ShiftTemplate("work_shift", "09:00", "18:00", "");
    }

    /** `toggleStaff`. */
    method ToggleStaff(id: string)
      modifies this
      ensures selectedStaff == Toggle(old(selectedStaff), id) && template == old(template)
    {
      selectedStaff := Toggle(selectedStaff, id);
    }

    /** `selectAllStaff`, given the ids of the loaded staff in list order. */
    method SelectAllStaff(staffIds: seq<string>)
      modifies this
      ensures selectedStaff == SelectAll(old(selectedStaff), staffIds) && template == old(template)
    {
      selectedStaff := SelectAll(selectedStaff, staffIds);
    }

    /**
     * `handleCreate`: the two checks, then the expansion and one insert whose
     * success is `insertOk`.
     */
    method HandleCreate(insertOk: bool) returns (result: CreateResult)
      requires picker.Valid()
      ensures picker.startDate.None? || picker.endDate.None? ==>
        result == Rejected("Please select a date range.")
      ensures picker.startDate.Some? && picker.endDate.Some? && selectedStaff == [] ==>
        result == Rejected("Please select at least one staff member.")
      ensures picker.startDate.Some? && picker.endDate.Some? && selectedStaff != [] ==>
        var items := Expansion(template, picker.startDate.value, picker.endDate.value, selectedStaff);
        result == if insertOk then Created(items) else InsertFailed(items)
    {
      if picker.startDate.None? || picker.endDate.None? {
        return Rejected("Please select a date range.");
      }
      if |selectedStaff| == 0 {
        return Rejected("Please select at least one staff member.");
      }
      var items := ExpandShifts(template, picker.startDate.value, picker.endDate.value, selectedStaff);
      result := if insertOk then Created(items) else InsertFailed(items);
    }
  }

  /** The nested `forEach` that fills `shiftItems`. */
  method ExpandShifts(t: ShiftTemplate, first: int, last: int, staff: seq<string>) returns (items: seq<ShiftItem>)
    requires first <= last
    ensures items == Expansion(t, first, last, staff)
  {
    items := [];
    var day := first;
    while day <= last
      invariant first <= day <= last + 1
      invariant items == Expansion(t, first, day - 1, staff)
    {
      ghost var before := items;
      for j := 0 to |staff|
        invariant items == before + DayItems(t, day, staff)[..j]
      {
        assert DayItems(t, day, staff)[..j + 1] == DayItems(t, day, staff)[..j] + [Item(t, day, staff[j])];
        items := items + [Item(t, day, staff[j])];
      }
      assert DayItems(t, day, staff)[..|staff|] == DayItems(t, day, staff);
      day := day + 1;
    }
  }

  /** One item per (day, staff member): the count is days times staff. */
  lemma {:induction false} ExpansionCount(t: ShiftTemplate, first: int, last: int, staff: seq<string>)
    requires first <= last + 1
    ensures |Expansion(t, first, last, staff)| == (last - first + 1) * |staff|
    decreases last - first
  {
    if first <= last {
      ExpansionCount(t, first, last - 1, staff);
      assert (last - first + 1) * |staff| == (last - 1 - first + 1) * |staff| + |staff|;
    }
  }

  /** An item is produced exactly for each day of the range and each selected staff member. */
  lemma {:induction false} ExpansionMember(t: ShiftTemplate, first: int, last: int, staff: seq<string>, it: ShiftItem)
    ensures it in Expansion(t, first, last, staff) <==>
      first <= it.date <= last && it.userId in staff && it == Item(t, it.date, it.userId)
    decreases last - first
  {
    if first <= last {
      ExpansionMember(t, first, last - 1, staff, it);
      if it in DayItems(t, last, staff) {
        var j :| 0 <= j < |staff| && DayItems(t, last, staff)[j] == it;
      }
      if it.date == last && it.userId in staff && it == Item(t, it.date, it.userId) {
        var j :| 0 <= j < |staff| && staff[j] == it.userId;
        assert DayItems(t, last, staff)[j] == it;
      }
    }
  }

  /** Every item carries the submission's type, times and location. */
  lemma ExpansionSharesTemplate(t: ShiftTemplate, first: int, last: int, staff: seq<string>, it: ShiftItem)
    requires it in Expansion(t, first, last, staff)
    ensures it.shiftType == t.shiftType && it.startTime == t.startTime
    ensures it.endTime == t.endTime && it.locationName == t.locationName
  {
    ExpansionMember(t, first, last, staff, it);
  }

  /**
   * The select-all rule compares lengths only: a selection of the right size
   * that misses someone is cleared, not completed.
   */
  lemma SelectAllComparesLengths()
    ensures SelectAll(["a", "a"], ["a", "b"]) == []
  {
  }
}
