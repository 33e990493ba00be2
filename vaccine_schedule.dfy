/** The vaccine schedule engine of the view model: the schedule rows a
    country's table holds, the status of a due date relative to today, and
    the expansion of the rows into the user's list of vaccine items. */
module VaccineSchedule {
  import opened Wrappers
  import opened DataModels

  /** One entry of a row's `items` list. */
  datatype ScheduleEntry = ScheduleEntry(name: string, antigens: Option<seq<string>>)

  /** One row of a country's schedule, with the fields the engine reads. */
  datatype VaccineAppointment = VaccineAppointment(
    ageDays: Option<int>,
    labelText: Option<string>,  // the `label` field (`label` is a Dafny keyword)
    items: Option<seq<ScheduleEntry>>,
    code: Option<string>,
    name: Option<string>)

  datatype VaccineScheduleData = VaccineScheduleData(schedule: seq<VaccineAppointment>)

  const DefaultAgeRange: string := "As scheduled"
  const AntigenSeparator: string := ", "

  /** `joined(separator:)`. */
  function Join(parts: seq<string>, sep: string): (r: string)
    ensures |parts| == 0 ==> r == ""
    ensures |parts| == 1 ==> r == parts[0]
    ensures |parts| > 0 ==> parts[0] <= r
  {
    if |parts| == 0 then ""
    else if |parts| == 1 then parts[0]
    else parts[0] + sep + Join(parts[1..], sep)
  }

  /** Joining one more part appends the separator and that part. */
  lemma {:induction false} JoinSnoc(a: seq<string>, x: string, sep: string)
    requires |a| > 0
    ensures Join(a + [x], sep) == Join(a, sep) + sep + x
    decreases |a|
  {
    if |a| > 1 {
      assert (a + [x])[1..] == a[1..] + [x];
      JoinSnoc(a[1..], x, sep);
    }
  }

  /** `determineVaccineStatus`: overdue more than a week after the due day,
      due from a week after it up to the day itself, upcoming before it and
      when there is no due date. */
  function DetermineVaccineStatus(dueDate: Option<Day>, today: Day): (s: VaccineStatus)
    ensures s != Completed
    ensures dueDate.None? ==> s == Upcoming
    ensures dueDate.Some? ==> (s == Overdue <==> dueDate.value - today < -7)
    ensures dueDate.Some? ==> (s == Due <==> -7 <= dueDate.value - today <= 0)
    ensures dueDate.Some? ==> (s == Upcoming <==> dueDate.value - today > 0)
  {
    match dueDate
    case None => Upcoming
    case Some(due) =>
      var daysUntilDue := due - today;
      if daysUntilDue < -7 then Overdue
      else if daysUntilDue <= 0 then Due
      else Upcoming
  }

  /** How pressing a status is: overdue over due over upcoming. */
  function Urgency(s: VaccineStatus): nat
  {
    match s
    case Upcoming => 0
    case Due => 1
    case Overdue => 2
    case Completed => 0
  }

  /** A later due date is never more pressing, and one day later never skips
      from overdue straight to upcoming. */
  lemma StatusMonotone(due: Day, later: Day, today: Day)
    requires due <= later
    ensures Urgency(DetermineVaccineStatus(Some(later), today)) <= Urgency(DetermineVaccineStatus(Some(due), today))
  {
  }

  /** The boundary days of the thresholds. */
  lemma StatusBoundaries(today: Day)
    ensures DetermineVaccineStatus(Some(today - 8), today) == Overdue
    ensures DetermineVaccineStatus(Some(today - 7), today) == Due
    ensures DetermineVaccineStatus(Some(today), today) == Due
    ensures DetermineVaccineStatus(Some(today + 1), today) == Upcoming
  {
  }

  /** The description of an entry: its antigens joined by ", ", or its name
      when it lists no antigens at all. */
  function EntryDescription(e: ScheduleEntry): string
  {
    match e.antigens
    case Some(a) => Join(a, AntigenSeparator)
    case None => e.name
  }

  /** How many items a row yields. */
  function RowCount(row: VaccineAppointment): nat
  {
    if row.ageDays.None? then 0
    else if row.items.Some? then |row.items.value|
    else if row.code.Some? && row.name.Some? then 1
    else 0
  }

  /** The items one row yields for a reference day, numbered from `firstId`:
      one per entry of `items`, else one from `code` and `name`, else none;
      nothing at all without `ageDays`. */
  function RowItems(row: VaccineAppointment, base: Day, today: Day, firstId: Id): (r: seq<VaccineItem>)
    ensures |r| == RowCount(row)
  {
    match row.ageDays
    case None => []
    case Some(ageDays) =>
      var due := Some(base + ageDays);
      var status := DetermineVaccineStatus(due, today);
      var ageRange := OrElse(row.labelText, DefaultAgeRange);
      if row.items.Some? then
        var entries := row.items.value;
        seq(|entries|, k requires 0 <= k < |entries| =>
          VaccineItem(firstId + k, entries[k].name, ageRange, EntryDescription(entries[k]), due, status, None))
      else if row.code.Some? && row.name.Some? then
        [VaccineItem(firstId, row.name.value, ageRange, row.code.value, due, status, None)]
      else []
  }

  /** Each item of a row is numbered in turn, is due `ageDays` after the
      reference day, has the status of that day, the row's label (or "As
      scheduled") and no completion; its name and description come from its
      entry, or from the row's `name` and `code`. */
  lemma RowItemsShape(row: VaccineAppointment, base: Day, today: Day, firstId: Id)
    ensures var r := RowItems(row, base, today, firstId);
      && (forall k :: 0 <= k < |r| ==> r[k].id == firstId + k)
      && (forall k :: 0 <= k < |r| ==>
           && row.ageDays.Some?
           && r[k].dueDate == Some(base + row.ageDays.value)
           && r[k].status == DetermineVaccineStatus(r[k].dueDate, today)
           && r[k].ageRange == OrElse(row.labelText, DefaultAgeRange)
           && r[k].completedDate.None?)
      && (row.items.Some? ==> forall k :: 0 <= k < |r| ==>
           r[k].name == row.items.value[k].name && r[k].description == EntryDescription(row.items.value[k]))
      && (row.items.None? ==> forall k :: 0 <= k < |r| ==>
           row.code.Some? && row.name.Some? && r[k].name == row.name.value && r[k].description == row.code.value)
  {
  }

  /** The body of `loadVaccinesFromJSON`'s loop: the rows expanded in order,
      the items numbered consecutively from `firstId`. */
  function ScheduleItems(rows: seq<VaccineAppointment>, base: Day, today: Day, firstId: Id): seq<VaccineItem>
    decreases |rows|
  {
    if |rows| == 0 then []
    else
      var init := ScheduleItems(rows[..|rows| - 1], base, today, firstId);
      init + RowItems(rows[|rows| - 1], base, today, firstId + |init|)
  }

  /** Unfolds `ScheduleItems` once; a proof step for the lemmas below. */
  lemma {:induction false} ScheduleItemsLast(rows: seq<VaccineAppointment>, base: Day, today: Day, firstId: Id)
    requires |rows| > 0
    ensures ScheduleItems(rows, base, today, firstId) ==
      var init := ScheduleItems(rows[..|rows| - 1], base, today, firstId);
      init + RowItems(rows[|rows| - 1], base, today, firstId + |init|)
  {
  }

  /** Adding one more row appends its items after those of the rows before it,
      numbered on from them: the loop's step. */
  lemma ScheduleItemsPrefixStep(rows: seq<VaccineAppointment>, i: nat, base: Day, today: Day, firstId: Id)
    requires i < |rows|
    ensures ScheduleItems(rows[..i + 1], base, today, firstId) ==
      ScheduleItems(rows[..i], base, today, firstId)
        + RowItems(rows[i], base, today, firstId + |ScheduleItems(rows[..i], base, today, firstId)|)
  {
    assert rows[..i + 1][..i] == rows[..i];
    ScheduleItemsLast(rows[..i + 1], base, today, firstId);
  }

  /** The loop's step in terms of its own variables: appending the next row's
      items, numbered on, to the items of the rows so far gives the items of
      one more row. */
  lemma ScheduleItemsExtend(rows: seq<VaccineAppointment>, i: nat, base: Day, today: Day, firstId: Id,
                            before: seq<VaccineItem>, after: seq<VaccineItem>)
    requires i < |rows| && before == ScheduleItems(rows[..i], base, today, firstId)
    requires after == before + RowItems(rows[i], base, today, firstId + |before|)
    ensures after == ScheduleItems(rows[..i + 1], base, today, firstId)
  {
    var row := RowItems(rows[i], base, today, firstId + |before|);
    assert after == before + row;
    ScheduleItemsPrefixStep(rows, i, base, today, firstId);
    assert ScheduleItems(rows[..i + 1], base, today, firstId) == before + row;
  }

  /** A single row expands to exactly its own items. */
  lemma ScheduleItemsSingle(row: VaccineAppointment, base: Day, today: Day, firstId: Id)
    ensures ScheduleItems([row], base, today, firstId) == RowItems(row, base, today, firstId)
  {
    assert [row][..0] == [];
  }

  /** The number of items is the sum of what the rows yield. */
  function TotalCount(rows: seq<VaccineAppointment>): nat
    decreases |rows|
  {
    if |rows| == 0 then 0 else TotalCount(rows[..|rows| - 1]) + RowCount(rows[|rows| - 1])
  }

  /** What item `v` must look like if it came from `row`. */
  ghost predicate ItemOfRow(v: VaccineItem, row: VaccineAppointment, base: Day, today: Day)
  {
    && row.ageDays.Some?
    && v.dueDate == Some(base + row.ageDays.value)
    && v.status == DetermineVaccineStatus(v.dueDate, today)
    && v.ageRange == OrElse(row.labelText, DefaultAgeRange)
    && v.completedDate.None?
    && (if row.items.Some?
        then exists e :: e in row.items.value && v.name == e.name && v.description == EntryDescription(e)
        else row.code.Some? && row.name.Some? && v.name == row.name.value && v.description == row.code.value)
  }

  /** Every item a row yields is an item of that row. */
  lemma RowItemsOfRow(row: VaccineAppointment, base: Day, today: Day, firstId: Id)
    ensures forall k :: 0 <= k < |RowItems(row, base, today, firstId)| ==>
      ItemOfRow(RowItems(row, base, today, firstId)[k], row, base, today)
  {
    var r := RowItems(row, base, today, firstId);
    RowItemsShape(row, base, today, firstId);
    forall k | 0 <= k < |r| ensures ItemOfRow(r[k], row, base, today) {
      if row.items.Some? {
        assert row.items.value[k] in row.items.value;
      }
    }
  }

  /** The schedule has as many items as the rows yield together. */
  lemma {:induction false} ScheduleItemsCount(rows: seq<VaccineAppointment>, base: Day, today: Day, firstId: Id)
    ensures |ScheduleItems(rows, base, today, firstId)| == TotalCount(rows)
    decreases |rows|
  {
    if |rows| > 0 {
      ScheduleItemsCount(rows[..|rows| - 1], base, today, firstId);
      ScheduleItemsLast(rows, base, today, firstId);
    }
  }

  /** The schedule's items are numbered consecutively from `firstId`. */
  lemma {:induction false} ScheduleItemsIds(rows: seq<VaccineAppointment>, base: Day, today: Day, firstId: Id)
    ensures forall k :: 0 <= k < |ScheduleItems(rows, base, today, firstId)| ==>
      ScheduleItems(rows, base, today, firstId)[k].id == firstId + k
    decreases |rows|
  {
    if |rows| > 0 {
      ScheduleItemsIds(rows[..|rows| - 1], base, today, firstId);
      ScheduleItemsLast(rows, base, today, firstId);
      var s0 := ScheduleItems(rows[..|rows| - 1], base, today, firstId);
      var r := RowItems(rows[|rows| - 1], base, today, firstId + |s0|);
      RowItemsShape(rows[|rows| - 1], base, today, firstId + |s0|);
      var s := s0 + r;
      forall k | 0 <= k < |s| ensures s[k].id == firstId + k {
        if k >= |s0| { assert s[k] == r[k - |s0|]; }
      }
    }
  }

  /** Every item of the schedule is an item of one of the rows. */
  lemma {:induction false} ScheduleItemsFromRows(rows: seq<VaccineAppointment>, base: Day, today: Day, firstId: Id)
    ensures forall k :: 0 <= k < |ScheduleItems(rows, base, today, firstId)| ==>
      exists i :: 0 <= i < |rows| && ItemOfRow(ScheduleItems(rows, base, today, firstId)[k], rows[i], base, today)
    decreases |rows|
  {
    if |rows| > 0 {
      var init := rows[..|rows| - 1];
      var last := rows[|rows| - 1];
      ScheduleItemsFromRows(init, base, today, firstId);
      ScheduleItemsLast(rows, base, today, firstId);
      var s0 := ScheduleItems(init, base, today, firstId);
      var r := RowItems(last, base, today, firstId + |s0|);
      RowItemsOfRow(last, base, today, firstId + |s0|);
      var s := s0 + r;
      forall k | 0 <= k < |s|
        ensures exists i :: 0 <= i < |rows| && ItemOfRow(s[k], rows[i], base, today)
      {
        if k < |s0| {
          var i :| 0 <= i < |init| && ItemOfRow(s0[k], init[i], base, today);
          assert s[k] == s0[k] && rows[i] == init[i];
        } else {
          assert s[k] == r[k - |s0|];
          assert ItemOfRow(s[k], rows[|rows| - 1], base, today);
        }
      }
    } else {
      assert ScheduleItems(rows, base, today, firstId) == [];
    }
  }

  /** Every item of the schedule comes from a row that has `ageDays`, is due
      that many days after the reference day, carries the status of that due
      day and is not completed; the items are numbered consecutively. */
  lemma ScheduleItemsShape(rows: seq<VaccineAppointment>, base: Day, today: Day, firstId: Id)
    ensures |ScheduleItems(rows, base, today, firstId)| == TotalCount(rows)
    ensures forall k :: 0 <= k < |ScheduleItems(rows, base, today, firstId)| ==>
      ScheduleItems(rows, base, today, firstId)[k].id == firstId + k
    ensures forall k :: 0 <= k < |ScheduleItems(rows, base, today, firstId)| ==>
      exists i :: 0 <= i < |rows| && ItemOfRow(ScheduleItems(rows, base, today, firstId)[k], rows[i], base, today)
  {
    ScheduleItemsCount(rows, base, today, firstId);
    ScheduleItemsIds(rows, base, today, firstId);
    ScheduleItemsFromRows(rows, base, today, firstId);
  }

  /** A freshly built schedule has no completed item: completion is never
      carried over to a rebuilt list. */
  lemma ScheduleItemsNotCompleted(rows: seq<VaccineAppointment>, base: Day, today: Day, firstId: Id)
    ensures forall v :: v in ScheduleItems(rows, base, today, firstId) ==>
      v.status != Completed && v.completedDate.None?
  {
    ScheduleItemsShape(rows, base, today, firstId);
  }

  /** `loadVaccinesFromJSON` as a function of the current user, the schedule
      the loader found for the user's country, and today. */
  function BuildSchedule(user: Option<User>, data: Option<VaccineScheduleData>, today: Day, firstId: Id): seq<VaccineItem>
  {
    if user.None? || data.None? then []
    else
      match ReferenceDate(user.value)
      case None => []
      case Some(base) => ScheduleItems(data.value.schedule, base, today, firstId)
  }

  /** The schedule is empty without a user, without schedule data, without a
      user type, for a user with a child but no birth date (an expected
      delivery date does not help), and for a pregnant user without one. */
  lemma BuildScheduleEmpty(user: Option<User>, data: Option<VaccineScheduleData>, today: Day, firstId: Id)
    requires || user.None?
             || data.None?
             || user.value.userType.None?
             || (user.value.userType == Some(HasChild) && user.value.birthDate.None?)
             || (user.value.userType == Some(Pregnant) && user.value.expectedDeliveryDate.None?)
    ensures BuildSchedule(user, data, today, firstId) == []
  {
  }

  /** So a schedule with items belongs to a user who has finished onboarding. */
  lemma BuildScheduleNeedsOnboardedUser(user: Option<User>, data: Option<VaccineScheduleData>, today: Day, firstId: Id)
    requires BuildSchedule(user, data, today, firstId) != []
    ensures user.Some? && !NeedsOnboarding(user.value) && data.Some?
  {
    if user.Some? {
      NeedsOnboardingIffNoReferenceDate(user.value);
    }
  }

  /** With a reference day, every item is due `ageDays` after it: the birth
      date of a user with a child, the expected delivery date of a pregnant user. */
  lemma BuildScheduleDueDates(u: User, data: VaccineScheduleData, today: Day, firstId: Id)
    requires ReferenceDate(u).Some?
    ensures forall k :: 0 <= k < |BuildSchedule(Some(u), Some(data), today, firstId)| ==>
      exists i :: 0 <= i < |data.schedule| &&
        ItemOfRow(BuildSchedule(Some(u), Some(data), today, firstId)[k], data.schedule[i], ReferenceDate(u).value, today)
    ensures u.userType == Some(HasChild) ==> ReferenceDate(u) == u.birthDate
    ensures u.userType == Some(Pregnant) ==> ReferenceDate(u) == u.expectedDeliveryDate
  {
    ScheduleItemsShape(data.schedule, ReferenceDate(u).value, today, firstId);
  }
}
