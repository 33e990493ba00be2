/** `PlanningView`: the hospital-bag checklist (counts, grouping by category,
    the default items, packing and deleting, custom items) and the
    appointment tracker (upcoming and past lists, marking done, saving a new
    appointment with its reminder). */
module Planning {
  import opened Wrappers
  import opened DataModels
  import opened HealthModels

  // ---------------------------------------------------------------------------
  // Hospital bag checklist

  /** `packedCount`. */
  function PackedCount(items: seq<HospitalBagItem>): (n: nat)
    reads items
    ensures n <= |items|
    ensures n == 0 <==> forall k :: 0 <= k < |items| ==> !items[k].isPacked
    ensures n == |items| <==> forall k :: 0 <= k < |items| ==> items[k].isPacked
    decreases |items|
  {
    if |items| == 0 then 0
    else (if items[0].isPacked then 1 else 0) + PackedCount(items[1..])
  }

  /** Counting over a concatenation counts each part in turn. With
      `PackedCountSingle` this fixes the count: the number of packed items. */
  lemma {:induction false} PackedCountAppend(a: seq<HospitalBagItem>, b: seq<HospitalBagItem>)
    ensures PackedCount(a + b) == PackedCount(a) + PackedCount(b)
    decreases |a|
  {
    if |a| == 0 {
      assert a + b == b;
    } else {
      assert (a + b)[1..] == a[1..] + b;
      PackedCountAppend(a[1..], b);
    }
  }

  /** One item counts 1 exactly when it is packed. */
  lemma PackedCountSingle(x: HospitalBagItem)
    ensures PackedCount([x]) == if x.isPacked then 1 else 0
  {
    assert [x][1..] == [];
  }

  /** `part / whole` as a share between 0 and 1, and 0 for nothing. */
  function Share(part: nat, whole: nat): (r: real)
    requires part <= whole
    ensures whole == 0 ==> r == 0.0
    ensures 0.0 <= r <= 1.0
    ensures whole > 0 ==> r * whole as real == part as real
    ensures r == 1.0 <==> whole > 0 && part == whole
    ensures r == 0.0 <==> part == 0
  {
    if whole == 0 then 0.0
    else
      QuotientFacts(part as real, whole as real);
      part as real / whole as real
  }

  /** A quotient of a part by a positive whole, on reals. */
  lemma QuotientFacts(p: real, w: real)
    requires 0.0 <= p <= w && w > 0.0
    ensures (p / w) * w == p
    ensures 0.0 <= p / w <= 1.0
    ensures p / w == 1.0 <==> p == w
    ensures p / w == 0.0 <==> p == 0.0
  {
  }

  /** `progress`: the packed share, 0 for an empty list. */
  function Progress(items: seq<HospitalBagItem>): (r: real)
    reads items
    ensures |items| == 0 ==> r == 0.0
    ensures 0.0 <= r <= 1.0
  {
    Share(PackedCount(items), |items|)
  }

  /** The progress is complete exactly when there are items and all of them
      are packed, and nothing exactly when no item is packed. */
  lemma ProgressExtremes(items: seq<HospitalBagItem>)
    ensures Progress(items) == 1.0 <==> |items| > 0 && forall k :: 0 <= k < |items| ==> items[k].isPacked
    ensures Progress(items) == 0.0 <==> forall k :: 0 <= k < |items| ==> !items[k].isPacked
  {
  }

  const AllCategories: set<ChecklistCategory> :=
    {ForMom, ForBaby, ForPartner, Documents, ChecklistCategory.Other}

  lemma AllCategoriesComplete(c: ChecklistCategory)
    ensures c in AllCategories
  {
  }

  /** The items whose `category` is `c`, in list order. */
  function InCategory(items: seq<HospitalBagItem>, c: ChecklistCategory): (r: seq<HospitalBagItem>)
    reads items
    ensures |r| <= |items|
    ensures forall k :: 0 <= k < |r| ==> r[k] in items && r[k].Category() == c
    ensures forall k :: 0 <= k < |items| && items[k].Category() == c ==> items[k] in r
    decreases |items|
  {
    if |items| == 0 then []
    else if items[0].Category() == c then [items[0]] + InCategory(items[1..], c)
    else InCategory(items[1..], c)
  }

  /** Grouping a concatenation groups each part in turn. With
      `InCategorySingle` this fixes the group: the category's items, each as
      often as the list holds it, in list order. */
  lemma {:induction false} InCategoryAppend(a: seq<HospitalBagItem>, b: seq<HospitalBagItem>, c: ChecklistCategory)
    ensures InCategory(a + b, c) == InCategory(a, c) + InCategory(b, c)
    decreases |a|
  {
    if |a| == 0 {
      assert a + b == b;
    } else {
      assert (a + b)[1..] == a[1..] + b;
      InCategoryAppend(a[1..], b, c);
    }
  }

  /** One item stays exactly when it is in the category. */
  lemma InCategorySingle(x: HospitalBagItem, c: ChecklistCategory)
    ensures InCategory([x], c) == if x.Category() == c then [x] else []
  {
    assert [x][1..] == [];
  }

  /** `itemsByCategory`: `Dictionary(grouping: items, by: { $0.category })`,
      a group for every category some item has. */
  function ItemsByCategory(items: seq<HospitalBagItem>): (r: map<ChecklistCategory, seq<HospitalBagItem>>)
    reads items
    ensures forall c :: c in r <==> exists k :: 0 <= k < |items| && items[k].Category() == c
    ensures forall c :: c in r ==> r[c] == InCategory(items, c) && |r[c]| > 0
  {
    var r := map c | c in AllCategories && |InCategory(items, c)| > 0 :: InCategory(items, c);
    assert forall c :: c in r <==> exists k :: 0 <= k < |items| && items[k].Category() == c by {
      forall c ensures c in r <==> exists k :: 0 <= k < |items| && items[k].Category() == c {
        AllCategoriesComplete(c);
        if exists k :: 0 <= k < |items| && items[k].Category() == c {
          var k :| 0 <= k < |items| && items[k].Category() == c;
          assert items[k] in InCategory(items, c);
        }
        if |InCategory(items, c)| > 0 {
          var x := InCategory(items, c)[0];
          assert x in items && x.Category() == c;
        }
      }
    }
    r
  }

  /** The grouping is a partition: every item is in the group of its own
      category and in no other. */
  lemma ItemsByCategoryPartition(items: seq<HospitalBagItem>, k: nat, c: ChecklistCategory)
    requires k < |items|
    ensures items[k].Category() in ItemsByCategory(items)
    ensures items[k] in ItemsByCategory(items)[items[k].Category()]
    ensures c in ItemsByCategory(items) && items[k] in ItemsByCategory(items)[c] ==> c == items[k].Category()
  {
  }

  /** The default list, section by section. */
  const MomDefaults: seq<string> := [
    "Comfortable clothes for labor",
    "Nursing bras",
    "Maternity pads",
    "Toiletries",
    "Slippers",
    "Phone charger",
    "Going-home outfit"]

  const BabyDefaults: seq<string> := [
    "Baby clothes (newborn & 0-3 months)",
    "Diapers",
    "Baby wipes",
    "Receiving blankets",
    "Car seat",
    "Going-home outfit"]

  const PartnerDefaults: seq<string> := [
    "Snacks and drinks",
    "Change of clothes",
    "Entertainment (books, tablet)",
    "Camera"]

  const DocumentDefaults: seq<string> := [
    "ID and insurance cards",
    "Birth plan (if you have one)",
    "Hospital paperwork",
    "Pediatrician contact info"]

  /** One section of the table: each name paired with the section's category. */
  function Section(names: seq<string>, c: ChecklistCategory): (t: seq<(string, ChecklistCategory)>)
  {
    seq(|names|, k requires 0 <= k < |names| => (names[k], c))
  }

  /** The `defaultItems` table of `initializeDefaultItems`. */
  const DefaultItems: seq<(string, ChecklistCategory)> :=
    Section(MomDefaults, ForMom) + Section(BabyDefaults, ForBaby)
    + Section(PartnerDefaults, ForPartner) + Section(DocumentDefaults, Documents)

  /** How many entries of a table are in category `c`. */
  function CategoryCount(t: seq<(string, ChecklistCategory)>, c: ChecklistCategory): (n: nat)
    ensures n <= |t|
    decreases |t|
  {
    if |t| == 0 then 0 else (if t[0].1 == c then 1 else 0) + CategoryCount(t[1..], c)
  }

  lemma {:induction false} CategoryCountAppend(a: seq<(string, ChecklistCategory)>, b: seq<(string, ChecklistCategory)>, c: ChecklistCategory)
    ensures CategoryCount(a + b, c) == CategoryCount(a, c) + CategoryCount(b, c)
    decreases |a|
  {
    if |a| > 0 {
      assert (a + b)[1..] == a[1..] + b;
      CategoryCountAppend(a[1..], b, c);
    } else {
      assert a + b == b;
    }
  }

  lemma {:induction false} CategoryCountUniform(t: seq<(string, ChecklistCategory)>, c0: ChecklistCategory, c: ChecklistCategory)
    requires forall k :: 0 <= k < |t| ==> t[k].1 == c0
    ensures CategoryCount(t, c) == if c == c0 then |t| else 0
    decreases |t|
  {
    if |t| > 0 {
      CategoryCountUniform(t[1..], c0, c);
    }
  }

  /** The default list has 21 entries, none in `.other`. */
  lemma DefaultItemsSize()
    ensures |DefaultItems| == 21
    ensures forall k :: 0 <= k < |DefaultItems| ==> DefaultItems[k].1 != ChecklistCategory.Other
  {
  }

  /** A section counts its own names for its category and nothing else. */
  lemma SectionCount(names: seq<string>, c0: ChecklistCategory, c: ChecklistCategory)
    ensures CategoryCount(Section(names, c0), c) == if c == c0 then |names| else 0
  {
    CategoryCountUniform(Section(names, c0), c0, c);
  }

  /** Seven for mom, six for baby, four for the partner, four documents. */
  lemma DefaultItemsPerCategory(c: ChecklistCategory)
    ensures CategoryCount(DefaultItems, c) ==
      match c
      case ForMom => 7
      case ForBaby => 6
      case ForPartner => 4
      case Documents => 4
      case Other => 0
  {
    var mom, baby := Section(MomDefaults, ForMom), Section(BabyDefaults, ForBaby);
    var partner, documents := Section(PartnerDefaults, ForPartner), Section(DocumentDefaults, Documents);
    CategoryCountAppend(mom + baby + partner, documents, c);
    CategoryCountAppend(mom + baby, partner, c);
    CategoryCountAppend(mom, baby, c);
    SectionCount(MomDefaults, ForMom, c);
    SectionCount(BabyDefaults, ForBaby, c);
    SectionCount(PartnerDefaults, ForPartner, c);
    SectionCount(DocumentDefaults, Documents, c);
  }

  /** The buttons of a checklist row. */
  datatype ItemAction = PackToggle | DeleteItemButton

  /** Every row can be ticked; only custom items can be deleted. */
  function RowActions(item: HospitalBagItem): (r: set<ItemAction>)
    reads item
    ensures PackToggle in r
    ensures DeleteItemButton in r <==> item.isCustom
  {
    if item.isCustom then {PackToggle, DeleteItemButton} else {PackToggle}
  }

  /** The state of the Add Item sheet. */
  datatype ItemForm = ItemForm(itemName: string, selectedCategory: ChecklistCategory)

  /** The sheet opens with no name and `.forMom` selected. */
  const NewItemForm: ItemForm := ItemForm("", ForMom)

  /** The Add button is enabled exactly when a name is typed. */
  predicate CanAddItem(form: ItemForm)
  {
    form.itemName != ""
  }

  /** An item made from an entry of the default table: its name and
      category, neither custom nor packed. */
  predicate IsDefaultItem(item: HospitalBagItem, entry: (string, ChecklistCategory))
    reads item
  {
    item.name == entry.0 && item.Category() == entry.1 && !item.isCustom && !item.isPacked
  }

  class HospitalBagChecklistView {
    /** The stored items. */
    var items: seq<HospitalBagItem>
    /** The next fresh id. */
    var nextId: Id

    constructor(items: seq<HospitalBagItem>, nextId: Id)
      ensures this.items == items && this.nextId == nextId
    {
      this.items := items;
      this.nextId := nextId;
    }

    function PackedItems(): (n: nat)
      reads this, items
      ensures n <= |items|
      ensures n == PackedCount(items)
    {
      PackedCount(items)
    }

    /** `initializeDefaultItems`: inserts one non-custom, unpacked item per
        entry of the default table, in table order. */
    method InitializeDefaultItems()
      modifies this`items, this`nextId
      ensures |items| == |old(items)| + |DefaultItems| && items[..|old(items)|] == old(items)
      ensures forall j :: |old(items)| <= j < |items| ==>
        fresh(items[j]) && IsDefaultItem(items[j], DefaultItems[j - |old(items)|])
      ensures nextId == old(nextId) + |DefaultItems|
    {
      InsertItems(DefaultItems);
    }

    /** The loop of `initializeDefaultItems` over a table of names and
        categories: one fresh item per entry, appended in order. */
    method InsertItems(table: seq<(string, ChecklistCategory)>)
      modifies this`items, this`nextId
      ensures |items| == |old(items)| + |table| && items[..|old(items)|] == old(items)
      ensures forall j :: |old(items)| <= j < |items| ==>
        fresh(items[j]) && IsDefaultItem(items[j], table[j - |old(items)|])
      ensures nextId == old(nextId) + |table|
    {
      ghost var n0 := |items|;
      var i := 0;
      while i < |table|
        invariant 0 <= i <= |table|
        invariant |items| == n0 + i && items[..n0] == old(items)
        invariant nextId == old(nextId) + i
        invariant forall j :: n0 <= j < |items| ==>
          fresh(items[j]) && IsDefaultItem(items[j], table[j - n0])
      {
        var (name, category) := table[i];
        var item := new HospitalBagItem(nextId, name, category, isCustom := false);
        assert IsDefaultItem(item, table[i]);
        items := items + [item];
        nextId := nextId + 1;
        i := i + 1;
      }
    }

    /** The packing button: flips that item's `isPacked` and nothing else. */
    method TogglePacked(item: HospitalBagItem)
      modifies item`isPacked
      ensures item.isPacked == !old(item.isPacked)
    {
      item.isPacked := !item.isPacked;
    }

    /** `deleteItem`: the item leaves the list. */
    method DeleteItem(item: HospitalBagItem)
      modifies this`items
      ensures items == Filter(old(items), (x: HospitalBagItem) => x != item)
      ensures item !in items
      ensures forall k :: 0 <= k < |old(items)| && old(items)[k] != item ==> old(items)[k] in items
    {
      items := Filter(items, (x: HospitalBagItem) => x != item);
    }

    /** `saveItem`: inserts the named item as a custom, unpacked one. */
    method SaveItem(form: ItemForm) returns (item: HospitalBagItem)
      modifies this`items, this`nextId
      ensures fresh(item) && items == old(items) + [item]
      ensures item.name == form.itemName && item.Category() == form.selectedCategory
      ensures item.isCustom && !item.isPacked
      ensures item.id == old(nextId) && nextId == old(nextId) + 1
    {
      item := new HospitalBagItem(nextId, form.itemName, form.selectedCategory, isCustom := true);
      items := items + [item];
      nextId := nextId + 1;
    }
  }

  // ---------------------------------------------------------------------------
  // Appointment tracker

  /** How many past appointments the list shows. */
  const MaxPastShown: nat := 10

  /** A reminder fires a day (24 hours, in seconds) before the appointment. */
  const ReminderLead: int := 24 * 60 * 60

  /** `upcomingAppointments`. */
  function UpcomingAppointments(apps: seq<Appointment>, now: Instant): (r: seq<Appointment>)
    reads apps
    ensures |r| <= |apps|
    ensures forall k :: 0 <= k < |r| ==> r[k] in apps && r[k].IsUpcoming(now)
    ensures forall k :: 0 <= k < |apps| && apps[k].IsUpcoming(now) ==> apps[k] in r
    decreases |apps|
  {
    if |apps| == 0 then []
    else if apps[0].IsUpcoming(now) then [apps[0]] + UpcomingAppointments(apps[1..], now)
    else UpcomingAppointments(apps[1..], now)
  }

  /** The upcoming list of a concatenation is that of each part in turn.
      With `UpcomingSingle` this fixes the list: the upcoming appointments,
      each as often as the list holds it, in list order. */
  lemma {:induction false} UpcomingAppend(a: seq<Appointment>, b: seq<Appointment>, now: Instant)
    ensures UpcomingAppointments(a + b, now) == UpcomingAppointments(a, now) + UpcomingAppointments(b, now)
    decreases |a|
  {
    if |a| == 0 {
      assert a + b == b;
    } else {
      assert (a + b)[1..] == a[1..] + b;
      UpcomingAppend(a[1..], b, now);
    }
  }

  /** One appointment stays exactly when it is upcoming. */
  lemma UpcomingSingle(x: Appointment, now: Instant)
    ensures UpcomingAppointments([x], now) == if x.IsUpcoming(now) then [x] else []
  {
    assert [x][1..] == [];
  }

  /** `pastAppointments`: past or completed. */
  function PastAppointments(apps: seq<Appointment>, now: Instant): (r: seq<Appointment>)
    reads apps
    ensures |r| <= |apps|
    ensures forall k :: 0 <= k < |r| ==> r[k] in apps && (r[k].IsPast(now) || r[k].isCompleted)
    ensures forall k :: 0 <= k < |apps| && (apps[k].IsPast(now) || apps[k].isCompleted) ==> apps[k] in r
    decreases |apps|
  {
    if |apps| == 0 then []
    else if apps[0].IsPast(now) || apps[0].isCompleted then [apps[0]] + PastAppointments(apps[1..], now)
    else PastAppointments(apps[1..], now)
  }

  /** The past list of a concatenation is that of each part in turn. With
      `PastSingle` this fixes the list: the past or completed appointments,
      each as often as the list holds it, in list order. */
  lemma {:induction false} PastAppend(a: seq<Appointment>, b: seq<Appointment>, now: Instant)
    ensures PastAppointments(a + b, now) == PastAppointments(a, now) + PastAppointments(b, now)
    decreases |a|
  {
    if |a| == 0 {
      assert a + b == b;
    } else {
      assert (a + b)[1..] == a[1..] + b;
      PastAppend(a[1..], b, now);
    }
  }

  /** One appointment stays exactly when it is past or completed. */
  lemma PastSingle(x: Appointment, now: Instant)
    ensures PastAppointments([x], now) == if x.IsPast(now) || x.isCompleted then [x] else []
  {
    assert [x][1..] == [];
  }

  /** Every appointment is in exactly one of the two lists, and the two lists
      together are as long as the whole. */
  lemma {:induction false} UpcomingPastPartition(apps: seq<Appointment>, now: Instant)
    ensures |UpcomingAppointments(apps, now)| + |PastAppointments(apps, now)| == |apps|
    ensures forall k :: 0 <= k < |apps| ==> (apps[k] in UpcomingAppointments(apps, now) <==> apps[k] !in PastAppointments(apps, now))
    decreases |apps|
  {
    if |apps| > 0 {
      UpcomingPastPartition(apps[1..], now);
    }
    forall k | 0 <= k < |apps|
      ensures apps[k] in UpcomingAppointments(apps, now) <==> apps[k] !in PastAppointments(apps, now)
    {
      var a := apps[k];
      var up, past := UpcomingAppointments(apps, now), PastAppointments(apps, now);
      if a.IsUpcoming(now) {
        assert a in up;
        assert forall j :: 0 <= j < |past| ==> past[j] != a;
      } else {
        assert a in past;
        assert forall j :: 0 <= j < |up| ==> up[j] != a;
      }
    }
  }

  /** The past list as shown: its first ten. */
  function ShownPast(apps: seq<Appointment>, now: Instant): (r: seq<Appointment>)
    reads apps
    ensures |r| <= MaxPastShown && |r| <= |PastAppointments(apps, now)|
    ensures r == PastAppointments(apps, now)[..|r|]
    ensures |r| == if |PastAppointments(apps, now)| <= MaxPastShown then |PastAppointments(apps, now)| else MaxPastShown
  {
    Prefix(PastAppointments(apps, now), MaxPastShown)
  }

  /** The buttons of an appointment row. */
  datatype AppointmentAction = MarkDoneButton | DeleteAppointmentSwipe

  /** Every row can be swiped away; only an upcoming one can be marked done. */
  function AppointmentActions(a: Appointment, now: Instant): (r: set<AppointmentAction>)
    reads a
    ensures DeleteAppointmentSwipe in r
    ensures MarkDoneButton in r <==> a.IsUpcoming(now)
  {
    if a.IsUpcoming(now) then {MarkDoneButton, DeleteAppointmentSwipe} else {DeleteAppointmentSwipe}
  }

  /** An optional text field: empty means absent. */
  function NilIfEmpty(s: string): (r: Option<string>)
    ensures r.None? <==> s == ""
    ensures r.Some? ==> r.value == s
  {
    if s == "" then None else Some(s)
  }

  /** The reminder date stored with an appointment: a day before it when the
      reminder is on, none otherwise. */
  function ReminderDate(reminderEnabled: bool, date: Instant): (r: Option<Instant>)
    ensures r.Some? <==> reminderEnabled
    ensures r.Some? ==> r.value == date - ReminderLead && r.value < date
  {
    if reminderEnabled then Some(date - ReminderLead) else None
  }

  /** The state of the Add Appointment sheet. */
  datatype AppointmentForm = AppointmentForm(
    title: string,
    appointmentType: AppointmentType,
    date: Instant,
    location: string,
    doctorName: string,
    notes: string,
    reminderEnabled: bool)

  /** The sheet opens empty, as a prenatal visit now, with the reminder on. */
  function NewAppointmentForm(now: Instant): (f: AppointmentForm)
    ensures f.title == "" && f.location == "" && f.doctorName == "" && f.notes == ""
    ensures f.appointmentType == Prenatal && f.date == now && f.reminderEnabled
  {
    AppointmentForm("", Prenatal, now, "", "", "", true)
  }

  /** The Save button is enabled exactly when a title is typed. */
  predicate CanSaveAppointment(form: AppointmentForm)
  {
    form.title != ""
  }

  /** Each sheet's button depends only on the name or title being non-empty,
      so neither sheet can be submitted as it opens. */
  lemma FormGuards(name: string, c: ChecklistCategory, form: AppointmentForm, now: Instant)
    ensures CanAddItem(ItemForm(name, c)) <==> |name| > 0
    ensures CanSaveAppointment(form) <==> |form.title| > 0
    ensures !CanAddItem(NewItemForm) && !CanSaveAppointment(NewAppointmentForm(now))
  {
  }

  class AppointmentTrackerView {
    /** The stored appointments. */
    var appointments: seq<Appointment>
    /** The next fresh id. */
    var nextId: Id

    constructor(appointments: seq<Appointment>, nextId: Id)
      ensures this.appointments == appointments && this.nextId == nextId
    {
      this.appointments := appointments;
      this.nextId := nextId;
    }

    /** The done button: the appointment is completed, so it leaves the
        upcoming list for the past one. */
    method MarkDone(a: Appointment, now: Instant)
      modifies a`isCompleted
      ensures a.isCompleted && !a.IsUpcoming(now)
      ensures a in appointments ==> a in PastAppointments(appointments, now) && a !in UpcomingAppointments(appointments, now)
    {
      a.isCompleted := true;
      if a in appointments {
        UpcomingPastPartition(appointments, now);
        var k :| 0 <= k < |appointments| && appointments[k] == a;
      }
    }

    /** The delete swipe: the appointment leaves the list. */
    method DeleteAppointment(a: Appointment)
      modifies this`appointments
      ensures appointments == Filter(old(appointments), (x: Appointment) => x != a)
      ensures a !in appointments
      ensures forall k :: 0 <= k < |old(appointments)| && old(appointments)[k] != a ==> old(appointments)[k] in appointments
    {
      appointments := Filter(appointments, (x: Appointment) => x != a);
    }

    /** `saveAppointment`: inserts the form as a new, not completed
        appointment; empty optional fields become nil and the reminder date is
        a day before when the reminder is on. */
    method SaveAppointment(form: AppointmentForm) returns (a: Appointment)
      modifies this`appointments, this`nextId
      ensures fresh(a) && appointments == old(appointments) + [a]
      ensures a.id == old(nextId) && nextId == old(nextId) + 1
      ensures a.title == form.title && a.Kind() == form.appointmentType && a.date == form.date
      ensures a.location == NilIfEmpty(form.location)
      ensures a.doctorName == NilIfEmpty(form.doctorName)
      ensures a.notes == NilIfEmpty(form.notes)
      ensures a.reminderEnabled == form.reminderEnabled
      ensures a.reminderDate == ReminderDate(form.reminderEnabled, form.date)
      ensures !a.isCompleted
    {
      a := new Appointment(nextId, form.title, form.appointmentType, form.date,
                           NilIfEmpty(form.location), NilIfEmpty(form.doctorName), NilIfEmpty(form.notes),
                           form.reminderEnabled, ReminderDate(form.reminderEnabled, form.date));
      appointments := appointments + [a];
      nextId := nextId + 1;
    }
  }
}
