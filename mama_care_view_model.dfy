/** `MamaCareViewModel`: the app's central state (current user, contacts,
    mood check-ins, the vaccine list, login flags), the lookups it offers the
    screens, and the operations that update it. The persisted copies in
    `UserDefaults` are plain fields; the JSON loaders are parameters. */
module MamaCare {
  import opened Wrappers
  import opened DataModels
  import opened VaccineSchedule

  /** One day of postpartum tips, with the fields the view model reads. */
  datatype PostpartumDay = PostpartumDay(dayNumber: int, title: string, messages: seq<string>)

  /** The nutrition tables, with the fields the view model reads. */
  datatype NutritionDay = NutritionDay(day: int)
  datatype NutritionWeek = NutritionWeek(week: int, days: seq<NutritionDay>)
  datatype NutritionData = NutritionData(weeks: seq<NutritionWeek>)

  // ---------------------------------------------------------------------------
  // Postpartum tip

  /** One step of `max(by: { $0.dayNumber < $1.dayNumber })`: the running
      maximum is replaced only by a strictly later day. */
  function LaterDay(acc: Option<PostpartumDay>, d: PostpartumDay): (r: PostpartumDay)
    ensures acc.None? ==> r == d
    ensures acc.Some? ==> (r == d <==> acc.value.dayNumber < d.dayNumber) || r == acc.value
    ensures acc.Some? ==> r.dayNumber >= acc.value.dayNumber && r.dayNumber >= d.dayNumber
  {
    match acc
    case None => d
    case Some(m) => if m.dayNumber < d.dayNumber then d else m
  }

  /** `max(by:)` over `s`, continuing from the running maximum `acc`. */
  function MaxByDayNumber(acc: Option<PostpartumDay>, s: seq<PostpartumDay>): Option<PostpartumDay>
    decreases |s|
  {
    if |s| == 0 then acc else MaxByDayNumber(Some(LaterDay(acc, s[0])), s[1..])
  }

  /** The days no later than `target`, in list order (a `Filter`, so
      `FilterAppend` and `FilterSingle` give its order). */
  function NotAfter(days: seq<PostpartumDay>, target: int): (r: seq<PostpartumDay>)
    ensures forall k :: 0 <= k < |r| ==> r[k].dayNumber <= target && r[k] in days
    ensures forall k :: 0 <= k < |days| && days[k].dayNumber <= target ==> days[k] in r
  {
    Filter(days, (d: PostpartumDay) => d.dayNumber <= target)
  }

  /** `getPostpartumTip(daysPostpartum:)`: the first day numbered exactly
      `target`, else the latest day before it, else none. */
  function PostpartumTip(postpartumDays: Option<seq<PostpartumDay>>, target: int): Option<PostpartumDay>
  {
    match postpartumDays
    case None => None
    case Some(days) =>
      match FirstIndex(days, (d: PostpartumDay) => d.dayNumber == target)
      case Some(i) => Some(days[i])
      case None => MaxByDayNumber(None, NotAfter(days, target))
  }

  /** `days[i]` is the tip the app should show for `target`: no later than
      it, as late as any day no later than it, and the first such day. */
  ghost predicate FirstLatestNotAfter(days: seq<PostpartumDay>, target: int, i: int)
  {
    && 0 <= i < |days|
    && days[i].dayNumber <= target
    && (forall j :: 0 <= j < |days| && days[j].dayNumber <= target ==> days[j].dayNumber <= days[i].dayNumber)
    && (forall j :: 0 <= j < i && days[j].dayNumber <= target ==> days[j].dayNumber < days[i].dayNumber)
  }

  /** `MaxByDayNumber` skipping the days after `target`, without building the
      filtered list: the same fold, written over the whole list. */
  function MaxNotAfter(acc: Option<PostpartumDay>, s: seq<PostpartumDay>, target: int): Option<PostpartumDay>
    decreases |s|
  {
    if |s| == 0 then acc
    else if s[0].dayNumber <= target then MaxNotAfter(Some(LaterDay(acc, s[0])), s[1..], target)
    else MaxNotAfter(acc, s[1..], target)
  }

  /** Folding over the filtered list is folding over the list while skipping. */
  lemma {:induction false} MaxByDayNumberNotAfter(acc: Option<PostpartumDay>, s: seq<PostpartumDay>, target: int)
    ensures MaxByDayNumber(acc, NotAfter(s, target)) == MaxNotAfter(acc, s, target)
    decreases |s|
  {
    if |s| > 0 {
      MaxByDayNumberNotAfter(Some(LaterDay(acc, s[0])), s[1..], target);
      MaxByDayNumberNotAfter(acc, s[1..], target);
      var f := NotAfter(s[1..], target);
      if s[0].dayNumber <= target {
        assert NotAfter(s, target) == [s[0]] + f;
        assert ([s[0]] + f)[1..] == f;
      } else {
        assert NotAfter(s, target) == f;
      }
    }
  }

  /** No day of `s` no later than `target` beats the running maximum `acc`
      (with no running maximum: no such day at all). */
  ghost predicate Unbeaten(acc: Option<PostpartumDay>, s: seq<PostpartumDay>, target: int)
  {
    forall j :: 0 <= j < |s| && s[j].dayNumber <= target ==> acc.Some? && s[j].dayNumber <= acc.value.dayNumber
  }

  /** `s[i]` is the first latest eligible day of `s` and strictly later than
      the running maximum. */
  ghost predicate TakesOver(acc: Option<PostpartumDay>, s: seq<PostpartumDay>, target: int, i: int)
  {
    FirstLatestNotAfter(s, target, i) && (acc.Some? ==> acc.value.dayNumber < s[i].dayNumber)
  }

  lemma UnbeatenCons(acc: Option<PostpartumDay>, s: seq<PostpartumDay>, target: int)
    requires |s| > 0
    ensures Unbeaten(acc, s, target) <==>
      (s[0].dayNumber <= target ==> acc.Some? && s[0].dayNumber <= acc.value.dayNumber)
      && Unbeaten(acc, s[1..], target)
  {
    var t := s[1..];
    if (s[0].dayNumber <= target ==> acc.Some? && s[0].dayNumber <= acc.value.dayNumber) && Unbeaten(acc, t, target) {
      forall j | 0 <= j < |s| && s[j].dayNumber <= target
        ensures acc.Some? && s[j].dayNumber <= acc.value.dayNumber
      {
        if j > 0 { assert s[j] == t[j - 1]; }
      }
    }
    if Unbeaten(acc, s, target) {
      forall j | 0 <= j < |t| && t[j].dayNumber <= target
        ensures acc.Some? && t[j].dayNumber <= acc.value.dayNumber
      {
        assert t[j] == s[j + 1];
      }
    }
  }

  /** A day that takes over after the first one, measured against a running
      maximum at least as late as both, takes over in the whole list too. */
  lemma TakesOverCons(acc: Option<PostpartumDay>, acc': Option<PostpartumDay>, s: seq<PostpartumDay>,
                      target: int, i: int)
    requires |s| > 0 && TakesOver(acc', s[1..], target, i)
    requires acc.Some? ==> acc'.Some? && acc.value.dayNumber <= acc'.value.dayNumber
    requires s[0].dayNumber <= target ==> acc'.Some? && s[0].dayNumber <= acc'.value.dayNumber
    ensures TakesOver(acc, s, target, i + 1)
  {
    var t := s[1..];
    assert s[i + 1] == t[i];
    forall j | 0 <= j < |s| && s[j].dayNumber <= target
      ensures s[j].dayNumber <= s[i + 1].dayNumber
    {
      if j > 0 { assert s[j] == t[j - 1]; }
    }
    forall j | 0 <= j < i + 1 && s[j].dayNumber <= target
      ensures s[j].dayNumber < s[i + 1].dayNumber
    {
      if j > 0 { assert s[j] == t[j - 1]; }
    }
  }

  /** An eligible first day later than the running maximum and unbeaten by
      the rest takes over. */
  lemma TakesOverHead(acc: Option<PostpartumDay>, s: seq<PostpartumDay>, target: int)
    requires |s| > 0 && s[0].dayNumber <= target
    requires acc.Some? ==> acc.value.dayNumber < s[0].dayNumber
    requires Unbeaten(Some(s[0]), s[1..], target)
    ensures TakesOver(acc, s, target, 0)
  {
    UnbeatenCons(Some(s[0]), s, target);
  }

  /** The fold keeps the running maximum unless a strictly later eligible day
      comes; then the result is the first of the latest eligible days. */
  lemma {:induction false} MaxNotAfterFirstLatest(acc: Option<PostpartumDay>, s: seq<PostpartumDay>, target: int)
    ensures var r := MaxNotAfter(acc, s, target);
      || (r == acc && Unbeaten(acc, s, target))
      || (exists i :: TakesOver(acc, s, target, i) && r == Some(s[i]))
    decreases |s|
  {
    if |s| > 0 {
      var t := s[1..];
      var r := MaxNotAfter(acc, s, target);
      UnbeatenCons(acc, s, target);
      if s[0].dayNumber <= target {
        var acc' := Some(LaterDay(acc, s[0]));
        MaxNotAfterFirstLatest(acc', t, target);
        assert r == MaxNotAfter(acc', t, target);
        if r == acc' && Unbeaten(acc', t, target) {
          if acc.Some? && s[0].dayNumber <= acc.value.dayNumber {
            assert acc' == acc;
          } else {
            assert acc' == Some(s[0]);
            TakesOverHead(acc, s, target);
            assert TakesOver(acc, s, target, 0) && r == Some(s[0]);
          }
        } else {
          var i :| TakesOver(acc', t, target, i) && r == Some(t[i]);
          TakesOverCons(acc, acc', s, target, i);
          assert r == Some(s[i + 1]);
        }
      } else {
        MaxNotAfterFirstLatest(acc, t, target);
        assert r == MaxNotAfter(acc, t, target);
        if !(r == acc && Unbeaten(acc, t, target)) {
          var i :| TakesOver(acc, t, target, i) && r == Some(t[i]);
          TakesOverCons(acc, acc, s, target, i);
          assert r == Some(s[i + 1]);
        }
      }
    }
  }

  /** The tip is the first of the latest days no later than the target, and
      there is a tip exactly when some day is no later than it; so the exact
      match tried first is the same day the fallback would find. */
  lemma PostpartumTipIsFirstLatest(days: seq<PostpartumDay>, target: int)
    ensures PostpartumTip(Some(days), target).None? <==> forall j :: 0 <= j < |days| ==> days[j].dayNumber > target
    ensures PostpartumTip(Some(days), target).Some? ==>
      exists i :: FirstLatestNotAfter(days, target, i) && PostpartumTip(Some(days), target) == Some(days[i])
  {
    var r := PostpartumTip(Some(days), target);
    match FirstIndex(days, (d: PostpartumDay) => d.dayNumber == target)
    case Some(e) =>
      assert FirstLatestNotAfter(days, target, e);
    case None =>
      MaxByDayNumberNotAfter(None, days, target);
      MaxNotAfterFirstLatest(None, days, target);
      if r.Some? {
        var i :| TakesOver(None, days, target, i) && r == Some(days[i]);
        assert FirstLatestNotAfter(days, target, i);
      }
  }

  /** At most one day is the first of the latest, so the tip is determined. */
  lemma FirstLatestNotAfterUnique(days: seq<PostpartumDay>, target: int, i: int, j: int)
    requires FirstLatestNotAfter(days, target, i) && FirstLatestNotAfter(days, target, j)
    ensures i == j
  {
  }

  /** With the data missing there is no tip at all. */
  lemma PostpartumTipWithoutData(target: int)
    ensures PostpartumTip(None, target) == None
  {
  }

  // ---------------------------------------------------------------------------
  // Nutrition

  /** `weeks[k]` is the first week numbered `w`, as `first(where:)` finds it. */
  ghost predicate FirstWeekNumbered(weeks: seq<NutritionWeek>, w: int, k: int)
  {
    0 <= k < |weeks| && weeks[k].week == w && forall j :: 0 <= j < k ==> weeks[j].week != w
  }

  /** `days[k]` is the first day numbered `d`, as `first(where:)` finds it. */
  ghost predicate FirstDayNumbered(days: seq<NutritionDay>, d: int, k: int)
  {
    0 <= k < |days| && days[k].day == d && forall j :: 0 <= j < k ==> days[j].day != d
  }

  /** `getCurrentWeekNutrition`: the week of the tables numbered like the
      user's pregnancy week, else the first week; nothing without a user,
      without tables, or before week 1. */
  function CurrentWeekNutrition(user: Option<User>, data: Option<NutritionData>, today: Day): (r: Option<NutritionWeek>)
    ensures r.None? <==>
      || user.None? || data.None?
      || PregnancyWeek(user.value, today) <= 0
      || |data.value.weeks| == 0
    ensures r.Some? ==> r.value in data.value.weeks
    ensures r.Some? && (exists k :: 0 <= k < |data.value.weeks| && data.value.weeks[k].week == PregnancyWeek(user.value, today))
      ==> r.value.week == PregnancyWeek(user.value, today)
    ensures r.Some? && (forall k :: 0 <= k < |data.value.weeks| ==> data.value.weeks[k].week != PregnancyWeek(user.value, today))
      ==> r.value == data.value.weeks[0]
    ensures r.Some? && r.value.week == PregnancyWeek(user.value, today) ==>
      exists k :: FirstWeekNumbered(data.value.weeks, PregnancyWeek(user.value, today), k) && r.value == data.value.weeks[k]
  {
    if user.None? || data.None? then None
    else
      var pregnancyWeek := PregnancyWeek(user.value, today);
      var weeks := data.value.weeks;
      if pregnancyWeek <= 0 then None
      else
        match FirstIndex(weeks, (w: NutritionWeek) => w.week == pregnancyWeek)
        case Some(i) =>
          assert FirstWeekNumbered(weeks, pregnancyWeek, i);
          Some(weeks[i])
        case None => if |weeks| == 0 then None else Some(weeks[0])
  }

  /** The renumbering of `Calendar`'s weekday (Sunday 1 … Saturday 7) to the
      tables' day of the week (Monday 1 … Sunday 7). */
  function WeekdayToDayOfWeek(weekday: int): int
  {
    if weekday == 1 then 7 else weekday - 1
  }

  /** The inverse renumbering. */
  function DayOfWeekToWeekday(dayOfWeek: int): int
  {
    if dayOfWeek == 7 then 1 else dayOfWeek + 1
  }

  /** The renumbering maps 1..7 onto 1..7, and Sunday to 7. */
  lemma WeekdayToDayOfWeekRange(weekday: int)
    requires 1 <= weekday <= 7
    ensures 1 <= WeekdayToDayOfWeek(weekday) <= 7
    ensures WeekdayToDayOfWeek(weekday) == 7 <==> weekday == 1
    ensures DayOfWeekToWeekday(WeekdayToDayOfWeek(weekday)) == weekday
  {
  }

  /** Every day of the week is hit by exactly one weekday: a bijection on 1..7. */
  lemma WeekdayToDayOfWeekBijective(a: int, b: int, d: int)
    requires 1 <= a <= 7 && 1 <= b <= 7 && 1 <= d <= 7
    ensures WeekdayToDayOfWeek(a) == WeekdayToDayOfWeek(b) ==> a == b
    ensures 1 <= DayOfWeekToWeekday(d) <= 7 && WeekdayToDayOfWeek(DayOfWeekToWeekday(d)) == d
  {
  }

  /** `getCurrentDayNutrition`: in the current week's table, the first day
      whose number is today's renumbered weekday. */
  function CurrentDayNutrition(user: Option<User>, data: Option<NutritionData>, today: Day, weekday: int): (r: Option<NutritionDay>)
    ensures CurrentWeekNutrition(user, data, today).None? ==> r.None?
    ensures r.Some? ==> (r.value in CurrentWeekNutrition(user, data, today).value.days
      && r.value.day == WeekdayToDayOfWeek(weekday))
    ensures r.None? && CurrentWeekNutrition(user, data, today).Some? ==>
      forall k :: 0 <= k < |CurrentWeekNutrition(user, data, today).value.days| ==>
        CurrentWeekNutrition(user, data, today).value.days[k].day != WeekdayToDayOfWeek(weekday)
    ensures r.Some? ==> exists k ::
      FirstDayNumbered(CurrentWeekNutrition(user, data, today).value.days, WeekdayToDayOfWeek(weekday), k)
      && r.value == CurrentWeekNutrition(user, data, today).value.days[k]
  {
    match CurrentWeekNutrition(user, data, today)
    case None => None
    case Some(weekData) =>
      var dayOfWeek := WeekdayToDayOfWeek(weekday);
      match FirstIndex(weekData.days, (d: NutritionDay) => d.day == dayOfWeek)
      case Some(i) =>
        assert FirstDayNumbered(weekData.days, dayOfWeek, i);
        Some(weekData.days[i])
      case None => None
  }

  // ---------------------------------------------------------------------------
  // Postpartum days and country

  /** `calculateDaysPostpartum`: the days from the birth date to today,
      never negative, for a user with a child whose birth date is known. */
  function DaysPostpartum(user: Option<User>, today: Day): (r: Option<int>)
    ensures r.Some? <==> user.Some? && user.value.userType == Some(HasChild) && user.value.birthDate.Some?
    ensures r.Some? ==> r.value >= 0
    ensures r.Some? && user.value.birthDate.value <= today ==> r.value == today - user.value.birthDate.value
    ensures r.Some? && today <= user.value.birthDate.value ==> r.value == 0
  {
    if user.None? || user.value.userType != Some(HasChild) || user.value.birthDate.None? then None
    else
      var days := today - user.value.birthDate.value;
      Some(Max(0, days))
  }

  /** `userCountry`: the current user's country, "United Kingdom" without one. */
  function UserCountry(user: Option<User>): (r: string)
    ensures user.Some? ==> r == user.value.country
    ensures user.None? ==> r == DefaultCountry
  {
    OrElse(if user.Some? then Some(user.value.country) else None, DefaultCountry)
  }

  // ---------------------------------------------------------------------------
  // List updates by id

  /** What `updateEmergencyContact` leaves: the first contact with the same id
      replaced, or the list unchanged. */
  function ContactsAfterUpdate(contacts: seq<EmergencyContact>, updated: EmergencyContact): (r: seq<EmergencyContact>)
    ensures |r| == |contacts|
  {
    match FirstIndex(contacts, (c: EmergencyContact) => c.id == updated.id)
    case Some(index) => contacts[index := updated]
    case None => contacts
  }

  /** An update replaces exactly the first contact with the id and nothing
      else, and does nothing for an unknown id. */
  lemma ContactsAfterUpdateSpec(contacts: seq<EmergencyContact>, updated: EmergencyContact)
    ensures (forall k :: 0 <= k < |contacts| ==> contacts[k].id != updated.id) ==>
      ContactsAfterUpdate(contacts, updated) == contacts
    ensures forall i :: (0 <= i < |contacts| && contacts[i].id == updated.id
      && (forall j :: 0 <= j < i ==> contacts[j].id != updated.id)) ==>
      ContactsAfterUpdate(contacts, updated) == contacts[i := updated]
  {
  }

  /** What `deleteEmergencyContact` leaves: every contact with another id. */
  function ContactsAfterDelete(contacts: seq<EmergencyContact>, id: Id): (r: seq<EmergencyContact>)
    ensures |r| <= |contacts|
    ensures forall k :: 0 <= k < |r| ==> r[k].id != id && r[k] in contacts
    ensures forall k :: 0 <= k < |contacts| && contacts[k].id != id ==> contacts[k] in r
  {
    Filter(contacts, (c: EmergencyContact) => c.id != id)
  }

  /** Deleting an id nobody has changes nothing; deleting twice is deleting once. */
  lemma ContactsAfterDeleteIdempotent(contacts: seq<EmergencyContact>, id: Id)
    ensures (forall k :: 0 <= k < |contacts| ==> contacts[k].id != id) ==> ContactsAfterDelete(contacts, id) == contacts
    ensures ContactsAfterDelete(ContactsAfterDelete(contacts, id), id) == ContactsAfterDelete(contacts, id)
  {
    var p := (c: EmergencyContact) => c.id != id;
    if forall k :: 0 <= k < |contacts| ==> contacts[k].id != id {
      FilterAllPass(contacts, p);
    }
    FilterAllPass(ContactsAfterDelete(contacts, id), p);
  }

  /** What `markVaccineAsCompleted` leaves: the first item with the id marked
      completed on `today`, or the list unchanged. */
  function ScheduleAfterCompletion(schedule: seq<VaccineItem>, id: Id, today: Day): (r: seq<VaccineItem>)
    ensures |r| == |schedule|
  {
    match FirstIndex(schedule, (v: VaccineItem) => v.id == id)
    case Some(index) => schedule[index := schedule[index].(status := Completed, completedDate := Some(today))]
    case None => schedule
  }

  /** Completion marks the first item with the id, keeps its other fields,
      leaves every other item alone, and does nothing for an unknown id. */
  lemma ScheduleAfterCompletionSpec(schedule: seq<VaccineItem>, id: Id, today: Day)
    ensures var r := ScheduleAfterCompletion(schedule, id, today);
      && ((forall k :: 0 <= k < |schedule| ==> schedule[k].id != id) ==> r == schedule)
      && (forall i :: 0 <= i < |schedule| && schedule[i].id == id && (forall j :: 0 <= j < i ==> schedule[j].id != id) ==>
            && r[i].status == Completed && r[i].completedDate == Some(today)
            && r[i].id == id && r[i].name == schedule[i].name && r[i].dueDate == schedule[i].dueDate
            && r[i].ageRange == schedule[i].ageRange && r[i].description == schedule[i].description
            && (forall k :: 0 <= k < |schedule| && k != i ==> r[k] == schedule[k]))
  {
  }

  /** The schedule the country loader finds, if any. */
  function ScheduleFor(schedules: map<string, VaccineScheduleData>, country: string): (r: Option<VaccineScheduleData>)
    ensures r.Some? <==> country in schedules
    ensures r.Some? ==> r.value == schedules[country]
  {
    if country in schedules then Some(schedules[country]) else None
  }

  /** The schedule the loader finds for the current user's country. */
  function ScheduleForUser(schedules: map<string, VaccineScheduleData>, user: Option<User>): (r: Option<VaccineScheduleData>)
    ensures r.Some? <==> user.Some? && user.value.country in schedules
    ensures r.Some? ==> r.value == schedules[user.value.country]
  {
    if user.None? then None else ScheduleFor(schedules, user.value.country)
  }

  /** For a user with a reference day whose country has a schedule, the
      built schedule is that schedule's rows expanded from the reference day. */
  lemma BuildScheduleForUser(schedules: map<string, VaccineScheduleData>, user: User, data: VaccineScheduleData,
                             base: Day, today: Day, firstId: Id)
    requires ScheduleFor(schedules, user.country) == Some(data) && ReferenceDate(user) == Some(base)
    ensures BuildSchedule(Some(user), ScheduleForUser(schedules, Some(user)), today, firstId) ==
      ScheduleItems(data.schedule, base, today, firstId)
  {
  }

  /** The profile `completeOnboarding` stores: the given user with the chosen
      storage (on-device when none was chosen), the reminder wish and the
      consent stamp. */
  function OnboardedUser(user: User, storage: Option<StorageMode>, wantsReminders: bool, today: Day): (u: User)
    ensures u.storageMode == OrElse(storage, DeviceOnly)
    ensures u.notificationsWanted == wantsReminders && u.privacyAcceptedAt == Some(today)
    ensures u.id == user.id && u.firstName == user.firstName && u.lastName == user.lastName
    ensures u.email == user.email && u.country == user.country && u.mobileNumber == user.mobileNumber
    ensures u.userType == user.userType && u.expectedDeliveryDate == user.expectedDeliveryDate
    ensures u.birthDate == user.birthDate && u.emergencyContacts == user.emergencyContacts
  {
    user.(storageMode := OrElse(storage, DeviceOnly), notificationsWanted := wantsReminders, privacyAcceptedAt := Some(today))
  }

  /** Onboarding stores the profile without touching what decides whether it
      still needs onboarding, nor its reference date. */
  lemma OnboardedUserKeepsProfile(user: User, storage: Option<StorageMode>, wantsReminders: bool, today: Day)
    ensures NeedsOnboarding(OnboardedUser(user, storage, wantsReminders, today)) == NeedsOnboarding(user)
    ensures ReferenceDate(OnboardedUser(user, storage, wantsReminders, today)) == ReferenceDate(user)
    ensures PregnancyWeek(OnboardedUser(user, storage, wantsReminders, today), today) == PregnancyWeek(user, today)
  {
  }

  // ---------------------------------------------------------------------------
  // The view model

  class MamaCareViewModel {
    var currentUser: Option<User>
    var emergencyContacts: seq<EmergencyContact>
    var moodCheckIns: seq<MoodCheckIn>
    var vaccineSchedule: seq<VaccineItem>
    var isLoggedIn: bool
    var hasCompletedOnboarding: bool
    var nutritionData: Option<NutritionData>
    var vaccineScheduleData: Option<VaccineScheduleData>
    var postpartumDays: Option<seq<PostpartumDay>>
    /** The `isLoggedIn` flag and the encoded user kept in `UserDefaults`. */
    var savedLoggedIn: bool
    var savedUser: Option<User>
    /** The next fresh identifier: stands for `UUID()`. */
    var nextId: Id

    /** `init`: the login flag and the user from storage, then the JSON tables
        and the vaccine list for that user. */
    constructor(storedLoggedIn: bool, storedUser: Option<User>, storedOnboarding: bool,
                nutrition: Option<NutritionData>, postpartum: Option<seq<PostpartumDay>>,
                schedules: map<string, VaccineScheduleData>, today: Day)
      ensures isLoggedIn == storedLoggedIn && savedLoggedIn == storedLoggedIn
      ensures currentUser == storedUser && savedUser == storedUser
      ensures hasCompletedOnboarding == storedOnboarding
      ensures emergencyContacts == [] && moodCheckIns == []
      ensures nutritionData == nutrition && postpartumDays == postpartum
      ensures vaccineSchedule == BuildSchedule(storedUser, ScheduleForUser(schedules, storedUser), today, 0)
      ensures nextId == |vaccineSchedule|
    {
      currentUser := storedUser;
      emergencyContacts := [];
      moodCheckIns := [];
      vaccineSchedule := [];
      isLoggedIn := storedLoggedIn;
      hasCompletedOnboarding := storedOnboarding;
      vaccineScheduleData := None;
      savedLoggedIn := storedLoggedIn;
      savedUser := storedUser;
      nextId := 0;
      nutritionData := nutrition;
      postpartumDays := postpartum;
      new;
      LoadVaccinesFromJSON(schedules, today);
    }

    /** `addMoodCheckIn`: appends a check-in dated today with a fresh id. */
    method AddMoodCheckIn(mood: MoodType, notes: Option<string>, today: Day)
      modifies this`moodCheckIns, this`nextId
      ensures moodCheckIns == old(moodCheckIns) + [MoodCheckIn(old(nextId), today, mood, notes)]
      ensures nextId == old(nextId) + 1
    {
      var checkIn := MoodCheckIn(nextId, today, mood, notes);
      nextId := nextId + 1;
      moodCheckIns := moodCheckIns + [checkIn];
    }

    /** `addEmergencyContact`: appends the contact. */
    method AddEmergencyContact(contact: EmergencyContact)
      modifies this`emergencyContacts
      ensures emergencyContacts == old(emergencyContacts) + [contact]
    {
      emergencyContacts := emergencyContacts + [contact];
    }

    /** `updateEmergencyContact`: replaces the first contact with the same id. */
    method UpdateEmergencyContact(updated: EmergencyContact)
      modifies this`emergencyContacts
      ensures emergencyContacts == ContactsAfterUpdate(old(emergencyContacts), updated)
    {
      var index := FirstIndex(emergencyContacts, (c: EmergencyContact) => c.id == updated.id);
      if index.Some? {
        emergencyContacts := emergencyContacts[index.value := updated];
      }
    }

    /** `deleteEmergencyContact`: removes every contact with the same id. */
    method DeleteEmergencyContact(contact: EmergencyContact)
      modifies this`emergencyContacts
      ensures emergencyContacts == ContactsAfterDelete(old(emergencyContacts), contact.id)
    {
      emergencyContacts := Filter(emergencyContacts, (c: EmergencyContact) => c.id != contact.id);
    }

    /** `markVaccineAsCompleted`: marks the first item with the same id. */
    method MarkVaccineAsCompleted(vaccine: VaccineItem, today: Day)
      modifies this`vaccineSchedule
      ensures vaccineSchedule == ScheduleAfterCompletion(old(vaccineSchedule), vaccine.id, today)
    {
      var index := FirstIndex(vaccineSchedule, (v: VaccineItem) => v.id == vaccine.id);
      if index.Some? {
        var i := index.value;
        vaccineSchedule := vaccineSchedule[i := vaccineSchedule[i].(status := Completed)];
        vaccineSchedule := vaccineSchedule[i := vaccineSchedule[i].(completedDate := Some(today))];
      }
    }

    /** `loadVaccinesFromJSON`: looks up the schedule of the user's country and
        expands its rows, numbering the new items with fresh ids. */
    method LoadVaccinesFromJSON(schedules: map<string, VaccineScheduleData>, today: Day)
      modifies this`vaccineSchedule, this`vaccineScheduleData, this`nextId
      ensures currentUser.None? ==> vaccineScheduleData == old(vaccineScheduleData)
      ensures currentUser.Some? ==> vaccineScheduleData == ScheduleFor(schedules, currentUser.value.country)
      ensures vaccineSchedule == BuildSchedule(currentUser, ScheduleForUser(schedules, currentUser), today, old(nextId))
      ensures nextId == old(nextId) + |vaccineSchedule|
    {
      if currentUser.None? {
        vaccineSchedule := [];
        return;
      }
      var user := currentUser.value;
      var country := user.country;
      vaccineScheduleData := ScheduleFor(schedules, country);
      if vaccineScheduleData.None? {
        vaccineSchedule := [];
        return;
      }
      var scheduleData := vaccineScheduleData.value;
      var baseDate: Day;
      if user.userType == Some(HasChild) && user.birthDate.Some? {
        baseDate := user.birthDate.value;
      } else if user.userType == Some(Pregnant) && user.expectedDeliveryDate.Some? {
        baseDate := user.expectedDeliveryDate.value;
      } else {
        vaccineSchedule := [];
        return;
      }
      assert ReferenceDate(user) == Some(baseDate);

      ghost var firstId := nextId;
      var vaccines := AppendScheduleItems(scheduleData.schedule, baseDate, today);
      BuildScheduleForUser(schedules, user, scheduleData, baseDate, today, firstId);
      vaccineSchedule := vaccines;
    }

    /** `loadVaccinesFromJSON`'s loop over the appointments of the schedule:
        each row's items in turn, with fresh ids. */
    method AppendScheduleItems(rows: seq<VaccineAppointment>, baseDate: Day, today: Day)
      returns (vaccines: seq<VaccineItem>)
      modifies this`nextId
      ensures vaccines == ScheduleItems(rows, baseDate, today, old(nextId))
      ensures nextId == old(nextId) + |vaccines|
    {
      ghost var firstId := nextId;
      vaccines := [];
      var i := 0;
      while i < |rows|
        invariant 0 <= i <= |rows|
        invariant vaccines == ScheduleItems(rows[..i], baseDate, today, firstId)
        invariant nextId == firstId + |vaccines|
        modifies this`nextId
      {
        ghost var before := vaccines;
        vaccines := AppendAppointmentItems(vaccines, rows[i], baseDate, today);
        ScheduleItemsExtend(rows, i, baseDate, today, firstId, before, vaccines);
        i := i + 1;
      }
      assert rows[..|rows|] == rows;
    }

    /** The body of `loadVaccinesFromJSON`'s loop for one appointment: its
        items appended to `vaccines`, each with a fresh id. */
    method AppendAppointmentItems(vaccines: seq<VaccineItem>, appointment: VaccineAppointment, baseDate: Day, today: Day)
      returns (r: seq<VaccineItem>)
      modifies this`nextId
      ensures r == vaccines + RowItems(appointment, baseDate, today, old(nextId))
      ensures nextId == old(nextId) + RowCount(appointment)
    {
      r := vaccines;
      if appointment.ageDays.None? {
        return;
      }
      ghost var expected := RowItems(appointment, baseDate, today, nextId);
      ghost var firstId := nextId;
      var ageDays := appointment.ageDays.value;
      var dueDate := Some(baseDate + ageDays);
      var status := DetermineVaccineStatus(dueDate, today);
      var ageRange := OrElse(appointment.labelText, DefaultAgeRange);
      if appointment.items.Some? {
        var items := appointment.items.value;
        var j := 0;
        while j < |items|
          invariant 0 <= j <= |items|
          invariant r == vaccines + expected[..j]
          invariant nextId == firstId + j
          modifies this`nextId
        {
          var item := items[j];
          var description := if item.antigens.Some? then Join(item.antigens.value, AntigenSeparator) else item.name;
          var vaccineItem := VaccineItem(nextId, item.name, ageRange, description, dueDate, status, None);
          assert vaccineItem == expected[j];
          assert expected[..j + 1] == expected[..j] + [expected[j]];
          nextId := nextId + 1;
          r := r + [vaccineItem];
          j := j + 1;
        }
        assert expected[..|items|] == expected;
      } else if appointment.code.Some? && appointment.name.Some? {
        var vaccineItem := VaccineItem(nextId, appointment.name.value, ageRange, appointment.code.value, dueDate, status, None);
        nextId := nextId + 1;
        r := r + [vaccineItem];
      }
    }

    /** `completeOnboarding`: stores the onboarded profile, persists it,
        rebuilds the vaccine list and logs in. */
    method CompleteOnboarding(user: User, storage: Option<StorageMode>, wantsReminders: bool,
                              schedules: map<string, VaccineScheduleData>, today: Day)
      modifies this`currentUser, this`hasCompletedOnboarding, this`savedUser, this`isLoggedIn,
               this`savedLoggedIn, this`vaccineSchedule, this`vaccineScheduleData, this`nextId
      ensures currentUser == Some(OnboardedUser(user, storage, wantsReminders, today))
      ensures savedUser == currentUser
      ensures hasCompletedOnboarding && isLoggedIn && savedLoggedIn
      ensures vaccineScheduleData == ScheduleFor(schedules, user.country)
      ensures vaccineSchedule == BuildSchedule(currentUser, vaccineScheduleData, today, old(nextId))
      ensures nextId == old(nextId) + |vaccineSchedule|
    {
      currentUser := Some(user);
      currentUser := Some(currentUser.value.(storageMode := OrElse(storage, DeviceOnly)));
      currentUser := Some(currentUser.value.(notificationsWanted := wantsReminders));
      currentUser := Some(currentUser.value.(privacyAcceptedAt := Some(today)));
      hasCompletedOnboarding := true;
      SaveUserData();
      LoadVaccinesFromJSON(schedules, today);
      Login();
    }

    /** `saveUserData`: keeps a copy of the current user, if there is one. */
    method SaveUserData()
      modifies this`savedUser
      ensures currentUser.Some? ==> savedUser == currentUser
      ensures currentUser.None? ==> savedUser == old(savedUser)
    {
      if currentUser.Some? {
        savedUser := currentUser;
      }
    }

    /** `login`: sets the flag and persists it. */
    method Login()
      modifies this`isLoggedIn, this`savedLoggedIn
      ensures isLoggedIn && savedLoggedIn
    {
      isLoggedIn := true;
      savedLoggedIn := true;
    }

    /** `logout`: clears the flag and persists it, keeping the user and the
        onboarding flag for a later login. */
    method Logout()
      modifies this`isLoggedIn, this`savedLoggedIn
      ensures !isLoggedIn && !savedLoggedIn
    {
      isLoggedIn := false;
      savedLoggedIn := false;
    }

    /** `updateUserStorageMode`: changes the current user's storage, if any. */
    method UpdateUserStorageMode(storageMode: StorageMode)
      modifies this`currentUser
      ensures old(currentUser).None? ==> currentUser.None?
      ensures old(currentUser).Some? ==> currentUser == Some(old(currentUser).value.(storageMode := storageMode))
    {
      if currentUser.Some? {
        currentUser := Some(currentUser.value.(storageMode := storageMode));
      }
    }

    /** `updateUserNotifications`: changes the current user's reminder wish, if any. */
    method UpdateUserNotifications(wantsNotifications: bool)
      modifies this`currentUser
      ensures old(currentUser).None? ==> currentUser.None?
      ensures old(currentUser).Some? ==> currentUser == Some(old(currentUser).value.(notificationsWanted := wantsNotifications))
    {
      if currentUser.Some? {
        currentUser := Some(currentUser.value.(notificationsWanted := wantsNotifications));
      }
    }

    /** `updateUserPrivacyAccepted`: stamps the current user's consent, if any. */
    method UpdateUserPrivacyAccepted(today: Day)
      modifies this`currentUser
      ensures old(currentUser).None? ==> currentUser.None?
      ensures old(currentUser).Some? ==> currentUser == Some(old(currentUser).value.(privacyAcceptedAt := Some(today)))
    {
      if currentUser.Some? {
        currentUser := Some(currentUser.value.(privacyAcceptedAt := Some(today)));
      }
    }
  }

  /** A rebuilt vaccine list carries no completion: marks made before the
      rebuild are gone. */
  lemma RebuiltScheduleHasNoCompletion(user: Option<User>, data: Option<VaccineScheduleData>, today: Day, firstId: Id)
    ensures forall v :: v in BuildSchedule(user, data, today, firstId) ==> v.status != Completed && v.completedDate.None?
  {
    if user.Some? && data.Some? && ReferenceDate(user.value).Some? {
      ScheduleItemsNotCompleted(data.value.schedule, ReferenceDate(user.value).value, today, firstId);
    }
  }
}
