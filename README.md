# Mama-Care, modelled in Dafny

Mama-Care is an iOS app for people who are pregnant or have a young child.
This project models the decision and bookkeeping code at its core, and
proves what that code promises. The core is:

- the **vaccine schedule engine** of `MamaCareViewModel`. It picks a
  reference day (the birth date, or the expected delivery date), expands the
  country's schedule rows into vaccine items and classifies each item as
  upcoming, due or overdue. Completion is marked on an item later, in place;
- the view model's **lookups**: the postpartum tip for a day, the nutrition
  week and day, the days since birth, and the emergency-contact list
  operations;
- the **profile predicates** of `User`, `EmergencyContact` and `MoodType`,
  and the **raw-string enum wrappers** of the SwiftData health records
  (symptoms, hospital-bag items, appointments, memories), with their
  fallbacks;
- the **onboarding validators** of `OnboardingViewModel` and the six-step
  **onboarding flow**;
- the **kick counter** and the **contraction timer**, including its 5-1-1
  statistics and the `mm:ss` clock;
- the **hospital-bag checklist** and the **appointment tracker** of
  `PlanningView`;
- the **sign-in decision table** of `SignInView`;
- the **authentication error mapping** of `AuthService`.

Modules follow the source files:

- `DataModels` and `HealthModels` hold the records.
- `MamaCare` and `VaccineSchedule` hold the view model.
- `Onboarding` and `OnboardingFlow` hold onboarding.
- `ContractionTimer`, `KickCounter`, `Planning` and `SignIn` hold the
  screens.
- `AuthService` holds the error mapping.
- `TimeFormat` (the clock string) and `Wrappers` (`Option` and sequence
  helpers) are shared.

Records that SwiftData or the screens update in place are classes, and
their methods state the whole new state. Computed properties are functions.

Modelling conventions:

- The view model's dates are calendar day numbers (`Day`). The
  health-tracking dates are whole seconds (`Instant`). "Today", "now" and the
  weekday are parameters.
- A `UUID()` is a fresh number: the view model's `nextId` counter, or an `id`
  parameter.
- The JSON tables are parameters. The country schedules are a map from country
  name to schedule.
- `UserDefaults` is two fields, `savedLoggedIn` and `savedUser`.

Facts the proofs bring out about the code as written:

- `shouldGoToHospital` can never hold. It asks for at least 12 recent
  contractions, but the recent list holds at most 10.
- Sign-in never reads the password.
- Rebuilding the vaccine list forgets every completion mark.
- A checklist item's category, a symptom's type and the other enum-backed
  fields read back exactly what was set. A stored string that no case
  recognises reads back as the fallback case.

## Model

| member | source | states |
|---|---|---|
| DataModels.NewUser | Mama-Care/Models/DataModels.swift:8-21 | every argument is stored; storage is device-only, reminders are on, privacy is not accepted and the contact list is empty |
| DataModels.DefaultUser | Mama-Care/Models/DataModels.swift:33 | the default user lives in "United Kingdom", is device-only with reminders on, has no type, names, email or dates, and needs onboarding |
| DataModels.ReferenceDate | Mama-Care/ViewModels/MamaCareViewModel.swift:374-390 | the expected delivery date for a pregnant user, the birth date for a user with a child, none without a type |
| DataModels.NeedsOnboardingIffNoReferenceDate | Mama-Care/Models/DataModels.swift:51-55 | a user needs onboarding exactly when the type's date is missing (or there is no type) |
| DataModels.NeedsOnboarding | Mama-Care/Models/DataModels.swift:51-55 | the definition: no type, or a pregnant user without a due date, or a user with a child without a birth date; NeedsOnboardingIffNoReferenceDate states it as the missing reference day |
| DataModels.WholeWeeks | Mama-Care/Models/DataModels.swift:44-49 | the whole weeks between two days: 7·w ≤ the gap < 7·w + 7, with the sign of the direction |
| DataModels.PregnancyWeek | Mama-Care/Models/DataModels.swift:24-49 | never negative; 0 without an expected delivery date; up to the due day max(0, 40 − the whole weeks still to go); after it 40 plus the whole weeks since |
| DataModels.WholeWeeksMonotone | Mama-Care/Models/DataModels.swift:44-49 | counting whole weeks from a fixed day never decreases as the later day grows |
| DataModels.PregnancyWeekMonotone | Mama-Care/Models/DataModels.swift:24-27 | the pregnancy week never goes back as the days pass |
| DataModels.PregnancyWeekInLastWeek | Mama-Care/Models/DataModels.swift:29-31 | from six days before the due date up to the due date, the week shown is the total of 40 |
| DataModels.HasContactInfoOnlyPhoneOrEmail | Mama-Care/Models/DataModels.swift:87-89 | a contact has contact info exactly when its phone or its email is non-empty; nothing else matters |
| DataModels.HasContactInfo | Mama-Care/Models/DataModels.swift:87-89 | the definition: a phone number or an email is given; HasContactInfoOnlyPhoneOrEmail states that nothing else matters |
| DataModels.ChartValue | Mama-Care/Models/DataModels.swift:111-117 | the chart height lies in 1..3; 3 exactly for good, 1 exactly for not good |
| DataModels.ChartValueInjective | Mama-Care/Models/DataModels.swift:111-117 | different moods are drawn at different heights |
| VaccineSchedule.Join | Mama-Care/ViewModels/MamaCareViewModel.swift:419 | joining no antigens gives ""; a single antigen is itself; otherwise the text starts with the first antigen; JoinSnoc gives the rest |
| VaccineSchedule.JoinSnoc | Mama-Care/ViewModels/MamaCareViewModel.swift:419 | joining one more part appends the separator and that part, so with Join's one-part case the result is the parts in order, separated by ", " |
| VaccineSchedule.DetermineVaccineStatus | Mama-Care/ViewModels/MamaCareViewModel.swift:442-457 | never completed; no due date gives upcoming; overdue exactly when more than 7 days late, due exactly from 7 days late to the due day, upcoming exactly when in the future |
| VaccineSchedule.StatusMonotone | Mama-Care/ViewModels/MamaCareViewModel.swift:442-457 | a later due date never gives a more urgent status |
| VaccineSchedule.StatusBoundaries | Mama-Care/ViewModels/MamaCareViewModel.swift:448-455 | 8 days late is overdue, 7 days late and the due day are due, one day ahead is upcoming |
| VaccineSchedule.EntryDescription | Mama-Care/ViewModels/MamaCareViewModel.swift:419 | the definition: the antigens joined by ", " when the entry lists any (Join, JoinSnoc), else the entry's name |
| VaccineSchedule.RowCount | Mama-Care/ViewModels/MamaCareViewModel.swift:404-435 | the definition: nothing without ageDays, one per entry of items, else one for a row with both code and name, else none; RowItems yields exactly this many |
| VaccineSchedule.RowItems | Mama-Care/ViewModels/MamaCareViewModel.swift:403-436 | a row yields as many items as it has entries, one item for a code-and-name row, none otherwise or without ageDays |
| VaccineSchedule.RowItemsShape | Mama-Care/ViewModels/MamaCareViewModel.swift:404-431 | a row's items are numbered in turn; all are due ageDays after the reference day, carry that day's status and the row label (or "As scheduled") and no completion; names and descriptions come from each entry or from the row's name and code |
| VaccineSchedule.ScheduleItems | Mama-Care/ViewModels/MamaCareViewModel.swift:403-436 | the definition: the rows' items in row order, numbered on from the first fresh id; ScheduleItemsPrefixStep, ScheduleItemsCount, ScheduleItemsIds and ScheduleItemsFromRows state it |
| VaccineSchedule.ScheduleItemsPrefixStep | Mama-Care/ViewModels/MamaCareViewModel.swift:403-436 | appending one row to the rows appends exactly that row's items, numbered after the others |
| VaccineSchedule.ScheduleItemsExtend | Mama-Care/ViewModels/MamaCareViewModel.swift:403-436 | a turn of the loop that appends the next row's items, numbered on from those so far, leaves the items of one more row |
| VaccineSchedule.ScheduleItemsSingle | Mama-Care/ViewModels/MamaCareViewModel.swift:403-436 | a single row's schedule is that row's items |
| VaccineSchedule.RowItemsOfRow | Mama-Care/ViewModels/MamaCareViewModel.swift:404-435 | every item a row yields is due ageDays after the reference day, has that day's status, the row's label and no completion, and takes its name and description from one of the row's entries or from the row's name and code |
| VaccineSchedule.ScheduleItemsCount | Mama-Care/ViewModels/MamaCareViewModel.swift:403-436 | the schedule has as many items as its rows yield together |
| VaccineSchedule.ScheduleItemsIds | Mama-Care/ViewModels/MamaCareViewModel.swift:403-436 | the schedule's items are numbered consecutively from the first fresh id |
| VaccineSchedule.ScheduleItemsFromRows | Mama-Care/ViewModels/MamaCareViewModel.swift:403-436 | every item of the schedule is an item of one of the rows |
| VaccineSchedule.ScheduleItemsShape | Mama-Care/ViewModels/MamaCareViewModel.swift:403-436 | the schedule holds one item per expandable entry, numbered consecutively, each coming from some row with ageDays and due ageDays after the reference day |
| VaccineSchedule.ScheduleItemsNotCompleted | Mama-Care/ViewModels/MamaCareViewModel.swift:410-431 | no freshly built item is completed or has a completion date |
| VaccineSchedule.BuildSchedule | Mama-Care/ViewModels/MamaCareViewModel.swift:357-436 | the definition: no items without a user, data or reference day, else the rows expanded from the reference day; BuildScheduleEmpty, BuildScheduleNeedsOnboardedUser and BuildScheduleDueDates state its cases |
| VaccineSchedule.BuildScheduleEmpty | Mama-Care/ViewModels/MamaCareViewModel.swift:357-396 | the schedule is empty without a user, without data for the country, without a type, for a user with a child but no birth date (even with an expected delivery date), and for a pregnant user without an expected delivery date |
| VaccineSchedule.BuildScheduleNeedsOnboardedUser | Mama-Care/ViewModels/MamaCareViewModel.swift:357-396 | a non-empty schedule belongs to a user who no longer needs onboarding and whose country has data |
| VaccineSchedule.BuildScheduleDueDates | Mama-Care/ViewModels/MamaCareViewModel.swift:378-407 | every item is due ageDays after the reference day: the birth date with a child, the expected delivery date when pregnant |
| MamaCare.LaterDay | Mama-Care/ViewModels/MamaCareViewModel.swift:315 | one step of max(by:): the running maximum is replaced only by a strictly later day |
| MamaCare.MaxByDayNumber | Mama-Care/ViewModels/MamaCareViewModel.swift:313-315 | max(by:) as a left fold of LaterDay; MaxByDayNumberNotAfter and MaxNotAfterFirstLatest state its result |
| MamaCare.NotAfter | Mama-Care/ViewModels/MamaCareViewModel.swift:314 | keeps exactly the days numbered no later than the target, every one of them; it is a Filter, so FilterAppend and FilterSingle fix its order |
| Wrappers.FilterAppend | Mama-Care/ViewModels/MamaCareViewModel.swift:314 | filtering a concatenation filters each part in turn; with FilterSingle this fixes filter and removeAll(where:): the passing elements, each as often as the list holds it, in list order |
| Wrappers.FilterSingle | Mama-Care/ViewModels/MamaCareViewModel.swift:314 | a single element is kept exactly when it passes |
| MamaCare.MaxByDayNumberNotAfter | Mama-Care/ViewModels/MamaCareViewModel.swift:313-315 | taking the maximum of the filtered days equals a single pass that skips later days |
| MamaCare.MaxNotAfterFirstLatest | Mama-Care/ViewModels/MamaCareViewModel.swift:313-315 | that pass keeps its start value when no eligible day is later, else ends on the first of the latest eligible days |
| MamaCare.UnbeatenCons | Mama-Care/ViewModels/MamaCareViewModel.swift:313-315 | no eligible day beats the running maximum in a list exactly when the first day does not and none in the rest does |
| MamaCare.TakesOverCons | Mama-Care/ViewModels/MamaCareViewModel.swift:313-315 | a day that takes over in the rest of the list, against a running maximum at least as late as the first day, takes over in the whole list |
| MamaCare.TakesOverHead | Mama-Care/ViewModels/MamaCareViewModel.swift:313-315 | an eligible first day later than the running maximum and unbeaten by the rest takes over |
| MamaCare.PostpartumTipIsFirstLatest | Mama-Care/ViewModels/MamaCareViewModel.swift:290-325 | the tip is none exactly when every day is after the target; otherwise it is the first of the latest days not after the target, which is the exact match when there is one |
| MamaCare.FirstLatestNotAfterUnique | Mama-Care/ViewModels/MamaCareViewModel.swift:313-315 | at most one position is the first of the latest days, so the tip is determined |
| MamaCare.PostpartumTip | Mama-Care/ViewModels/MamaCareViewModel.swift:290-325 | the exact match found by first(where:), else max(by:) over the days not after the target; PostpartumTipIsFirstLatest states what it finds |
| MamaCare.PostpartumTipWithoutData | Mama-Care/ViewModels/MamaCareViewModel.swift:291-294 | with no postpartum data there is no tip |
| MamaCare.CurrentWeekNutrition | Mama-Care/ViewModels/MamaCareViewModel.swift:251-273 | none exactly without a user, data, a positive pregnancy week or any week; otherwise a week of the data: when one is numbered as the pregnancy week, the first such week, as first(where:) finds it, else the first week |
| MamaCare.WeekdayToDayOfWeek | Mama-Care/ViewModels/MamaCareViewModel.swift:281-283 | the definition: Sunday (1) becomes 7, every other weekday one less; WeekdayToDayOfWeekRange and WeekdayToDayOfWeekBijective state its range and inverse |
| MamaCare.WeekdayToDayOfWeekRange | Mama-Care/ViewModels/MamaCareViewModel.swift:283 | the weekday renumbering stays in 1..7, sends Sunday (1) and only Sunday to 7, and is undone by its inverse |
| MamaCare.WeekdayToDayOfWeekBijective | Mama-Care/ViewModels/MamaCareViewModel.swift:283 | the renumbering is a bijection on 1..7 |
| MamaCare.CurrentDayNutrition | Mama-Care/ViewModels/MamaCareViewModel.swift:275-286 | none without a current week; otherwise the first day of that week numbered as the renumbered weekday, as first(where:) finds it, none only when no day matches |
| MamaCare.DaysPostpartum | Mama-Care/ViewModels/MamaCareViewModel.swift:327-352 | defined exactly for a user with a child and a birth date; never negative; the days since birth, 0 before it |
| MamaCare.UserCountry | Mama-Care/ViewModels/MamaCareViewModel.swift:212-214 | the current user's country, or "United Kingdom" without a user |
| MamaCare.ContactsAfterUpdate | Mama-Care/ViewModels/MamaCareViewModel.swift:151-155 | an update keeps the length of the contact list |
| MamaCare.ContactsAfterUpdateSpec | Mama-Care/ViewModels/MamaCareViewModel.swift:151-155 | an unknown id changes nothing; otherwise exactly the first contact with the id is replaced and every other contact stays |
| MamaCare.ContactsAfterDelete | Mama-Care/ViewModels/MamaCareViewModel.swift:157-159 | the result holds no contact with the id, only contacts from the list, and every contact with another id; it is a Filter, so FilterAppend and FilterSingle fix its order and multiplicity |
| MamaCare.ContactsAfterDeleteIdempotent | Mama-Care/ViewModels/MamaCareViewModel.swift:157-159 | deleting an unknown id changes nothing, and deleting twice is deleting once |
| MamaCare.ScheduleAfterCompletion | Mama-Care/ViewModels/MamaCareViewModel.swift:173-178 | completion keeps the length of the schedule |
| MamaCare.ScheduleAfterCompletionSpec | Mama-Care/ViewModels/MamaCareViewModel.swift:173-178 | an unknown id changes nothing; otherwise the first item with the id becomes completed today, keeps its id, name, age range, description and due date, and no other item changes |
| MamaCare.ScheduleFor | Mama-Care/ViewModels/MamaCareViewModel.swift:363-366 | the loader finds a schedule exactly for a country it knows, and it is that country's |
| MamaCare.ScheduleForUser | Mama-Care/ViewModels/MamaCareViewModel.swift:356-366 | no schedule without a current user; otherwise the schedule of the user's country, found exactly when that country is known |
| MamaCare.OnboardedUser | Mama-Care/ViewModels/MamaCareViewModel.swift:61-78 | the stored profile keeps every field of the onboarded user except storage (the choice, device-only by default), reminders (the wish) and privacy (accepted today) |
| MamaCare.OnboardedUserKeepsProfile | Mama-Care/ViewModels/MamaCareViewModel.swift:61-78 | storing the profile changes neither whether it needs onboarding, nor its reference day, nor its pregnancy week |
| MamaCare.RebuiltScheduleHasNoCompletion | Mama-Care/ViewModels/MamaCareViewModel.swift:439 | a rebuilt vaccine list contains no completed item: earlier completion marks are lost |
| MamaCare.MamaCareViewModel.constructor | Mama-Care/ViewModels/MamaCareViewModel.swift:31-39 | the login flag and the user come from storage, the lists start empty and the schedule is built for the stored user |
| MamaCare.MamaCareViewModel.AddMoodCheckIn | Mama-Care/ViewModels/MamaCareViewModel.swift:41-44 | appends one check-in dated today with a fresh id, keeping the earlier ones |
| MamaCare.MamaCareViewModel.AddEmergencyContact | Mama-Care/ViewModels/MamaCareViewModel.swift:46-48 | appends the contact |
| MamaCare.MamaCareViewModel.UpdateEmergencyContact | Mama-Care/ViewModels/MamaCareViewModel.swift:151-155 | the new list is the list after the update by id |
| MamaCare.MamaCareViewModel.DeleteEmergencyContact | Mama-Care/ViewModels/MamaCareViewModel.swift:157-159 | the new list is the list after deleting the id |
| MamaCare.MamaCareViewModel.MarkVaccineAsCompleted | Mama-Care/ViewModels/MamaCareViewModel.swift:173-178 | the new schedule is the schedule after completing the id today |
| MamaCare.MamaCareViewModel.LoadVaccinesFromJSON | Mama-Care/ViewModels/MamaCareViewModel.swift:356-440 | looks up the user's country and sets the schedule to the one built for the current user, with fresh ids |
| MamaCare.MamaCareViewModel.AppendScheduleItems | Mama-Care/ViewModels/MamaCareViewModel.swift:400-436 | the loop over the schedule's rows collects exactly the schedule's items for the reference day and advances the id counter by their number |
| MamaCare.BuildScheduleForUser | Mama-Care/ViewModels/MamaCareViewModel.swift:357-396 | for a user with a reference day whose country has a schedule, the built schedule is that schedule's rows expanded from the reference day |
| MamaCare.MamaCareViewModel.AppendAppointmentItems | Mama-Care/ViewModels/MamaCareViewModel.swift:404-435 | one turn of the loop appends exactly the row's items, with fresh ids |
| MamaCare.MamaCareViewModel.CompleteOnboarding | Mama-Care/ViewModels/MamaCareViewModel.swift:61-78 | stores and persists the onboarded profile, sets the onboarding and login flags and rebuilds the schedule for the user's country |
| MamaCare.MamaCareViewModel.SaveUserData | Mama-Care/ViewModels/MamaCareViewModel.swift:83-97 | persists the current user when there is one, and otherwise keeps what was stored |
| MamaCare.MamaCareViewModel.Login | Mama-Care/ViewModels/MamaCareViewModel.swift:121-124 | the login flag is set and persisted |
| MamaCare.MamaCareViewModel.Logout | Mama-Care/ViewModels/MamaCareViewModel.swift:126-134 | the login flag is cleared and persisted; the user stays |
| MamaCare.MamaCareViewModel.UpdateUserStorageMode | Mama-Care/ViewModels/MamaCareViewModel.swift:143-145 | only the current user's storage mode changes, and nothing without a user |
| MamaCare.MamaCareViewModel.UpdateUserNotifications | Mama-Care/ViewModels/MamaCareViewModel.swift:147-149 | only the current user's reminder wish changes, and nothing without a user |
| MamaCare.MamaCareViewModel.UpdateUserPrivacyAccepted | Mama-Care/ViewModels/MamaCareViewModel.swift:161-163 | only the current user's privacy acceptance changes, to today, and nothing without a user |
| HealthModels.KickCountSession.constructor | Mama-Care/Models/HealthTrackingModels.swift:36-50 | stores the arguments; a session starts open with no kicks by default |
| HealthModels.KickCountSession.IsActive | Mama-Care/Models/HealthTrackingModels.swift:32-34 | the definition: the session has no end date; SessionDuration states how the duration depends on it |
| HealthModels.KickCountSession.Duration | Mama-Care/Models/HealthTrackingModels.swift:25-30 | the definition: end minus start, or now minus start while open; SessionDuration states that a finished one is fixed and an open one grows with the clock |
| HealthModels.SessionDuration | Mama-Care/Models/HealthTrackingModels.swift:25-34 | a finished session lasts from start to end whenever asked; an open one grows with the clock |
| HealthModels.Contraction.constructor | Mama-Care/Models/HealthTrackingModels.swift:70-84 | stores the arguments; a contraction starts open with zero duration by default |
| HealthModels.Contraction.IsActive | Mama-Care/Models/HealthTrackingModels.swift:66-68 | the definition: the contraction has no end date; StopContraction sets one |
| HealthModels.ParseSymptomType | Mama-Care/Models/HealthTrackingModels.swift:133-152 | a recognised raw string gives the case with that raw value, and none is given for any other string |
| HealthModels.SymptomTypeRoundTrip | Mama-Care/Models/HealthTrackingModels.swift:133-152 | parsing a case's raw value gives the case back |
| HealthModels.SymptomTypeOrOther | Mama-Care/Models/HealthTrackingModels.swift:210-217 | a recognised raw string reads as its case; any other reads as other |
| HealthModels.ParseSeverity | Mama-Care/Models/HealthTrackingModels.swift:176-187 | a recognised raw string gives the severity with that raw value, and none is given for any other string |
| HealthModels.SeverityRoundTrip | Mama-Care/Models/HealthTrackingModels.swift:176-187 | parsing a severity's raw value gives it back |
| HealthModels.SeverityOrMild | Mama-Care/Models/HealthTrackingModels.swift:219-226 | a recognised raw string reads as its severity; any other reads as mild |
| HealthModels.SeverityValue | Mama-Care/Models/HealthTrackingModels.swift:189-195 | the value lies in 1..3; 1 exactly for mild, 3 exactly for severe |
| HealthModels.SeverityValueIncreasing | Mama-Care/Models/HealthTrackingModels.swift:189-195 | mild < moderate < severe |
| HealthModels.SymptomEntry.constructor | Mama-Care/Models/HealthTrackingModels.swift:228-244 | stores the raw values, which read back as the given type and severity |
| HealthModels.SymptomEntry.Symptom | Mama-Care/Models/HealthTrackingModels.swift:210-212 | a stored string that names a symptom type reads as that type; any other string reads as `.other` |
| HealthModels.SymptomEntry.SetSymptom | Mama-Care/Models/HealthTrackingModels.swift:210-217 | after setting the type it reads back as that type |
| HealthModels.SymptomEntry.Severity | Mama-Care/Models/HealthTrackingModels.swift:219-221 | a stored string that names a severity reads as that severity; any other string reads as `.mild` |
| HealthModels.SymptomEntry.SetSeverity | Mama-Care/Models/HealthTrackingModels.swift:219-226 | after setting the severity it reads back as that severity |
| HealthModels.ParseCategory | Mama-Care/Models/HealthTrackingModels.swift:249-255 | a recognised raw string gives the category with that raw value, and none is given for any other string |
| HealthModels.CategoryRoundTrip | Mama-Care/Models/HealthTrackingModels.swift:249-255 | parsing a category's raw value gives it back |
| HealthModels.CategoryOrOther | Mama-Care/Models/HealthTrackingModels.swift:268-275 | a recognised raw string reads as its category; any other reads as other |
| HealthModels.HospitalBagItem.constructor | Mama-Care/Models/HealthTrackingModels.swift:277-291 | stores the arguments, reads back the category, and defaults to unpacked and not custom |
| HealthModels.HospitalBagItem.Category | Mama-Care/Models/HealthTrackingModels.swift:268-270 | a stored string that names a category reads as that category; any other string reads as `.other` |
| HealthModels.HospitalBagItem.SetCategory | Mama-Care/Models/HealthTrackingModels.swift:268-275 | after setting the category it reads back as that category |
| HealthModels.ParseAppointmentType | Mama-Care/Models/HealthTrackingModels.swift:296-303 | a recognised raw string gives the type with that raw value, and none is given for any other string |
| HealthModels.AppointmentTypeRoundTrip | Mama-Care/Models/HealthTrackingModels.swift:296-303 | parsing a type's raw value gives it back |
| HealthModels.AppointmentTypeOrOther | Mama-Care/Models/HealthTrackingModels.swift:334-341 | a recognised raw string reads as its type; any other reads as other |
| HealthModels.Appointment.constructor | Mama-Care/Models/HealthTrackingModels.swift:351-375 | stores the arguments, reads back the type, and defaults to not completed |
| HealthModels.Appointment.Kind | Mama-Care/Models/HealthTrackingModels.swift:334-336 | a stored string that names an appointment type reads as that type; any other string reads as `.other` |
| HealthModels.Appointment.SetKind | Mama-Care/Models/HealthTrackingModels.swift:334-341 | after setting the type it reads back as that type |
| HealthModels.Appointment.IsPast | Mama-Care/Models/HealthTrackingModels.swift:343-345 | the definition: the appointment's time is before now; UpcomingSpec relates it to IsUpcoming |
| HealthModels.Appointment.IsUpcoming | Mama-Care/Models/HealthTrackingModels.swift:347-349 | the definition: neither past nor completed; UpcomingSpec states it as not before now and not completed |
| HealthModels.UpcomingSpec | Mama-Care/Models/HealthTrackingModels.swift:343-349 | upcoming exactly when not before now and not completed; an appointment upcoming later was upcoming earlier |
| HealthModels.ParseMemoryType | Mama-Care/Models/HealthTrackingModels.swift:380-386 | a recognised raw string gives the type with that raw value, and none is given for any other string |
| HealthModels.MemoryTypeRoundTrip | Mama-Care/Models/HealthTrackingModels.swift:380-386 | parsing a type's raw value gives it back |
| HealthModels.MemoryTypeOrOther | Mama-Care/Models/HealthTrackingModels.swift:401-408 | a recognised raw string reads as its type; any other reads as other |
| HealthModels.MemoryEntry.constructor | Mama-Care/Models/HealthTrackingModels.swift:410-428 | stores the raw value, which reads back as the given type |
| HealthModels.MemoryEntry.Kind | Mama-Care/Models/HealthTrackingModels.swift:401-403 | a stored string that names a memory type reads as that type; any other string reads as `.other` |
| HealthModels.MemoryEntry.SetKind | Mama-Care/Models/HealthTrackingModels.swift:401-408 | after setting the type it reads back as that type |
| HealthModels.SizesWeeks | Mama-Care/Models/HealthTrackingModels.swift:484-522 | the table holds 37 sizes for weeks 4 to 40, in order, one per week |
| HealthModels.SizeFor | Mama-Care/Models/HealthTrackingModels.swift:524-526 | a found size is in the table and is for the asked week; none means no entry has that week |
| HealthModels.SizeForRange | Mama-Care/Models/HealthTrackingModels.swift:524-526 | a size is found exactly for weeks 4..40, and it is that week's entry |
| TimeFormat.Decimal | Mama-Care/Views/HealthTracking/ContractionTimerView.swift:62 | a non-negative number is written with at least one digit, one digit exactly below 10 |
| TimeFormat.Pad2 | Mama-Care/Views/HealthTracking/ContractionTimerView.swift:62 | the padded form has at least two digits, exactly two below 100 |
| TimeFormat.DecimalRoundTrip | Mama-Care/Views/HealthTracking/ContractionTimerView.swift:62 | reading the written digits back gives the number |
| TimeFormat.LeadingZero | Mama-Care/Views/HealthTracking/ContractionTimerView.swift:62 | a leading zero does not change the number read |
| TimeFormat.Pad2RoundTrip | Mama-Care/Views/HealthTracking/ContractionTimerView.swift:62 | reading a padded number back gives the number |
| TimeFormat.FormatClock | Mama-Care/Views/HealthTracking/ContractionTimerView.swift:59-63 | the clock is digits, a colon, and two digits |
| TimeFormat.FormatClockRoundTrip | Mama-Care/Views/HealthTracking/ContractionTimerView.swift:59-63 | minutes times 60 plus seconds read from the clock is the elapsed time, and the seconds field is below 60 |
| TimeFormat.FormatClockInjective | Mama-Care/Views/HealthTracking/KickCounterView.swift:27-31 | different elapsed times show different clocks |
| ContractionTimer.Finished | Mama-Care/Views/HealthTracking/ContractionTimerView.swift:26-28 | keeps exactly the finished contractions of the list, every one of them; FinishedAppend and FinishedSingle fix their order and multiplicity |
| ContractionTimer.FinishedAppend | Mama-Care/Views/HealthTracking/ContractionTimerView.swift:26-28 | filtering a concatenation filters each part in turn; with FinishedSingle the result is the finished contractions, each as often as the list holds it, in list order, so prefix(10) takes the first ten of them |
| ContractionTimer.FinishedSingle | Mama-Care/Views/HealthTracking/ContractionTimerView.swift:26-28 | one contraction is kept exactly when it has ended |
| ContractionTimer.FinishedStartsAtMost | Mama-Care/Views/HealthTracking/ContractionTimerView.swift:26-28 | filtering keeps every start date within a bound that held before |
| ContractionTimer.PrependNewestFirst | Mama-Care/Views/HealthTracking/ContractionTimerView.swift:14 | a contraction starting no earlier than every contraction of a newest-first list can head it |
| ContractionTimer.FinishedNewestFirst | Mama-Care/Views/HealthTracking/ContractionTimerView.swift:14 | filtering keeps the newest-first order |
| ContractionTimer.RecentContractions | Mama-Care/Views/HealthTracking/ContractionTimerView.swift:26-28 | the first ten finished contractions (all of them when fewer), so only finished ones and at most ten |
| ContractionTimer.RecentNewestFirst | Mama-Care/Views/HealthTracking/ContractionTimerView.swift:14 | the recent list keeps the newest-first order |
| ContractionTimer.Gaps | Mama-Care/Views/HealthTracking/ContractionTimerView.swift:33-37 | one gap per neighbouring pair of start times, each the absolute difference of the pair, none for fewer than two |
| ContractionTimer.Sum | Mama-Care/Views/HealthTracking/ContractionTimerView.swift:39 | `reduce(0, +)`, folded from the left; its properties are SumAppend, SumSingle and SumNonNegative |
| ContractionTimer.SumAppend | Mama-Care/Views/HealthTracking/ContractionTimerView.swift:39 | the sum of a concatenation is the sum of the parts |
| ContractionTimer.SumSingle | Mama-Care/Views/HealthTracking/ContractionTimerView.swift:44 | the sum of one number is that number, so with SumAppend the sum of the durations is their total |
| ContractionTimer.SumNonNegative | Mama-Care/Views/HealthTracking/ContractionTimerView.swift:30-40 | a sum of non-negative gaps is non-negative |
| ContractionTimer.GapsShape | Mama-Care/Views/HealthTracking/ContractionTimerView.swift:33-37 | n start times give n - 1 gaps, each the non-negative distance between neighbours |
| ContractionTimer.Mean | Mama-Care/Views/HealthTracking/ContractionTimerView.swift:30-46 | a total divided by a positive count: the mean times the count is the total, and it is non-negative for a non-negative total |
| ContractionTimer.Average | Mama-Care/Views/HealthTracking/ContractionTimerView.swift:30-46 | none exactly for an empty list |
| ContractionTimer.AverageIsMean | Mama-Care/Views/HealthTracking/ContractionTimerView.swift:30-46 | the average taken once per number gives the total, and it is never negative when no number is |
| ContractionTimer.MeanInterval | Mama-Care/Views/HealthTracking/ContractionTimerView.swift:30-40 | none exactly below two contractions |
| ContractionTimer.MeanIntervalIsMean | Mama-Care/Views/HealthTracking/ContractionTimerView.swift:30-40 | with two or more contractions the interval taken once per gap gives the total of the gaps, and it is never negative |
| ContractionTimer.IntervalsAreGaps | Mama-Care/Views/HealthTracking/ContractionTimerView.swift:33-37 | gaps collected pairwise from neighbouring contractions are the gaps between their start dates |
| ContractionTimer.NeverGoToHospital | Mama-Care/Views/HealthTracking/ContractionTimerView.swift:48-57 | the 5-1-1 alert condition never holds, since it needs 12 recent contractions and at most 10 are kept |
| ContractionTimer.ShouldGoToHospital | Mama-Care/Views/HealthTracking/ContractionTimerView.swift:48-57 | the definition: both averages exist, at least 12 recent contractions, the interval at most 300 s and the duration at least 60 s; NeverGoToHospital shows it never holds |
| ContractionTimer.PreviousContraction | Mama-Care/Views/HealthTracking/ContractionTimerView.swift:209-215 | the recent contraction after the first one with the same id; none for the last one or an unknown id |
| ContractionTimer.ContractionTimerView.constructor | Mama-Care/Views/HealthTracking/ContractionTimerView.swift:14-20 | no contraction is being timed, the clock is at 0 and no alert shows |
| ContractionTimer.ContractionTimerView.IsTimingContraction | Mama-Care/Views/HealthTracking/ContractionTimerView.swift:22-24 | the definition: a contraction is being timed; Valid ties it to the running timer, and StartContraction and StopContraction set and clear it |
| ContractionTimer.ContractionTimerView.FormattedTime | Mama-Care/Views/HealthTracking/ContractionTimerView.swift:59-63 | the definition: the mm:ss clock of the elapsed seconds; FormatClockRoundTrip and FormatClockInjective state what it shows |
| ContractionTimer.ContractionTimerView.StartContraction | Mama-Care/Views/HealthTracking/ContractionTimerView.swift:170-185 | a new open contraction starting now heads the list, is being timed, and the clock restarts at 0 |
| ContractionTimer.ContractionTimerView.Tick | Mama-Care/Views/HealthTracking/ContractionTimerView.swift:178-180 | the clock advances by one second only while the timer runs, and the invariant Valid is kept |
| ContractionTimer.ContractionTimerView.StopContraction | Mama-Care/Views/HealthTracking/ContractionTimerView.swift:187-207 | the timed contraction ends now and lasts the elapsed time, and only those two fields change: its id, start and notes are kept; timing stops and the clock resets; the alert is raised exactly when the hospital rule holds |
| ContractionTimer.ContractionTimerView.AverageInterval | Mama-Care/Views/HealthTracking/ContractionTimerView.swift:30-40 | the loop's mean equals the mean gap between the recent contractions' starts |
| ContractionTimer.ContractionTimerView.AverageDuration | Mama-Care/Views/HealthTracking/ContractionTimerView.swift:42-46 | none exactly when no contraction has finished |
| ContractionTimer.AverageDurationIsMean | Mama-Care/Views/HealthTracking/ContractionTimerView.swift:42-46 | otherwise it is the mean duration of the recent contractions: times their number it is their total |
| KickCounter.AvailableActions | Mama-Care/Views/HealthTracking/KickCounterView.swift:66-111 | Count Kick and End Session are offered exactly during a session, Start Counting exactly outside one |
| KickCounter.VisibleSessions | Mama-Care/Views/HealthTracking/KickCounterView.swift:133-141 | the newest sessions in order: at most 3, or at most 10 when expanded, fewer only when there are fewer |
| KickCounter.ExpandingShowsMore | Mama-Care/Views/HealthTracking/KickCounterView.swift:126-141 | expanding the history only appends sessions to the collapsed list |
| KickCounter.KickCounterView.constructor | Mama-Care/Views/HealthTracking/KickCounterView.swift:14-21 | no session, no kicks, the clock at 0 and the history collapsed |
| KickCounter.KickCounterView.IsSessionActive | Mama-Care/Views/HealthTracking/KickCounterView.swift:23-25 | the definition: a session is current; Actions and Valid are stated through it |
| KickCounter.KickCounterView.FormattedTime | Mama-Care/Views/HealthTracking/KickCounterView.swift:27-31 | the definition: the mm:ss clock of the elapsed seconds; FormatClockRoundTrip and FormatClockInjective state what it shows |
| KickCounter.KickCounterView.Actions | Mama-Care/Views/HealthTracking/KickCounterView.swift:66-111 | the buttons shown follow whether a session is active |
| KickCounter.KickCounterView.StartSession | Mama-Care/Views/HealthTracking/KickCounterView.swift:156-169 | a new open session with no kicks heads the list and becomes current; counter and clock restart at 0 |
| KickCounter.KickCounterView.CountKick | Mama-Care/Views/HealthTracking/KickCounterView.swift:171-179 | one more kick is counted and copied into the current session; only the session's count changes: its id, start, end and notes are kept, so it stays open and matches the counter |
| KickCounter.KickCounterView.Tick | Mama-Care/Views/HealthTracking/KickCounterView.swift:166-168 | the clock advances by one second only while the timer runs |
| KickCounter.KickCounterView.StopSession | Mama-Care/Views/HealthTracking/KickCounterView.swift:181-192 | the current session ends now and only its end changes: its id, start, kicks and notes are kept; no session is current and counter and clock are at 0 |
| KickCounter.KickCounterView.ToggleHistory | Mama-Care/Views/HealthTracking/KickCounterView.swift:126 | the history toggles between collapsed and expanded |
| KickCounter.KickCounterView.ShownSessions | Mama-Care/Views/HealthTracking/KickCounterView.swift:133-141 | the shown history is the first min(limit, number of sessions) sessions, with the limit 3 collapsed and 10 expanded, as prefix(3)/prefix(10) take |
| Planning.PackedCount | Mama-Care/Views/HealthTracking/PlanningView.swift:54-56 | at most the number of items; 0 exactly when none is packed, all exactly when all are; PackedCountAppend and PackedCountSingle fix it as the number of packed items |
| Planning.PackedCountAppend | Mama-Care/Views/HealthTracking/PlanningView.swift:54-56 | the count over a concatenation is the sum of the parts' counts; with PackedCountSingle it is exactly the number of packed items |
| Planning.PackedCountSingle | Mama-Care/Views/HealthTracking/PlanningView.swift:54-56 | one item counts 1 exactly when it is packed, else 0 |
| Planning.Progress | Mama-Care/Views/HealthTracking/PlanningView.swift:62-65 | 0 without items; always between 0 and 1 |
| Planning.Share | Mama-Care/Views/HealthTracking/PlanningView.swift:62-65 | the share of a part in a whole: 0 for an empty whole, between 0 and 1, times the whole it is the part; 1 exactly when the part is the whole, 0 exactly when the part is empty |
| Planning.ProgressExtremes | Mama-Care/Views/HealthTracking/PlanningView.swift:54-65 | progress is 1 exactly when there are items and all are packed, and 0 exactly when no item is packed |
| Planning.AllCategoriesComplete | Mama-Care/Models/HealthTrackingModels.swift:249-255 | every category is listed |
| Planning.InCategory | Mama-Care/Views/HealthTracking/PlanningView.swift:50-52 | keeps exactly the items of the category, every one of them; InCategoryAppend and InCategorySingle fix their order and multiplicity |
| Planning.InCategoryAppend | Mama-Care/Views/HealthTracking/PlanningView.swift:50-52 | grouping a concatenation groups each part in turn; with InCategorySingle the group is the category's items, each as often as the list holds it, in list order |
| Planning.InCategorySingle | Mama-Care/Views/HealthTracking/PlanningView.swift:50-52 | one item is kept exactly when it is in the category |
| Planning.ItemsByCategory | Mama-Care/Views/HealthTracking/PlanningView.swift:50-52 | a group exists exactly for each category some item has, and holds exactly that category's items |
| Planning.ItemsByCategoryPartition | Mama-Care/Views/HealthTracking/PlanningView.swift:50-52 | each item is in the group of its own category and in no other group |
| Planning.DefaultItemsSize | Mama-Care/Views/HealthTracking/PlanningView.swift:151-180 | the default list has 21 entries, none in the other category |
| Planning.DefaultItemsPerCategory | Mama-Care/Views/HealthTracking/PlanningView.swift:151-180 | 7 entries for mom, 6 for baby, 4 for the partner, 4 documents, and none other |
| Planning.RowActions | Mama-Care/Views/HealthTracking/PlanningView.swift:235-264 | every row can be ticked; only a custom item can be deleted |
| Planning.CanAddItem | Mama-Care/Views/HealthTracking/PlanningView.swift:301 | the Add button is enabled exactly when a name is typed; FormGuards states it |
| Planning.CanSaveAppointment | Mama-Care/Views/HealthTracking/PlanningView.swift:534 | the Save button is enabled exactly when a title is typed; FormGuards states it |
| Planning.FormGuards | Mama-Care/Views/HealthTracking/PlanningView.swift:301 | Add is enabled exactly for a non-empty name and Save exactly for a non-empty title, so neither freshly opened sheet can be submitted |
| Planning.HospitalBagChecklistView.constructor | Mama-Care/Views/HealthTracking/PlanningView.swift:46 | starts from the stored items, as the @Query gives them |
| Planning.HospitalBagChecklistView.PackedItems | Mama-Care/Views/HealthTracking/PlanningView.swift:54-56 | the screen's packed count is PackedCount of its items, the number of packed items, never more than the total |
| Planning.HospitalBagChecklistView.InsertItems | Mama-Care/Views/HealthTracking/PlanningView.swift:148-193 | the earlier items stay and one fresh, unpacked, non-custom item per table entry follows, with the entry's name and category, in table order |
| Planning.HospitalBagChecklistView.InitializeDefaultItems | Mama-Care/Views/HealthTracking/PlanningView.swift:148-193 | the earlier items stay and the default list follows, each new item fresh, unpacked, not custom, with its name and category |
| Planning.HospitalBagChecklistView.TogglePacked | Mama-Care/Views/HealthTracking/PlanningView.swift:235 | flips the packed flag of that one item and changes nothing else |
| Planning.HospitalBagChecklistView.DeleteItem | Mama-Care/Views/HealthTracking/PlanningView.swift:249-264 | removes the item and keeps every other item |
| Planning.HospitalBagChecklistView.SaveItem | Mama-Care/Views/HealthTracking/PlanningView.swift:307-319 | appends a fresh custom, unpacked item with the typed name and the chosen category |
| Planning.UpcomingAppointments | Mama-Care/Views/HealthTracking/PlanningView.swift:330-332 | keeps exactly the upcoming appointments, every one of them; UpcomingAppend and UpcomingSingle fix their order and multiplicity |
| Planning.UpcomingAppend | Mama-Care/Views/HealthTracking/PlanningView.swift:330-332 | the upcoming list of a concatenation is that of each part in turn; with UpcomingSingle it is the upcoming appointments, each as often as the list holds it, in list order |
| Planning.UpcomingSingle | Mama-Care/Views/HealthTracking/PlanningView.swift:330-332 | one appointment is kept exactly when it is upcoming |
| Planning.PastAppointments | Mama-Care/Views/HealthTracking/PlanningView.swift:334-336 | keeps exactly the appointments that are before now or completed, every one of them; PastAppend and PastSingle fix their order and multiplicity |
| Planning.PastAppend | Mama-Care/Views/HealthTracking/PlanningView.swift:334-336 | the past list of a concatenation is that of each part in turn; with PastSingle it is the past or completed appointments, each as often as the list holds it, in list order, so prefix(10) shows the first ten of them |
| Planning.PastSingle | Mama-Care/Views/HealthTracking/PlanningView.swift:334-336 | one appointment is kept exactly when it is past or completed |
| Planning.UpcomingPastPartition | Mama-Care/Views/HealthTracking/PlanningView.swift:330-336 | every appointment is in exactly one of the two lists, whose lengths add up to all appointments |
| Planning.ShownPast | Mama-Care/Views/HealthTracking/PlanningView.swift:373 | the first ten past appointments, in order: exactly min(10, number past) of them, as prefix(10) takes |
| Planning.AppointmentActions | Mama-Care/Views/HealthTracking/PlanningView.swift:453-474 | Mark Done is offered exactly for an upcoming appointment; Delete is always offered |
| Planning.NilIfEmpty | Mama-Care/Views/HealthTracking/PlanningView.swift:546-548 | an empty text is stored as nil, any other text as itself |
| Planning.ReminderDate | Mama-Care/Views/HealthTracking/PlanningView.swift:550 | a reminder date exists exactly when the reminder is enabled, and lies 24 hours before the appointment |
| Planning.NewAppointmentForm | Mama-Care/Views/HealthTracking/PlanningView.swift:483-489 | the sheet opens empty, prenatal, dated now, with the reminder on |
| Planning.AppointmentTrackerView.constructor | Mama-Care/Views/HealthTracking/PlanningView.swift:326 | starts from the stored appointments, as the @Query gives them |
| Planning.AppointmentTrackerView.MarkDone | Mama-Care/Views/HealthTracking/PlanningView.swift:453-457 | the appointment becomes completed and so moves from upcoming to past |
| Planning.AppointmentTrackerView.DeleteAppointment | Mama-Care/Views/HealthTracking/PlanningView.swift:468-474 | removes the appointment and keeps every other one |
| Planning.AppointmentTrackerView.SaveAppointment | Mama-Care/Views/HealthTracking/PlanningView.swift:540-557 | appends a fresh, not completed appointment from the form, with empty texts stored as nil and the reminder date derived from the flag |
| SignIn.LowerChar | Mama-Care/Views/Onboarding/SignInView.swift:179 | ASCII capitals go to their lower case; every other character is kept |
| SignIn.Lower | Mama-Care/Views/Onboarding/SignInView.swift:179 | lowercasing works character by character and keeps the length |
| SignIn.LowerIdempotent | Mama-Care/Views/Onboarding/SignInView.swift:179 | lowercasing twice is lowercasing once |
| SignIn.LoginDecision | Mama-Care/Views/Onboarding/SignInView.swift:169-190 | an empty email is rejected with its message; login happens exactly with an email, completed onboarding, a user and a case-insensitive email match; a mismatch gives "Invalid credentials…", no account gives "No account found…" |
| SignIn.PasswordIrrelevant | Mama-Care/Views/Onboarding/SignInView.swift:169-190 | the password never changes the outcome |
| SignIn.EmailCaseIrrelevant | Mama-Care/Views/Onboarding/SignInView.swift:179 | two typed emails that lowercase alike always get the same outcome, and the stored email typed in any case logs an onboarded user in |
| SignIn.SignInView.constructor | Mama-Care/Views/Onboarding/SignInView.swift:13-18 | the screen opens with empty fields and no error |
| SignIn.SignInView.HandleLogin | Mama-Care/Views/Onboarding/SignInView.swift:169-190 | either the view model logs in and keeps the error state, or the error named by the decision table shows and the view model's login state is unchanged |
| AuthService.ErrorDescription | Mama-Care/Services/AuthService.swift:23-40 | unknown shows its own message; every other case has a non-empty fixed message |
| AuthService.FixedDescriptionsDistinct | Mama-Care/Services/AuthService.swift:23-40 | different fixed cases have different messages |
| AuthService.MapFirebaseError | Mama-Care/Services/AuthService.swift:135-154 | wrong password, invalid email and invalid credential map to invalid credentials; user-not-found, email-in-use, weak password and network map to their own cases; everything else maps to unknown with Firebase's description |
| AuthService.MapFirebaseErrorRange | Mama-Care/Services/AuthService.swift:135-154 | a Firebase error never maps to not-authenticated; it maps to unknown exactly for an unrecognised or unlisted code, and then shows Firebase's description |
| AuthService.DeleteAccount | Mama-Care/Services/AuthService.swift:95-105 | with nobody signed in it throws not-authenticated without trying; otherwise it tries and rethrows a failure mapped |
| Onboarding.AccountInfoValidWithoutEmptyCheck | Mama-Care/ViewModels/OnboardingViewModel.swift:36-41 | the account step passes exactly with an email, matching passwords and at least 6 characters |
| Onboarding.PersonalInfoValid | Mama-Care/ViewModels/OnboardingViewModel.swift:32-34 | the definition: first and last name are both non-empty |
| Onboarding.AccountInfoValid | Mama-Care/ViewModels/OnboardingViewModel.swift:36-41 | the definition: an email, a non-empty password of at least 6 characters, and the confirmation equal to it; AccountInfoValidWithoutEmptyCheck restates it without the redundant check |
| Onboarding.ConsentComplete | Mama-Care/ViewModels/OnboardingViewModel.swift:43-45 | the definition: terms and privacy accepted and a storage option chosen |
| Onboarding.DateValid | Mama-Care/ViewModels/OnboardingViewModel.swift:66-75 | the definition: the date the type calls for is present, and never without a type; DateValidIffOnboarded ties it to needsOnboarding |
| Onboarding.DateValidIffOnboarded | Mama-Care/ViewModels/OnboardingViewModel.swift:66-75 | no date is valid without a type; with one, the date check passes exactly when the user no longer needs onboarding |
| Onboarding.ValidDateRange | Mama-Care/ViewModels/OnboardingViewModel.swift:49-64 | from today to nine months on when pregnant, from five years back to today with a child, just today otherwise; a missing calendar date falls back to today |
| Onboarding.ValidDateRangeNonEmpty | Mama-Care/ViewModels/OnboardingViewModel.swift:49-64 | the range is never empty and always contains today; it starts today when pregnant and ends today with a child |
| Onboarding.OnboardingViewModel.constructor | Mama-Care/ViewModels/OnboardingViewModel.swift:13-28 | a default user, empty passwords, no consents, reminders on, no storage choice, no errors, dial code "+44" |
| Onboarding.OnboardingViewModel.IsPersonalInfoValid | Mama-Care/ViewModels/OnboardingViewModel.swift:32-34 | PersonalInfoValid of the form's user |
| Onboarding.OnboardingViewModel.IsAccountInfoValid | Mama-Care/ViewModels/OnboardingViewModel.swift:36-41 | AccountInfoValid of the form's email, password and confirmation |
| Onboarding.OnboardingViewModel.CanCompleteAccount | Mama-Care/ViewModels/OnboardingViewModel.swift:43-45 | ConsentComplete of the form's consents and storage choice |
| Onboarding.OnboardingViewModel.IsDateValid | Mama-Care/ViewModels/OnboardingViewModel.swift:66-75 | DateValid of the form's user |
| Onboarding.OnboardingViewModel.ValidateConsent | Mama-Care/ViewModels/OnboardingViewModel.swift:89-91 | the same condition as canCompleteAccount: terms and privacy accepted and a storage option chosen |
| Onboarding.OnboardingViewModel.Reset | Mama-Care/ViewModels/OnboardingViewModel.swift:79-87 | the user, passwords, consents, reminders and storage return to their defaults; error flags and dial code stay; no step's check passes afterwards |
| OnboardingFlow.StepIndex | Mama-Care/Views/Onboarding/OnboardingFlowView.swift:145-147 | each step has a position below 6 |
| OnboardingFlow.StepIndexInjective | Mama-Care/Views/Onboarding/OnboardingFlowView.swift:145-147 | different steps have different positions |
| OnboardingFlow.NextStep | Mama-Care/Views/Onboarding/OnboardingFlowView.swift:67-114 | each step but the contacts step moves to the step one position on |
| OnboardingFlow.PreviousStep | Mama-Care/Views/Onboarding/OnboardingFlowView.swift:125-142 | one position back, and the first step stays put |
| OnboardingFlow.BackIsInverseOfForward | Mama-Care/Views/Onboarding/OnboardingFlowView.swift:67-142 | going back undoes a forward move, and a forward move undoes going back from any step but the first |
| OnboardingFlow.ForwardOrderIsLinear | Mama-Care/Views/Onboarding/OnboardingFlowView.swift:67-114 | the order runs from the personal details (position 0) to the contacts (position 5), never staying put |
| OnboardingFlow.OnboardingFlowView.constructor | Mama-Care/Views/Onboarding/OnboardingFlowView.swift:14 | the flow starts at the personal details |
| OnboardingFlow.OnboardingFlowView.HandlePersonalInfo | Mama-Care/Views/Onboarding/OnboardingFlowView.swift:67-75 | advances exactly when the names are valid, else stays and sets only that step's error flag |
| OnboardingFlow.OnboardingFlowView.HandleAccountInfo | Mama-Care/Views/Onboarding/OnboardingFlowView.swift:77-85 | advances exactly when the account details are valid, else stays and sets only that step's error flag |
| OnboardingFlow.OnboardingFlowView.HandleConsent | Mama-Care/Views/Onboarding/OnboardingFlowView.swift:87-96 | with consent complete, stamps privacy acceptance today and advances; else stays and sets only the consent error |
| OnboardingFlow.OnboardingFlowView.HandleUserType | Mama-Care/Views/Onboarding/OnboardingFlowView.swift:98-104 | advances exactly when a type is chosen and sets no flag |
| OnboardingFlow.OnboardingFlowView.HandleDateCapture | Mama-Care/Views/Onboarding/OnboardingFlowView.swift:106-114 | advances exactly when the date is valid, else stays and sets only the date error |
| OnboardingFlow.OnboardingFlowView.GoBack | Mama-Care/Views/Onboarding/OnboardingFlowView.swift:125-142 | moves exactly one step back, staying at the first step |

## Left out

- SwiftUI presentation is not modelled: view bodies, layout, animations,
  haptics, charts and the emoji and description texts of baby sizes.
  Buttons appear only as the sets of actions a screen offers.
- Firebase, Firestore and the network are not modelled. `signUp` and
  `signIn` only rethrow through `mapFirebaseError`, which is modelled. The
  outcome of the account deletion is a parameter of `DeleteAccount`.
  `MoodService` is not part of this model.
- `UserDefaults` JSON encoding and decoding is left out: `loadUserData`
  becomes the constructor's stored values, `saveUserData` two saved fields.
  The JSON data loader is not part of this model; its tables are
  parameters.
- SwiftData `modelContext` insert, save and delete, and `@Query` sorting, are
  not modelled. New contractions and sessions head their lists (newest
  first); new checklist items and appointments are appended.
- Timers and delays are left out. A timer's firing is the `Tick` method. The
  canned AI chat reply and other `asyncAfter` delays are not modelled.
- Floating point is not modelled. Elapsed and interval times are whole
  seconds, the averages are exact reals, and the kg/lbs and ml/oz conversions
  are left out.
- Calendar arithmetic is not modelled: time zones, daylight saving and month
  lengths. Dates are day or second counts. The "nine months on" and
  "five years back" dates of `validDateRange` are parameters. A day is
  86400 seconds. Swift's closed range `today...maxDate` traps when the lower
  bound passes the upper one; `ValidDateRange` returns the pair as it is,
  which a forward-moving calendar never reaches (`ValidDateRangeNonEmpty`).
- The `completeOnboarding(password:)` call of the onboarding flow's last step
  targets a view-model method the shown view model does not have, so it is
  left out. The view model's own `completeOnboarding` is modelled.
- `UserProfile` conversion and the `user` relationship of `Contraction` are
  not modelled; they are not used by the modelled code.
- SignIn.Lower: lowercases ASCII letters only, because Unicode case mapping
  is outside the model.
- Onboarding.AccountInfoValid: `password.count` in Swift counts grapheme
  clusters, but the model counts characters (Unicode scalar values), so a
  password of combining sequences can be counted longer here. Swift's
  `password == confirmPassword` treats canonically equivalent strings as
  equal; the model compares the character sequences. Unicode segmentation
  and normalisation are outside the model.
- SignIn.LoginDecision: the email match compares the lowercased character
  sequences, not Swift's canonical-equivalence `==`, so two differently
  composed spellings of the same accented email do not match here.
- VaccineSchedule.Join: an entry whose antigen list is present but empty gets
  the description "" — the joined empty list — not its name. This matches
  the code's `joined(separator:) ?? name`.
- Planning.Progress: its own contract states the bounds only. The exact
  share (times the item count it is the packed count) is the contract of
  `Share`, which `Progress` applies to the packed count and the item count.
- ContractionTimer.MeanInterval: its own contract states when there is a
  value. That the value is the mean gap is `MeanIntervalIsMean`, through
  `Average` and `AverageIsMean`.
