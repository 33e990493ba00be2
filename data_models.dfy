/** The value types of the app's profile layer: the user, emergency contacts,
    mood check-ins and the derived vaccine items. Dates here are calendar day
    numbers; the current day is always passed in. */
module DataModels {
  import opened Wrappers

  /** Stands for a `UUID`. */
  type Id = nat

  /** A calendar day number; adding days is `+`, a day difference is `-`. */
  type Day = int

  datatype UserType = Pregnant | HasChild

  datatype StorageMode = DeviceOnly | Cloud

  datatype EmergencyContact = EmergencyContact(
    id: Id,
    name: string,
    relationship: string,
    phoneNumber: string,
    email: string)

  datatype User = User(
    id: Id,
    firstName: string,
    lastName: string,
    email: string,
    country: string,
    mobileNumber: string,
    userType: Option<UserType>,
    expectedDeliveryDate: Option<Day>,
    birthDate: Option<Day>,
    storageMode: StorageMode,
    privacyAcceptedAt: Option<Day>,
    notificationsWanted: bool,
    emergencyContacts: seq<EmergencyContact>)

  const DefaultCountry: string := "United Kingdom"

  /** `User.totalWeeks`: a standard pregnancy, the same for every user. */
  const TotalWeeks: int := 40

  /** The memberwise `User.init`; the stored properties it does not take get
      their declared defaults. */
  function NewUser(
    id: Id, firstName: string, lastName: string, email: string, country: string,
    mobileNumber: string, userType: Option<UserType>, expectedDeliveryDate: Option<Day>,
    birthDate: Option<Day>): (u: User)
    ensures u.id == id && u.firstName == firstName && u.lastName == lastName
    ensures u.email == email && u.country == country && u.mobileNumber == mobileNumber
    ensures u.userType == userType && u.expectedDeliveryDate == expectedDeliveryDate
    ensures u.birthDate == birthDate
    ensures u.storageMode == DeviceOnly && u.notificationsWanted
    ensures u.privacyAcceptedAt.None? && u.emergencyContacts == []
  {
    User(id, firstName, lastName, email, country, mobileNumber, userType,
         expectedDeliveryDate, birthDate, DeviceOnly, None, true, [])
  }

  /** `User()` with every argument defaulted. */
  function DefaultUser(id: Id): (u: User)
    ensures u.country == DefaultCountry && u.storageMode == DeviceOnly
    ensures u.notificationsWanted && u.userType.None?
    ensures u.firstName == "" && u.lastName == "" && u.email == "" && u.mobileNumber == ""
    ensures u.expectedDeliveryDate.None? && u.birthDate.None? && u.privacyAcceptedAt.None?
    ensures NeedsOnboarding(u)
  {
    NewUser(id, "", "", "", DefaultCountry, "", None, None, None)
  }

  /** A user still has to onboard when the type is missing, or when the date
      that the type calls for is missing. */
  predicate NeedsOnboarding(u: User)
  {
    || u.userType.None?
    || (u.userType == Some(Pregnant) && u.expectedDeliveryDate.None?)
    || (u.userType == Some(HasChild) && u.birthDate.None?)
  }

  /** The date a user's type calls for, which is also the reference date of
      the vaccine schedule: the birth date of a user with a child, the
      expected delivery date of a pregnant user. */
  function ReferenceDate(u: User): (r: Option<Day>)
    ensures u.userType == Some(Pregnant) ==> r == u.expectedDeliveryDate
    ensures u.userType == Some(HasChild) ==> r == u.birthDate
    ensures u.userType.None? ==> r.None?
  {
    match u.userType
    case None => None
    case Some(Pregnant) => u.expectedDeliveryDate
    case Some(HasChild) => u.birthDate
  }

  /** Onboarding is finished exactly when the user's type and the date it
      calls for are both known. */
  lemma NeedsOnboardingIffNoReferenceDate(u: User)
    ensures !NeedsOnboarding(u) <==> ReferenceDate(u).Some?
  {
  }

  /** The `.weekOfYear` component of `Calendar.dateComponents` between two
      days: whole weeks, truncated toward zero. */
  function WholeWeeks(from: Day, to: Day): (w: int)
    ensures from <= to ==> 0 <= 7 * w <= to - from < 7 * w + 7
    ensures to <= from ==> 0 <= 7 * -w <= from - to < 7 * -w + 7
  {
    var d := to - from;
    if d >= 0 then d / 7 else -((-d) / 7)
  }

  /** `User.pregnancyWeek` on the given day: 40 minus the whole weeks still
      to go, never below 0; 0 without an expected delivery date. */
  function PregnancyWeek(u: User, today: Day): (w: int)
    ensures w >= 0
    ensures u.expectedDeliveryDate.None? ==> w == 0
    ensures u.expectedDeliveryDate.Some? && today <= u.expectedDeliveryDate.value ==> w <= TotalWeeks
    ensures u.expectedDeliveryDate.Some? && u.expectedDeliveryDate.value <= today ==> w >= TotalWeeks
    ensures u.expectedDeliveryDate.Some? && today <= u.expectedDeliveryDate.value ==>
      w == Max(0, TotalWeeks - (u.expectedDeliveryDate.value - today) / 7)
    ensures u.expectedDeliveryDate.Some? && u.expectedDeliveryDate.value <= today ==>
      w == TotalWeeks + (today - u.expectedDeliveryDate.value) / 7
  {
    match u.expectedDeliveryDate
    case None => 0
    case Some(edd) => Max(0, TotalWeeks - WholeWeeks(today, edd))
  }

  /** Whole weeks between a fixed day and a later one grow with the later one. */
  lemma WholeWeeksMonotone(from: Day, a: Day, b: Day)
    requires a <= b
    ensures WholeWeeks(from, a) <= WholeWeeks(from, b)
  {
    // The two ensures of WholeWeeks bracket both values.
  }

  /** As the days pass, the pregnancy week never goes back. */
  lemma PregnancyWeekMonotone(u: User, today: Day, later: Day)
    requires today <= later
    ensures PregnancyWeek(u, today) <= PregnancyWeek(u, later)
  {
    if u.expectedDeliveryDate.Some? {
      var edd := u.expectedDeliveryDate.value;
      // The weeks to go are whole weeks from today to the due date.
      assert WholeWeeks(later, edd) == -WholeWeeks(edd, later);
      assert WholeWeeks(today, edd) == -WholeWeeks(edd, today);
      WholeWeeksMonotone(edd, today, later);
    }
  }

  /** In the six days before the due date and on it, the week shown is 40. */
  lemma PregnancyWeekInLastWeek(u: User, today: Day)
    requires u.expectedDeliveryDate.Some?
    requires today <= u.expectedDeliveryDate.value < today + 7
    ensures PregnancyWeek(u, today) == TotalWeeks
  {
  }

  /** `EmergencyContact.hasContactInfo`. */
  predicate HasContactInfo(c: EmergencyContact)
  {
    |c.phoneNumber| > 0 || |c.email| > 0
  }

  /** A contact can be reached exactly when a phone number or an email is
      given; the name and relationship do not matter. */
  lemma HasContactInfoOnlyPhoneOrEmail(c: EmergencyContact, d: EmergencyContact)
    ensures HasContactInfo(c) <==> c.phoneNumber != "" || c.email != ""
    ensures c.phoneNumber == d.phoneNumber && c.email == d.email ==> HasContactInfo(c) == HasContactInfo(d)
  {
  }

  datatype MoodType = Good | Okay | NotGood

  /** `MoodType.chartValue`: the height of a check-in on the mood chart. */
  function ChartValue(m: MoodType): (v: int)
    ensures 1 <= v <= 3
    ensures v == 3 <==> m == Good
    ensures v == 1 <==> m == NotGood
  {
    match m
    case Good => 3
    case Okay => 2
    case NotGood => 1
  }

  /** Different moods are drawn at different heights. */
  lemma ChartValueInjective(m: MoodType, n: MoodType)
    requires ChartValue(m) == ChartValue(n)
    ensures m == n
  {
  }

  datatype MoodCheckIn = MoodCheckIn(id: Id, date: Day, moodType: MoodType, notes: Option<string>)

  datatype VaccineStatus = Upcoming | Due | Overdue | Completed

  datatype VaccineItem = VaccineItem(
    id: Id,
    name: string,
    ageRange: string,
    description: string,
    dueDate: Option<Day>,
    status: VaccineStatus,
    completedDate: Option<Day>)
}
