/** The stored health-tracking records: kick-count sessions, contractions,
    symptoms, hospital-bag items, appointments and memories, with the enums
    they store as raw strings, and the baby-size table. Times are whole
    seconds (`Instant`); the current time is always passed in. */
module HealthModels {
  import opened Wrappers
  import opened DataModels

  /** A point in time, in seconds; `b - a` is `b.timeIntervalSince(a)`. */
  type Instant = int

  // ---------------------------------------------------------------------------
  // Kick counter and contraction timer records

  class KickCountSession {
    var id: Id
    var startDate: Instant
    var endDate: Option<Instant>
    var kickCount: int
    var notes: Option<string>

    /** `init` with its defaults: no end, no kicks, no notes. */
    constructor(id: Id, startDate: Instant, endDate: Option<Instant> := None, kickCount: int := 0,
                notes: Option<string> := None)
      ensures this.id == id && this.startDate == startDate && this.endDate == endDate
      ensures this.kickCount == kickCount && this.notes == notes
    {
      this.id := id;
      this.startDate := startDate;
      this.endDate := endDate;
      this.kickCount := kickCount;
      this.notes := notes;
    }

    /** `isActive`: the session has not been ended. */
    predicate IsActive()
      reads this
    {
      endDate.None?
    }

    /** `duration`: up to the end, or up to now while the session runs. */
    function Duration(now: Instant): int
      reads this
    {
      match endDate
      case Some(end) => end - startDate
      case None => now - startDate
    }
  }

  /** A finished session lasts from its start to its end whatever the time
      now, and a running one has lasted as long as it has run. */
  lemma SessionDuration(s: KickCountSession, now: Instant, later: Instant)
    ensures !s.IsActive() ==> s.Duration(now) == s.Duration(later) == s.endDate.value - s.startDate
    ensures s.IsActive() ==> s.Duration(later) - s.Duration(now) == later - now
  {
  }

  class Contraction {
    var id: Id
    var startDate: Instant
    var endDate: Option<Instant>
    var duration: int
    var notes: Option<string>

    /** `init` with its defaults: no end, zero duration, no notes. */
    constructor(id: Id, startDate: Instant, endDate: Option<Instant> := None, duration: int := 0,
                notes: Option<string> := None)
      ensures this.id == id && this.startDate == startDate && this.endDate == endDate
      ensures this.duration == duration && this.notes == notes
    {
      this.id := id;
      this.startDate := startDate;
      this.endDate := endDate;
      this.duration := duration;
      this.notes := notes;
    }

    /** `isActive`: the contraction has not been ended. */
    predicate IsActive()
      reads this
    {
      endDate.None?
    }
  }

  // ---------------------------------------------------------------------------
  // Symptoms

  datatype SymptomType =
    | Nausea | Vomiting | Headache | BackPain | Cramping | Bleeding | Spotting | Swelling | Fatigue
    | Dizziness | Heartburn | Constipation | FrequentUrination | BreastTenderness | MoodSwings
    | Insomnia | ShortBreath | Other

  /** `SymptomType.rawValue`. */
  function SymptomTypeRaw(t: SymptomType): string
  {
    match t
    case Nausea => "Nausea"
    case Vomiting => "Vomiting"
    case Headache => "Headache"
    case BackPain => "Back Pain"
    case Cramping => "Cramping"
    case Bleeding => "Bleeding"
    case Spotting => "Spotting"
    case Swelling => "Swelling"
    case Fatigue => "Fatigue"
    case Dizziness => "Dizziness"
    case Heartburn => "Heartburn"
    case Constipation => "Constipation"
    case FrequentUrination => "Frequent Urination"
    case BreastTenderness => "Breast Tenderness"
    case MoodSwings => "Mood Swings"
    case Insomnia => "Insomnia"
    case ShortBreath => "Shortness of Breath"
    case Other => "Other"
  }

  /** `SymptomType(rawValue:)`. */
  function ParseSymptomType(raw: string): (r: Option<SymptomType>)
    ensures r.Some? ==> SymptomTypeRaw(r.value) == raw
    ensures r.None? ==> forall t :: SymptomTypeRaw(t) != raw
  {
    if raw == "Nausea" then Some(Nausea)
    else if raw == "Vomiting" then Some(Vomiting)
    else if raw == "Headache" then Some(Headache)
    else if raw == "Back Pain" then Some(BackPain)
    else if raw == "Cramping" then Some(Cramping)
    else if raw == "Bleeding" then Some(Bleeding)
    else if raw == "Spotting" then Some(Spotting)
    else if raw == "Swelling" then Some(Swelling)
    else if raw == "Fatigue" then Some(Fatigue)
    else if raw == "Dizziness" then Some(Dizziness)
    else if raw == "Heartburn" then Some(Heartburn)
    else if raw == "Constipation" then Some(Constipation)
    else if raw == "Frequent Urination" then Some(FrequentUrination)
    else if raw == "Breast Tenderness" then Some(BreastTenderness)
    else if raw == "Mood Swings" then Some(MoodSwings)
    else if raw == "Insomnia" then Some(Insomnia)
    else if raw == "Shortness of Breath" then Some(ShortBreath)
    else if raw == "Other" then Some(SymptomType.Other)
    else None
  }

  /** Every symptom type reads back from its raw value. */
  lemma SymptomTypeRoundTrip(t: SymptomType)
    ensures ParseSymptomType(SymptomTypeRaw(t)) == Some(t)
  {
    if t.Nausea? || t.Vomiting? || t.Headache? || t.BackPain? || t.Cramping? || t.Bleeding? {
      SymptomTypeRoundTripFirst(t);
    } else if t.Spotting? || t.Swelling? || t.Fatigue? || t.Dizziness? || t.Heartburn? || t.Constipation? {
      SymptomTypeRoundTripMiddle(t);
    } else if t.FrequentUrination? || t.BreastTenderness? || t.MoodSwings? {
      SymptomTypeRoundTripLate(t);
    } else {
      SymptomTypeRoundTripLast(t);
    }
  }

  lemma SymptomTypeRoundTripFirst(t: SymptomType)
    requires t.Nausea? || t.Vomiting? || t.Headache? || t.BackPain? || t.Cramping? || t.Bleeding?
    ensures ParseSymptomType(SymptomTypeRaw(t)) == Some(t)
  {
  }

  lemma SymptomTypeRoundTripMiddle(t: SymptomType)
    requires t.Spotting? || t.Swelling? || t.Fatigue? || t.Dizziness? || t.Heartburn? || t.Constipation?
    ensures ParseSymptomType(SymptomTypeRaw(t)) == Some(t)
  {
  }

  lemma SymptomTypeRoundTripLate(t: SymptomType)
    requires t.FrequentUrination? || t.BreastTenderness? || t.MoodSwings?
    ensures ParseSymptomType(SymptomTypeRaw(t)) == Some(t)
  {
  }

  lemma SymptomTypeRoundTripLast(t: SymptomType)
    requires t.Insomnia? || t.ShortBreath? || t.Other?
    ensures ParseSymptomType(SymptomTypeRaw(t)) == Some(t)
  {
  }

  /** The `symptomType` getter: the stored raw value read back, `.other` when
      it names no symptom type. */
  function SymptomTypeOrOther(raw: string): (t: SymptomType)
    ensures (exists u :: SymptomTypeRaw(u) == raw) ==> SymptomTypeRaw(t) == raw
    ensures (forall u :: SymptomTypeRaw(u) != raw) ==> t == SymptomType.Other
  {
    OrElse(ParseSymptomType(raw), SymptomType.Other)
  }

  datatype SymptomSeverity = Mild | Moderate | Severe

  /** `SymptomSeverity.rawValue`. */
  function SeverityRaw(s: SymptomSeverity): string
  {
    match s
    case Mild => "Mild"
    case Moderate => "Moderate"
    case Severe => "Severe"
  }

  /** `SymptomSeverity(rawValue:)`. */
  function ParseSeverity(raw: string): (r: Option<SymptomSeverity>)
    ensures r.Some? ==> SeverityRaw(r.value) == raw
    ensures r.None? ==> forall s :: SeverityRaw(s) != raw
  {
    if raw == "Mild" then Some(Mild)
    else if raw == "Moderate" then Some(Moderate)
    else if raw == "Severe" then Some(Severe)
    else None
  }

  /** Every severity reads back from its raw value. */
  lemma SeverityRoundTrip(s: SymptomSeverity)
    ensures ParseSeverity(SeverityRaw(s)) == Some(s)
  {
  }

  /** The `severity` getter: the stored raw value read back, `.mild` when it
      names no severity. */
  function SeverityOrMild(raw: string): (s: SymptomSeverity)
    ensures (exists u :: SeverityRaw(u) == raw) ==> SeverityRaw(s) == raw
    ensures (forall u :: SeverityRaw(u) != raw) ==> s == Mild
  {
    OrElse(ParseSeverity(raw), Mild)
  }

  /** `SymptomSeverity.value`: 1, 2, 3 from mild to severe. */
  function SeverityValue(s: SymptomSeverity): (v: int)
    ensures 1 <= v <= 3
    ensures v == 1 <==> s == Mild
    ensures v == 3 <==> s == Severe
  {
    match s
    case Mild => 1
    case Moderate => 2
    case Severe => 3
  }

  /** The value strictly increases from mild to moderate to severe, so it
      orders the severities as declared. */
  lemma SeverityValueIncreasing()
    ensures SeverityValue(Mild) < SeverityValue(Moderate) < SeverityValue(Severe)
  {
  }

  class SymptomEntry {
    var id: Id
    var date: Instant
    var symptomTypeRaw: string
    var severityRaw: string
    var notes: Option<string>
    var duration: Option<string>

    /** `init`: stores the raw values of the type and the severity. */
    constructor(id: Id, date: Instant, symptomType: SymptomType, severity: SymptomSeverity,
                notes: Option<string> := None, duration: Option<string> := None)
      ensures this.id == id && this.date == date
      ensures symptomTypeRaw == SymptomTypeRaw(symptomType) && severityRaw == SeverityRaw(severity)
      ensures this.notes == notes && this.duration == duration
      ensures Symptom() == symptomType && Severity() == severity
    {
      this.id := id;
      this.date := date;
      this.symptomTypeRaw := SymptomTypeRaw(symptomType);
      this.severityRaw := SeverityRaw(severity);
      this.notes := notes;
      this.duration := duration;
      new;
      SymptomTypeRoundTrip(symptomType);
      SeverityRoundTrip(severity);
    }

    /** The `symptomType` getter. */
    function Symptom(): (t: SymptomType)
      reads this
      ensures (exists u :: SymptomTypeRaw(u) == symptomTypeRaw) ==> SymptomTypeRaw(t) == symptomTypeRaw
      ensures (forall u :: SymptomTypeRaw(u) != symptomTypeRaw) ==> t == SymptomType.Other
    {
      SymptomTypeOrOther(symptomTypeRaw)
    }

    /** The `severity` getter. */
    function Severity(): (s: SymptomSeverity)
      reads this
      ensures (exists u :: SeverityRaw(u) == severityRaw) ==> SeverityRaw(s) == severityRaw
      ensures (forall u :: SeverityRaw(u) != severityRaw) ==> s == Mild
    {
      SeverityOrMild(severityRaw)
    }

    /** The `symptomType` setter: what is set reads back. */
    method SetSymptom(t: SymptomType)
      modifies this`symptomTypeRaw
      ensures symptomTypeRaw == SymptomTypeRaw(t)
      ensures Symptom() == t
    {
      symptomTypeRaw := SymptomTypeRaw(t);
      SymptomTypeRoundTrip(t);
    }

    /** The `severity` setter: what is set reads back. */
    method SetSeverity(s: SymptomSeverity)
      modifies this`severityRaw
      ensures severityRaw == SeverityRaw(s)
      ensures Severity() == s
    {
      severityRaw := SeverityRaw(s);
      SeverityRoundTrip(s);
    }
  }

  // ---------------------------------------------------------------------------
  // Hospital bag

  datatype ChecklistCategory = ForMom | ForBaby | ForPartner | Documents | Other

  /** `ChecklistCategory.rawValue`. */
  function CategoryRaw(c: ChecklistCategory): string
  {
    match c
    case ForMom => "For Mom"
    case ForBaby => "For Baby"
    case ForPartner => "For Partner"
    case Documents => "Documents"
    case Other => "Other"
  }

  /** `ChecklistCategory(rawValue:)`. */
  function ParseCategory(raw: string): (r: Option<ChecklistCategory>)
    ensures r.Some? ==> CategoryRaw(r.value) == raw
    ensures r.None? ==> forall c :: CategoryRaw(c) != raw
  {
    if raw == "For Mom" then Some(ForMom)
    else if raw == "For Baby" then Some(ForBaby)
    else if raw == "For Partner" then Some(ForPartner)
    else if raw == "Documents" then Some(Documents)
    else if raw == "Other" then Some(ChecklistCategory.Other)
    else None
  }

  /** Every category reads back from its raw value. */
  lemma CategoryRoundTrip(c: ChecklistCategory)
    ensures ParseCategory(CategoryRaw(c)) == Some(c)
  {
  }

  /** The `category` getter: the stored raw value read back, `.other` when it
      names no category. */
  function CategoryOrOther(raw: string): (c: ChecklistCategory)
    ensures (exists u :: CategoryRaw(u) == raw) ==> CategoryRaw(c) == raw
    ensures (forall u :: CategoryRaw(u) != raw) ==> c == ChecklistCategory.Other
  {
    OrElse(ParseCategory(raw), ChecklistCategory.Other)
  }

  class HospitalBagItem {
    var id: Id
    var name: string
    var categoryRaw: string
    var isPacked: bool
    var isCustom: bool

    /** `init`: stores the category's raw value; unpacked and not custom
        unless told otherwise. */
    constructor(id: Id, name: string, category: ChecklistCategory, isPacked: bool := false, isCustom: bool := false)
      ensures this.id == id && this.name == name && categoryRaw == CategoryRaw(category)
      ensures this.isPacked == isPacked && this.isCustom == isCustom
      ensures Category() == category
    {
      this.id := id;
      this.name := name;
      this.categoryRaw := CategoryRaw(category);
      this.isPacked := isPacked;
      this.isCustom := isCustom;
      new;
      CategoryRoundTrip(category);
    }

    /** The `category` getter. */
    function Category(): (c: ChecklistCategory)
      reads this
      ensures (exists u :: CategoryRaw(u) == categoryRaw) ==> CategoryRaw(c) == categoryRaw
      ensures (forall u :: CategoryRaw(u) != categoryRaw) ==> c == ChecklistCategory.Other
    {
      CategoryOrOther(categoryRaw)
    }

    /** The `category` setter: what is set reads back. */
    method SetCategory(c: ChecklistCategory)
      modifies this`categoryRaw
      ensures categoryRaw == CategoryRaw(c)
      ensures Category() == c
    {
      categoryRaw := CategoryRaw(c);
      CategoryRoundTrip(c);
    }
  }

  // ---------------------------------------------------------------------------
  // Appointments

  datatype AppointmentType = Prenatal | Ultrasound | BloodWork | Specialist | Postpartum | Pediatric | Other

  /** `AppointmentType.rawValue`. */
  function AppointmentTypeRaw(t: AppointmentType): string
  {
    match t
    case Prenatal => "Prenatal Visit"
    case Ultrasound => "Ultrasound"
    case BloodWork => "Blood Work"
    case Specialist => "Specialist"
    case Postpartum => "Postpartum Checkup"
    case Pediatric => "Pediatric Visit"
    case Other => "Other"
  }

  /** `AppointmentType(rawValue:)`. */
  function ParseAppointmentType(raw: string): (r: Option<AppointmentType>)
    ensures r.Some? ==> AppointmentTypeRaw(r.value) == raw
    ensures r.None? ==> forall t :: AppointmentTypeRaw(t) != raw
  {
    if raw == "Prenatal Visit" then Some(Prenatal)
    else if raw == "Ultrasound" then Some(AppointmentType.Ultrasound)
    else if raw == "Blood Work" then Some(BloodWork)
    else if raw == "Specialist" then Some(Specialist)
    else if raw == "Postpartum Checkup" then Some(Postpartum)
    else if raw == "Pediatric Visit" then Some(Pediatric)
    else if raw == "Other" then Some(AppointmentType.Other)
    else None
  }

  /** Every appointment type reads back from its raw value. */
  lemma AppointmentTypeRoundTrip(t: AppointmentType)
    ensures ParseAppointmentType(AppointmentTypeRaw(t)) == Some(t)
  {
  }

  /** The `appointmentType` getter: the stored raw value read back, `.other`
      when it names no appointment type. */
  function AppointmentTypeOrOther(raw: string): (t: AppointmentType)
    ensures (exists u :: AppointmentTypeRaw(u) == raw) ==> AppointmentTypeRaw(t) == raw
    ensures (forall u :: AppointmentTypeRaw(u) != raw) ==> t == AppointmentType.Other
  {
    OrElse(ParseAppointmentType(raw), AppointmentType.Other)
  }

  class Appointment {
    var id: Id
    var title: string
    var appointmentTypeRaw: string
    var date: Instant
    var location: Option<string>
    var doctorName: Option<string>
    var notes: Option<string>
    var reminderEnabled: bool
    var reminderDate: Option<Instant>
    var isCompleted: bool

    /** `init`: stores the type's raw value; reminder on and not completed
        unless told otherwise. */
    constructor(id: Id, title: string, appointmentType: AppointmentType, date: Instant,
                location: Option<string> := None, doctorName: Option<string> := None,
                notes: Option<string> := None, reminderEnabled: bool := true,
                reminderDate: Option<Instant> := None, isCompleted: bool := false)
      ensures this.id == id && this.title == title && appointmentTypeRaw == AppointmentTypeRaw(appointmentType)
      ensures this.date == date && this.location == location && this.doctorName == doctorName
      ensures this.notes == notes && this.reminderEnabled == reminderEnabled
      ensures this.reminderDate == reminderDate && this.isCompleted == isCompleted
      ensures Kind() == appointmentType
    {
      this.id := id;
      this.title := title;
      this.appointmentTypeRaw := AppointmentTypeRaw(appointmentType);
      this.date := date;
      this.location := location;
      this.doctorName := doctorName;
      this.notes := notes;
      this.reminderEnabled := reminderEnabled;
      this.reminderDate := reminderDate;
      this.isCompleted := isCompleted;
      new;
      AppointmentTypeRoundTrip(appointmentType);
    }

    /** The `appointmentType` getter. */
    function Kind(): (t: AppointmentType)
      reads this
      ensures (exists u :: AppointmentTypeRaw(u) == appointmentTypeRaw) ==> AppointmentTypeRaw(t) == appointmentTypeRaw
      ensures (forall u :: AppointmentTypeRaw(u) != appointmentTypeRaw) ==> t == AppointmentType.Other
    {
      AppointmentTypeOrOther(appointmentTypeRaw)
    }

    /** The `appointmentType` setter: what is set reads back. */
    method SetKind(t: AppointmentType)
      modifies this`appointmentTypeRaw
      ensures appointmentTypeRaw == AppointmentTypeRaw(t)
      ensures Kind() == t
    {
      appointmentTypeRaw := AppointmentTypeRaw(t);
      AppointmentTypeRoundTrip(t);
    }

    /** `isPast`: the appointment's time is before now. */
    predicate IsPast(now: Instant)
      reads this
    {
      date < now
    }

    /** `isUpcoming`: neither past nor completed. */
    predicate IsUpcoming(now: Instant)
      reads this
    {
      !IsPast(now) && !isCompleted
    }
  }

  /** An appointment is upcoming exactly when it is neither past nor done;
      once its time has passed, or once it is done, it is no longer upcoming,
      and an upcoming one stays upcoming only until its time. */
  lemma UpcomingSpec(a: Appointment, now: Instant, later: Instant)
    ensures a.IsUpcoming(now) <==> a.date >= now && !a.isCompleted
    ensures a.IsUpcoming(later) && now <= later ==> a.IsUpcoming(now)
  {
  }

  // ---------------------------------------------------------------------------
  // Memories

  datatype MemoryType = BumpPhoto | Ultrasound | BabyPhoto | Milestone | Other

  /** `MemoryType.rawValue`. */
  function MemoryTypeRaw(t: MemoryType): string
  {
    match t
    case BumpPhoto => "Bump Photo"
    case Ultrasound => "Ultrasound"
    case BabyPhoto => "Baby Photo"
    case Milestone => "Milestone"
    case Other => "Other"
  }

  /** `MemoryType(rawValue:)`. */
  function ParseMemoryType(raw: string): (r: Option<MemoryType>)
    ensures r.Some? ==> MemoryTypeRaw(r.value) == raw
    ensures r.None? ==> forall t :: MemoryTypeRaw(t) != raw
  {
    if raw == "Bump Photo" then Some(BumpPhoto)
    else if raw == "Ultrasound" then Some(MemoryType.Ultrasound)
    else if raw == "Baby Photo" then Some(BabyPhoto)
    else if raw == "Milestone" then Some(Milestone)
    else if raw == "Other" then Some(MemoryType.Other)
    else None
  }

  /** Every memory type reads back from its raw value. */
  lemma MemoryTypeRoundTrip(t: MemoryType)
    ensures ParseMemoryType(MemoryTypeRaw(t)) == Some(t)
  {
  }

  /** The `memoryType` getter: the stored raw value read back, `.other` when
      it names no memory type. */
  function MemoryTypeOrOther(raw: string): (t: MemoryType)
    ensures (exists u :: MemoryTypeRaw(u) == raw) ==> MemoryTypeRaw(t) == raw
    ensures (forall u :: MemoryTypeRaw(u) != raw) ==> t == MemoryType.Other
  {
    OrElse(ParseMemoryType(raw), MemoryType.Other)
  }

  class MemoryEntry {
    var id: Id
    var date: Instant
    var title: string
    var memoryTypeRaw: string
    var caption: Option<string>
    var weekNumber: Option<int>

    /** `init`: stores the type's raw value. */
    constructor(id: Id, date: Instant, title: string, memoryType: MemoryType,
                caption: Option<string> := None, weekNumber: Option<int> := None)
      ensures this.id == id && this.date == date && this.title == title
      ensures memoryTypeRaw == MemoryTypeRaw(memoryType)
      ensures this.caption == caption && this.weekNumber == weekNumber
      ensures Kind() == memoryType
    {
      this.id := id;
      this.date := date;
      this.title := title;
      this.memoryTypeRaw := MemoryTypeRaw(memoryType);
      this.caption := caption;
      this.weekNumber := weekNumber;
      new;
      MemoryTypeRoundTrip(memoryType);
    }

    /** The `memoryType` getter. */
    function Kind(): (t: MemoryType)
      reads this
      ensures (exists u :: MemoryTypeRaw(u) == memoryTypeRaw) ==> MemoryTypeRaw(t) == memoryTypeRaw
      ensures (forall u :: MemoryTypeRaw(u) != memoryTypeRaw) ==> t == MemoryType.Other
    {
      MemoryTypeOrOther(memoryTypeRaw)
    }

    /** The `memoryType` setter: what is set reads back. */
    method SetKind(t: MemoryType)
      modifies this`memoryTypeRaw
      ensures memoryTypeRaw == MemoryTypeRaw(t)
      ensures Kind() == t
    {
      memoryTypeRaw := MemoryTypeRaw(t);
      MemoryTypeRoundTrip(t);
    }
  }

  // ---------------------------------------------------------------------------
  // Baby sizes

  datatype BabySize = BabySize(week: int, fruitComparison: string, length: string, weight: string)

  /** `BabySizeData.sizes`: one entry per week from 4 to 40. */
  const Sizes: seq<BabySize> := [
    BabySize(4, "Poppy seed", "2 mm", "<1 g"),
    BabySize(5, "Sesame seed", "2 mm", "<1 g"),
    BabySize(6, "Lentil", "5 mm", "<1 g"),
    BabySize(7, "Blueberry", "1.3 cm", "<1 g"),
    BabySize(8, "Kidney bean", "1.6 cm", "1 g"),
    BabySize(9, "Grape", "2.3 cm", "2 g"),
    BabySize(10, "Kumquat", "3.1 cm", "4 g"),
    BabySize(11, "Fig", "4.1 cm", "7 g"),
    BabySize(12, "Lime", "5.4 cm", "14 g"),
    BabySize(13, "Pea pod", "7.4 cm", "23 g"),
    BabySize(14, "Lemon", "8.7 cm", "43 g"),
    BabySize(15, "Apple", "10.1 cm", "70 g"),
    BabySize(16, "Avocado", "11.6 cm", "100 g"),
    BabySize(17, "Turnip", "13 cm", "140 g"),
    BabySize(18, "Bell pepper", "14.2 cm", "190 g"),
    BabySize(19, "Mango", "15.3 cm", "240 g"),
    BabySize(20, "Banana", "25.6 cm", "300 g"),
    BabySize(21, "Carrot", "26.7 cm", "360 g"),
    BabySize(22, "Papaya", "27.8 cm", "430 g"),
    BabySize(23, "Grapefruit", "28.9 cm", "501 g"),
    BabySize(24, "Cantaloupe", "30 cm", "600 g"),
    BabySize(25, "Cauliflower", "34.6 cm", "660 g"),
    BabySize(26, "Lettuce", "35.6 cm", "760 g"),
    BabySize(27, "Cabbage", "36.6 cm", "875 g"),
    BabySize(28, "Eggplant", "37.6 cm", "1 kg"),
    BabySize(29, "Butternut squash", "38.6 cm", "1.15 kg"),
    BabySize(30, "Cucumber", "39.9 cm", "1.32 kg"),
    BabySize(31, "Coconut", "41.1 cm", "1.5 kg"),
    BabySize(32, "Jicama", "42.4 cm", "1.7 kg"),
    BabySize(33, "Pineapple", "43.7 cm", "1.9 kg"),
    BabySize(34, "Cantaloupe", "45 cm", "2.1 kg"),
    BabySize(35, "Honeydew melon", "46.2 cm", "2.4 kg"),
    BabySize(36, "Romaine lettuce", "47.4 cm", "2.6 kg"),
    BabySize(37, "Swiss chard", "48.6 cm", "2.9 kg"),
    BabySize(38, "Leek", "49.8 cm", "3 kg"),
    BabySize(39, "Mini watermelon", "50.7 cm", "3.3 kg"),
    BabySize(40, "Small pumpkin", "51.2 cm", "3.4 kg")
  ]

  /** The table lists the weeks 4 to 40 in order, so each exactly once. */
  lemma SizesWeeks()
    ensures |Sizes| == 37
    ensures forall i :: 0 <= i < |Sizes| ==> Sizes[i].week == i + 4
  {
  }

  /** `BabySizeData.size(for:)`: the first entry for the week. */
  function SizeFor(week: int): (r: Option<BabySize>)
    ensures r.Some? ==> r.value in Sizes && r.value.week == week
    ensures r.None? ==> forall i :: 0 <= i < |Sizes| ==> Sizes[i].week != week
  {
    match FirstIndex(Sizes, (s: BabySize) => s.week == week)
    case Some(i) => Some(Sizes[i])
    case None => None
  }

  /** There is a size for a week exactly when the week is between 4 and 40,
      and it is the table's entry for that week. */
  lemma SizeForRange(week: int)
    ensures SizeFor(week).Some? <==> 4 <= week <= 40
    ensures 4 <= week <= 40 ==> SizeFor(week) == Some(Sizes[week - 4])
  {
    SizesWeeks();
    if 4 <= week <= 40 {
      assert Sizes[week - 4].week == week;
    }
  }
}
