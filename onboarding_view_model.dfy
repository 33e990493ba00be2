/** `OnboardingViewModel`: the sign-up form's state and the validators that
    gate each onboarding step. */
module Onboarding {
  import opened Wrappers
  import opened DataModels

  const MinPasswordLength: nat := 6
  const DefaultDialCode: string := "+44"

  /** `isPersonalInfoValid`: both names given. */
  predicate PersonalInfoValid(u: User)
  {
    u.firstName != "" && u.lastName != ""
  }

  /** `isAccountInfoValid`: an email, a non-empty password of at least six
      characters, confirmed. */
  predicate AccountInfoValid(email: string, password: string, confirmPassword: string)
  {
    email != "" && password != "" && password == confirmPassword && |password| >= MinPasswordLength
  }

  /** The emptiness check on the password is implied by the length check. */
  lemma AccountInfoValidWithoutEmptyCheck(email: string, password: string, confirmPassword: string)
    ensures AccountInfoValid(email, password, confirmPassword) <==>
      email != "" && password == confirmPassword && |password| >= MinPasswordLength
    ensures AccountInfoValid(email, password, confirmPassword) ==> |confirmPassword| >= MinPasswordLength
  {
  }

  /** `canCompleteAccount`. */
  predicate ConsentComplete(acceptedTerms: bool, acceptedPrivacy: bool, storageOption: Option<StorageMode>)
  {
    acceptedTerms && acceptedPrivacy && storageOption.Some?
  }

  /** `isDateValid`: the date the user type calls for is present; never
      valid without a type. */
  predicate DateValid(u: User)
  {
    match u.userType
    case Some(Pregnant) => u.expectedDeliveryDate.Some?
    case Some(HasChild) => u.birthDate.Some?
    case None => false
  }

  /** Once a type is chosen, the date check is exactly "no longer needs
      onboarding". */
  lemma DateValidIffOnboarded(u: User)
    ensures u.userType.None? ==> !DateValid(u)
    ensures u.userType.Some? ==> (DateValid(u) <==> !NeedsOnboarding(u))
  {
  }

  /** `validDateRange`, as (lower, upper). The calendar's "9 months on" and
      "5 years back" are passed in, `nil` when the calendar gives no date;
      `?? today` falls back to today. */
  function ValidDateRange(userType: Option<UserType>, today: Day, nineMonthsOn: Option<Day>,
                          fiveYearsBack: Option<Day>): (r: (Day, Day))
    ensures userType == Some(Pregnant) ==> r == (today, OrElse(nineMonthsOn, today))
    ensures userType == Some(HasChild) ==> r == (OrElse(fiveYearsBack, today), today)
    ensures userType.None? ==> r == (today, today)
  {
    match userType
    case Some(Pregnant) => (today, OrElse(nineMonthsOn, today))
    case Some(HasChild) => (OrElse(fiveYearsBack, today), today)
    case None => (today, today)
  }

  /** The range is never empty when the calendar moves forward for "on" and
      backward for "back": a due date can be today or later, a birth date
      today or earlier. */
  lemma ValidDateRangeNonEmpty(userType: Option<UserType>, today: Day, nineMonthsOn: Option<Day>,
                               fiveYearsBack: Option<Day>)
    requires nineMonthsOn.Some? ==> nineMonthsOn.value >= today
    requires fiveYearsBack.Some? ==> fiveYearsBack.value <= today
    ensures var r := ValidDateRange(userType, today, nineMonthsOn, fiveYearsBack);
      r.0 <= r.1 && r.0 <= today <= r.1
    ensures userType == Some(Pregnant) ==> ValidDateRange(userType, today, nineMonthsOn, fiveYearsBack).0 == today
    ensures userType == Some(HasChild) ==> ValidDateRange(userType, today, nineMonthsOn, fiveYearsBack).1 == today
  {
  }

  class OnboardingViewModel {
    var user: User
    var password: string
    var confirmPassword: string
    var acceptedTerms: bool
    var acceptedPrivacy: bool
    var wantsReminders: bool
    var showPersonalInfoError: bool
    var showAccountInfoError: bool
    var showConsentError: bool
    var showDateError: bool
    var storageOption: Option<StorageMode>
    var selectedDialCode: string

    /** The declared defaults; `id` stands for the new user's `UUID()`. */
    constructor(id: Id)
      ensures user == DefaultUser(id) && password == "" && confirmPassword == ""
      ensures !acceptedTerms && !acceptedPrivacy && wantsReminders && storageOption.None?
      ensures !showPersonalInfoError && !showAccountInfoError && !showConsentError && !showDateError
      ensures selectedDialCode == DefaultDialCode
    {
      user := DefaultUser(id);
      password := "";
      confirmPassword := "";
      acceptedTerms := false;
      acceptedPrivacy := false;
      wantsReminders := true;
      showPersonalInfoError := false;
      showAccountInfoError := false;
      showConsentError := false;
      showDateError := false;
      storageOption := None;
      selectedDialCode := DefaultDialCode;
    }

    predicate IsPersonalInfoValid()
      reads this
    {
      PersonalInfoValid(user)
    }

    predicate IsAccountInfoValid()
      reads this
    {
      AccountInfoValid(user.email, password, confirmPassword)
    }

    predicate CanCompleteAccount()
      reads this
    {
      ConsentComplete(acceptedTerms, acceptedPrivacy, storageOption)
    }

    predicate IsDateValid()
      reads this
    {
      DateValid(user)
    }

    /** `validateConsent()`: the same three conditions as
        `canCompleteAccount`. */
    method ValidateConsent() returns (r: bool)
      ensures r == CanCompleteAccount()
      ensures r <==> acceptedTerms && acceptedPrivacy && storageOption.Some?
    {
      r := acceptedTerms && acceptedPrivacy && storageOption.Some?;
    }

    /** `reset()`: a fresh user, empty passwords, consents withdrawn,
        reminders on and no storage choice; the error flags and the dial code
        stay as they were. No step's check passes afterwards. */
    method Reset(id: Id)
      modifies this`user, this`password, this`confirmPassword, this`acceptedTerms,
               this`acceptedPrivacy, this`wantsReminders, this`storageOption
      ensures user == DefaultUser(id) && password == "" && confirmPassword == ""
      ensures !acceptedTerms && !acceptedPrivacy && wantsReminders && storageOption.None?
      ensures showPersonalInfoError == old(showPersonalInfoError) && showAccountInfoError == old(showAccountInfoError)
      ensures showConsentError == old(showConsentError) && showDateError == old(showDateError)
      ensures selectedDialCode == old(selectedDialCode)
      ensures !IsPersonalInfoValid() && !IsAccountInfoValid() && !CanCompleteAccount() && !IsDateValid()
    {
      user := DefaultUser(id);
      password := "";
      confirmPassword := "";
      acceptedTerms := false;
      acceptedPrivacy := false;
      wantsReminders := true;
      storageOption := None;
    }
  }
}
