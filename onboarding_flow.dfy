/** `OnboardingFlowView`: the six sign-up steps, moved forward by handlers
    that each check their step's validator and backward by `goBack`. */
module OnboardingFlow {
  import opened Wrappers
  import opened DataModels
  import opened Onboarding

  /** `OnboardingStep`; `userType` is `UserTypeStep` here, the type name
      being taken by the user's type. */
  datatype OnboardingStep =
    PersonalInfo | AccountInfo | Consent | UserTypeStep | DateCapture | EmergencyContacts

  /** The position of a step in the forward order. */
  function StepIndex(s: OnboardingStep): (i: nat)
    ensures i < 6
  {
    match s
    case PersonalInfo => 0
    case AccountInfo => 1
    case Consent => 2
    case UserTypeStep => 3
    case DateCapture => 4
    case EmergencyContacts => 5
  }

  lemma StepIndexInjective(a: OnboardingStep, b: OnboardingStep)
    ensures StepIndex(a) == StepIndex(b) ==> a == b
  {
  }

  /** The step each forward handler moves to; the last step has none. */
  function NextStep(s: OnboardingStep): (r: Option<OnboardingStep>)
    ensures r.None? <==> s == EmergencyContacts
    ensures r.Some? ==> StepIndex(r.value) == StepIndex(s) + 1
  {
    match s
    case PersonalInfo => Some(AccountInfo)
    case AccountInfo => Some(Consent)
    case Consent => Some(UserTypeStep)
    case UserTypeStep => Some(DateCapture)
    case DateCapture => Some(EmergencyContacts)
    case EmergencyContacts => None
  }

  /** `goBack`: one step back, nothing at the first step. */
  function PreviousStep(s: OnboardingStep): (r: OnboardingStep)
    ensures s == PersonalInfo ==> r == PersonalInfo
    ensures s != PersonalInfo ==> StepIndex(r) + 1 == StepIndex(s)
  {
    match s
    case AccountInfo => PersonalInfo
    case Consent => AccountInfo
    case UserTypeStep => Consent
    case DateCapture => UserTypeStep
    case EmergencyContacts => DateCapture
    case PersonalInfo => PersonalInfo
  }

  /** Going back undoes a forward move, and a forward move undoes going back
      from any step but the first. */
  lemma BackIsInverseOfForward(s: OnboardingStep)
    ensures NextStep(s).Some? ==> PreviousStep(NextStep(s).value) == s
    ensures s != PersonalInfo ==> NextStep(PreviousStep(s)) == Some(s)
  {
  }

  /** The forward order is a single line through all six steps from the
      start. */
  lemma ForwardOrderIsLinear(s: OnboardingStep)
    ensures StepIndex(s) == 0 <==> s == PersonalInfo
    ensures s == EmergencyContacts <==> StepIndex(s) == 5
    ensures NextStep(s).Some? ==> NextStep(s).value != s
  {
  }

  class OnboardingFlowView {
    var step: OnboardingStep
    const onboardingVM: OnboardingViewModel

    /** The flow starts at the personal details. */
    constructor(onboardingVM: OnboardingViewModel)
      ensures step == PersonalInfo && this.onboardingVM == onboardingVM
    {
      step := PersonalInfo;
      this.onboardingVM := onboardingVM;
    }

    /** `handlePersonalInfo`. */
    method HandlePersonalInfo()
      modifies this`step, onboardingVM`showPersonalInfoError
      ensures onboardingVM.IsPersonalInfoValid() ==>
        step == AccountInfo && onboardingVM.showPersonalInfoError == old(onboardingVM.showPersonalInfoError)
      ensures !onboardingVM.IsPersonalInfoValid() ==>
        step == old(step) && onboardingVM.showPersonalInfoError
    {
      if onboardingVM.IsPersonalInfoValid() {
        step := AccountInfo;
      } else {
        onboardingVM.showPersonalInfoError := true;
      }
    }

    /** `handleAccountInfo`. */
    method HandleAccountInfo()
      modifies this`step, onboardingVM`showAccountInfoError
      ensures onboardingVM.IsAccountInfoValid() ==>
        step == Consent && onboardingVM.showAccountInfoError == old(onboardingVM.showAccountInfoError)
      ensures !onboardingVM.IsAccountInfoValid() ==>
        step == old(step) && onboardingVM.showAccountInfoError
    {
      if onboardingVM.IsAccountInfoValid() {
        step := Consent;
      } else {
        onboardingVM.showAccountInfoError := true;
      }
    }

    /** `handleConsent`: on success, stamps the privacy acceptance with today
        before moving on. */
    method HandleConsent(today: Day)
      modifies this`step, onboardingVM`user, onboardingVM`showConsentError
      ensures onboardingVM.CanCompleteAccount() ==>
        && step == UserTypeStep
        && onboardingVM.user == old(onboardingVM.user).(privacyAcceptedAt := Some(today))
        && onboardingVM.showConsentError == old(onboardingVM.showConsentError)
      ensures !onboardingVM.CanCompleteAccount() ==>
        step == old(step) && onboardingVM.user == old(onboardingVM.user) && onboardingVM.showConsentError
    {
      if onboardingVM.CanCompleteAccount() {
        onboardingVM.user := onboardingVM.user.(privacyAcceptedAt := Some(today));
        step := UserTypeStep;
      } else {
        onboardingVM.showConsentError := true;
      }
    }

    /** `handleUserType`: moves on once a type is chosen; sets no flag. */
    method HandleUserType()
      modifies this`step
      ensures onboardingVM.user.userType.Some? ==> step == DateCapture
      ensures onboardingVM.user.userType.None? ==> step == old(step)
    {
      if onboardingVM.user.userType.Some? {
        step := DateCapture;
      }
    }

    /** `handleDateCapture`. */
    method HandleDateCapture()
      modifies this`step, onboardingVM`showDateError
      ensures onboardingVM.IsDateValid() ==>
        step == EmergencyContacts && onboardingVM.showDateError == old(onboardingVM.showDateError)
      ensures !onboardingVM.IsDateValid() ==>
        step == old(step) && onboardingVM.showDateError
    {
      if onboardingVM.IsDateValid() {
        step := EmergencyContacts;
      } else {
        onboardingVM.showDateError := true;
      }
    }

    /** `goBack`. */
    method GoBack()
      modifies this`step
      ensures step == PreviousStep(old(step))
    {
      match step
      case AccountInfo => step := PersonalInfo;
      case Consent => step := AccountInfo;
      case UserTypeStep => step := Consent;
      case DateCapture => step := UserTypeStep;
      case EmergencyContacts => step := DateCapture;
      case PersonalInfo =>
    }
  }
}
