/** `SignInView.handleLogin`: a local check of the typed email against the
    stored user; the password field is never consulted. */
module SignIn {
  import opened Wrappers
  import opened DataModels
  import opened MamaCare

  /** `Character.lowercased()` on ASCII letters; every other character is
      left alone. */
  function LowerChar(c: char): (r: char)
    ensures 'A' <= c <= 'Z' ==> r as int == c as int + 32
    ensures !('A' <= c <= 'Z') ==> r == c
  {
    if 'A' <= c <= 'Z' then (c as int + 32) as char else c
  }

  /** `String.lowercased()`, character by character. */
  function Lower(s: string): (r: string)
    ensures |r| == |s| && forall k :: 0 <= k < |s| ==> r[k] == LowerChar(s[k])
  {
    seq(|s|, k requires 0 <= k < |s| => LowerChar(s[k]))
  }

  /** Lowercasing twice is lowercasing once. */
  lemma LowerIdempotent(s: string)
    ensures Lower(Lower(s)) == Lower(s)
  {
  }

  const EmptyEmailMessage: string := "Please enter your email address."
  const InvalidCredentialsMessage: string := "Invalid credentials or no account found."
  const NoAccountMessage: string := "No account found. Please sign up."

  /** What one press of the sign-in button does. */
  datatype LoginOutcome = LoggedIn | Rejected(message: string)

  /** The decision table of `handleLogin`. */
  function LoginDecision(email: string, password: string, hasCompletedOnboarding: bool,
                         currentUser: Option<User>): (r: LoginOutcome)
    ensures email == "" ==> r == Rejected(EmptyEmailMessage)
    ensures r == LoggedIn <==>
      email != "" && hasCompletedOnboarding && currentUser.Some? && Lower(currentUser.value.email) == Lower(email)
    ensures email != "" && hasCompletedOnboarding && currentUser.Some? && r.Rejected? ==>
      r.message == InvalidCredentialsMessage
    ensures email != "" && !(hasCompletedOnboarding && currentUser.Some?) ==> r == Rejected(NoAccountMessage)
  {
    if email == "" then Rejected(EmptyEmailMessage)
    else if hasCompletedOnboarding && currentUser.Some? then
      if Lower(currentUser.value.email) == Lower(email) then LoggedIn
      else Rejected(InvalidCredentialsMessage)
    else Rejected(NoAccountMessage)
  }

  /** The password never changes the outcome. */
  lemma PasswordIrrelevant(email: string, p1: string, p2: string, hasCompletedOnboarding: bool,
                           currentUser: Option<User>)
    ensures LoginDecision(email, p1, hasCompletedOnboarding, currentUser)
         == LoginDecision(email, p2, hasCompletedOnboarding, currentUser)
  {
  }

  /** Only the letters of the typed email count, not their case: two emails
      that lowercase alike get the same outcome, and the stored email itself,
      typed in any case, logs an onboarded user in. */
  lemma EmailCaseIrrelevant(e1: string, e2: string, password: string, hasCompletedOnboarding: bool,
                            currentUser: Option<User>)
    ensures Lower(e1) == Lower(e2) ==>
      LoginDecision(e1, password, hasCompletedOnboarding, currentUser)
      == LoginDecision(e2, password, hasCompletedOnboarding, currentUser)
    ensures (hasCompletedOnboarding && currentUser.Some? && currentUser.value.email != ""
             && Lower(e1) == Lower(currentUser.value.email)) ==>
      LoginDecision(e1, password, hasCompletedOnboarding, currentUser) == LoggedIn
  {
  }

  class SignInView {
    var email: string
    var password: string
    var isPasswordVisible: bool
    var rememberMe: bool
    var showError: bool
    var errorMessage: string

    /** The screen opens with empty fields and no error. */
    constructor()
      ensures email == "" && password == "" && !isPasswordVisible && !rememberMe
      ensures !showError && errorMessage == ""
    {
      email := "";
      password := "";
      isPasswordVisible := false;
      rememberMe := false;
      showError := false;
      errorMessage := "";
    }

    /** `handleLogin`: either logs the view model in, or shows the error the
        decision table names and leaves the view model alone. */
    method HandleLogin(viewModel: MamaCareViewModel)
      modifies this`errorMessage, this`showError, viewModel`isLoggedIn, viewModel`savedLoggedIn
      ensures var d := LoginDecision(email, password, viewModel.hasCompletedOnboarding, viewModel.currentUser);
        && (d == LoggedIn ==>
              viewModel.isLoggedIn && viewModel.savedLoggedIn
              && showError == old(showError) && errorMessage == old(errorMessage))
        && (d.Rejected? ==>
              showError && errorMessage == d.message
              && viewModel.isLoggedIn == old(viewModel.isLoggedIn)
              && viewModel.savedLoggedIn == old(viewModel.savedLoggedIn))
    {
      if email == "" {
        errorMessage := EmptyEmailMessage;
        showError := true;
        return;
      }
      if viewModel.hasCompletedOnboarding && viewModel.currentUser.Some? {
        var user := viewModel.currentUser.value;
        if Lower(user.email) == Lower(email) {
          viewModel.Login();
        } else {
          errorMessage := InvalidCredentialsMessage;
          showError := true;
        }
      } else {
        errorMessage := NoAccountMessage;
        showError := true;
      }
    }
  }
}
