/** `AuthService`: the app's own authentication errors, their messages, and
    how a Firebase error is translated into one. The Firebase calls
    themselves are outside the model; their outcomes are parameters. */
module AuthService {
  import opened Wrappers

  /** `AuthError`. */
  datatype AuthError =
    | InvalidCredentials
    | UserNotFound
    | EmailAlreadyInUse
    | WeakPassword
    | NetworkError
    | NotAuthenticated
    | Unknown(message: string)

  /** The Firebase `AuthErrorCode` cases the app distinguishes; every other
      recognised code is `OtherCode`. */
  datatype AuthErrorCode =
    | WrongPassword
    | InvalidEmail
    | InvalidCredential
    | UserNotFoundCode
    | EmailAlreadyInUseCode
    | WeakPasswordCode
    | NetworkErrorCode
    | OtherCode(rawValue: int)

  /** An `NSError` from Firebase: its code when `AuthErrorCode(rawValue:)`
      recognises it, and its localized description. */
  datatype FirebaseError = FirebaseError(code: Option<AuthErrorCode>, localizedDescription: string)

  /** `errorDescription`: a fixed sentence for each case, the carried message
      for `unknown`. */
  function ErrorDescription(e: AuthError): (r: string)
    ensures e.Unknown? ==> r == e.message
    ensures !e.Unknown? ==> |r| > 0
  {
    match e
    case InvalidCredentials => "Invalid email or password. Please try again."
    case UserNotFound => "No account found with this email."
    case EmailAlreadyInUse => "An account with this email already exists."
    case WeakPassword => "Password must be at least 6 characters."
    case NetworkError => "Please check your internet connection."
    case NotAuthenticated => "You need to sign in first."
    case Unknown(message) => message
  }

  /** The length of each fixed message; a different number for each case. */
  function FixedLength(e: AuthError): nat
  {
    match e
    case InvalidCredentials => 44
    case UserNotFound => 33
    case EmailAlreadyInUse => 42
    case WeakPassword => 39
    case NetworkError => 38
    case NotAuthenticated => 26
    case Unknown(_) => 0
  }

  lemma DescriptionLength(e: AuthError)
    requires !e.Unknown?
    ensures |ErrorDescription(e)| == FixedLength(e)
  {
    match e
    case InvalidCredentials =>
    case UserNotFound =>
    case EmailAlreadyInUse =>
    case WeakPassword =>
    case NetworkError =>
    case NotAuthenticated =>
  }

  /** Different fixed cases have different messages. */
  lemma FixedDescriptionsDistinct(a: AuthError, b: AuthError)
    requires !a.Unknown? && !b.Unknown? && a != b
    ensures ErrorDescription(a) != ErrorDescription(b)
  {
    DescriptionLength(a);
    DescriptionLength(b);
  }

  /** `mapFirebaseError`. */
  function MapFirebaseError(error: FirebaseError): (r: AuthError)
    ensures error.code.None? ==> r == Unknown(error.localizedDescription)
    ensures error.code.Some? && error.code.value in {WrongPassword, InvalidEmail, InvalidCredential} ==>
      r == InvalidCredentials
    ensures error.code == Some(UserNotFoundCode) ==> r == UserNotFound
    ensures error.code == Some(EmailAlreadyInUseCode) ==> r == EmailAlreadyInUse
    ensures error.code == Some(WeakPasswordCode) ==> r == WeakPassword
    ensures error.code == Some(NetworkErrorCode) ==> r == NetworkError
    ensures error.code.Some? && error.code.value.OtherCode? ==> r == Unknown(error.localizedDescription)
  {
    match error.code
    case None => Unknown(error.localizedDescription)
    case Some(code) =>
      match code
      case WrongPassword => InvalidCredentials
      case InvalidEmail => InvalidCredentials
      case InvalidCredential => InvalidCredentials
      case UserNotFoundCode => UserNotFound
      case EmailAlreadyInUseCode => EmailAlreadyInUse
      case WeakPasswordCode => WeakPassword
      case NetworkErrorCode => NetworkError
      case OtherCode(_) => Unknown(error.localizedDescription)
  }

  /** A Firebase failure is never reported as "not signed in"; only an
      unrecognised or unlisted code carries Firebase's own text. */
  lemma MapFirebaseErrorRange(error: FirebaseError)
    ensures MapFirebaseError(error) != NotAuthenticated
    ensures MapFirebaseError(error).Unknown? <==> error.code.None? || error.code.value.OtherCode?
    ensures MapFirebaseError(error).Unknown? ==> ErrorDescription(MapFirebaseError(error)) == error.localizedDescription
  {
  }

  /** What `deleteAccount` did: whether it asked Firebase to delete, and the
      error it threw, if any. */
  datatype DeleteOutcome = DeleteOutcome(attempted: bool, thrown: Option<AuthError>)

  /** `deleteAccount`: with nobody signed in it throws `notAuthenticated`
      without trying; otherwise it tries, and a failure is mapped. The
      Firebase answer is `deletion`: none for success. */
  function DeleteAccount(signedIn: bool, deletion: Option<FirebaseError>): (r: DeleteOutcome)
    ensures !signedIn ==> !r.attempted && r.thrown == Some(NotAuthenticated)
    ensures signedIn ==> r.attempted
    ensures signedIn && deletion.None? ==> r.thrown.None?
    ensures signedIn && deletion.Some? ==> r.thrown == Some(MapFirebaseError(deletion.value))
    ensures r.thrown == Some(NotAuthenticated) <==> !signedIn
  {
    if !signedIn then DeleteOutcome(false, Some(NotAuthenticated))
    else
      match deletion
      case None => DeleteOutcome(true, None)
      case Some(e) => MapFirebaseErrorRange(e); DeleteOutcome(true, Some(MapFirebaseError(e)))
  }
}
