/** The sign-up form of components/screens/SignupScreen.tsx: the form is checked
    locally in a fixed order before the account service is asked, and the
    service's error text is turned into one of four messages. */
module SignupScreen {
  import opened Text
  import opened InterviewTypes
  import opened NotificationSystem

  datatype Form = Form(email: string, password: string, confirmPassword: string,
                       agreeToTerms: bool, parentConsent: bool)

  /** The local checks of `validateForm`, in the order they run. */
  datatype Problem = MissingField | ShortPassword | PasswordMismatch | TermsNotAccepted | NoAgeConfirmation

  const MinPasswordLength: int := 6

  function Rank(p: Problem): int {
    match p
    case MissingField => 0
    case ShortPassword => 1
    case PasswordMismatch => 2
    case TermsNotAccepted => 3
    case NoAgeConfirmation => 4
  }

  /** Whether the form fails the check `p`, looked at on its own. */
  predicate Fails(f: Form, p: Problem) {
    match p
    case MissingField => f.email == "" || f.password == "" || f.confirmPassword == ""
    case ShortPassword => |f.password| < MinPasswordLength
    case PasswordMismatch => f.password != f.confirmPassword
    case TermsNotAccepted => !f.agreeToTerms
    case NoAgeConfirmation => !f.parentConsent
  }

  /** `validateForm()`: the first failing check, or none when the form may be sent. */
  function Validate(f: Form): (r: Option<Problem>)
    ensures r == None <==>
      f.email != "" && f.password != "" && f.confirmPassword != ""
      && |f.password| >= MinPasswordLength && f.password == f.confirmPassword
      && f.agreeToTerms && f.parentConsent
    ensures r.Some? ==> Fails(f, r.value) && forall q | Rank(q) < Rank(r.value) :: !Fails(f, q)
  {
    if f.email == "" || f.password == "" || f.confirmPassword == "" then Some(MissingField)
    else if |f.password| < MinPasswordLength then Some(ShortPassword)
    else if f.password != f.confirmPassword then Some(PasswordMismatch)
    else if !f.agreeToTerms then Some(TermsNotAccepted)
    else if !f.parentConsent then Some(NoAgeConfirmation)
    else None
  }

  /** The warning each failed check raises. */
  function WarningFor(p: Problem): Request {
    match p
    case MissingField => Request(Warning, "入力エラー", "すべての項目を入力してください。", Some(3000), false)
    case ShortPassword => Request(Warning, "パスワードエラー", "パスワードは6文字以上で入力してください。", Some(3000), false)
    case PasswordMismatch => Request(Warning, "パスワードエラー", "パスワードが一致しません。", Some(3000), false)
    case TermsNotAccepted => Request(Warning, "利用規約", "利用規約とプライバシーポリシーに同意してください。", Some(3000), false)
    case NoAgeConfirmation => Request(Warning, "年齢確認", "年齢に関する確認にチェックしてください。", Some(3000), false)
  }

  const AlreadyRegistered: string := "User already registered"
  const PasswordTooShort: string := "Password should be at least 6 characters"
  const InvalidEmail: string := "Invalid email"

  const AlreadyRegisteredText: string := "このメールアドレスは既に登録されています。ログインしてください。"
  const PasswordTooShortText: string := "パスワードは6文字以上で入力してください。"
  const InvalidEmailText: string := "有効なメールアドレスを入力してください。"
  const GenericText: string := "新規登録に失敗しました"

  /** The message shown for an error the account service returns. */
  function SignupErrorText(message: string): string {
    if Contains(message, AlreadyRegistered) then AlreadyRegisteredText
    else if Contains(message, PasswordTooShort) then PasswordTooShortText
    else if Contains(message, InvalidEmail) then InvalidEmailText
    else GenericText
  }

  /** What `signUp` answered: an error with its message, data with or without a
      user, or a thrown exception. */
  datatype Response = Refused(message: string) | Accepted(hasUser: bool) | Thrown

  /** The outcome of one press of the sign-up button: whether the service was
      called, the notification shown, and whether the registration is complete. */
  datatype Outcome = Outcome(called: bool, notice: Option<Request>, complete: bool)

  function SignupOutcome(f: Form, response: Response, wasComplete: bool): Outcome {
    match Validate(f)
    case Some(p) => Outcome(false, Some(WarningFor(p)), wasComplete)
    case None =>
      match response
      case Refused(m) => Outcome(true, Some(Request(Error, "登録エラー", SignupErrorText(m), Some(5000), false)), wasComplete)
      case Accepted(hasUser) =>
        if hasUser then
          Outcome(true, Some(Request(Success, "登録完了", "認証メールを送信しました。メールを確認してリンクをクリックしてください。", Some(8000), false)), true)
        else Outcome(true, None, wasComplete)
      case Thrown =>
        Outcome(true, Some(Request(Error, "登録中にエラーが発生しました", "ネットワーク接続を確認してください。", Some(5000), false)), wasComplete)
  }

  // ===========================================================================
  // Properties

  /** The service message is matched by priority: each text is shown exactly when
      its phrase occurs and no earlier phrase does, the generic text exactly when
      none of the three occurs, and the text is always one of the four. */
  lemma SignupErrorTextMeaning(message: string)
    ensures SignupErrorText(message) == AlreadyRegisteredText <==> Contains(message, AlreadyRegistered)
    ensures SignupErrorText(message) == PasswordTooShortText <==>
      !Contains(message, AlreadyRegistered) && Contains(message, PasswordTooShort)
    ensures SignupErrorText(message) == InvalidEmailText <==>
      !Contains(message, AlreadyRegistered) && !Contains(message, PasswordTooShort) && Contains(message, InvalidEmail)
    ensures SignupErrorText(message) == GenericText <==>
      !Contains(message, AlreadyRegistered) && !Contains(message, PasswordTooShort) && !Contains(message, InvalidEmail)
    ensures SignupErrorText(message) in {AlreadyRegisteredText, PasswordTooShortText, InvalidEmailText, GenericText}
    ensures SignupErrorText(AlreadyRegistered + " / " + InvalidEmail) == AlreadyRegisteredText
  {
    assert GenericText[0] == '新';
    assert AlreadyRegisteredText[0] == 'こ' && PasswordTooShortText[0] == 'パ' && InvalidEmailText[0] == '有';
    ContainsPiece("", AlreadyRegistered, " / " + InvalidEmail);
    assert "" + AlreadyRegistered + " / " + InvalidEmail == AlreadyRegistered + " / " + InvalidEmail;
  }

  /** A form that fails a local check never reaches the service, shows exactly that
      check's warning and leaves the registration state alone; a completed
      registration needs a valid form and an accepted request with a user. */
  lemma SignupOutcomeMeaning(f: Form, response: Response, wasComplete: bool)
    ensures var o := SignupOutcome(f, response, wasComplete);
      && (o.called <==> Validate(f) == None)
      && (!o.called ==>
            (o.notice == Some(WarningFor(Validate(f).value)) && o.complete == wasComplete
             && o.notice.value.kind == Warning))
      && (!wasComplete ==> (o.complete <==> Validate(f) == None && response == Accepted(true)))
  {
  }

  // ===========================================================================
  // The screen

  class SignupForm {
    var loading: bool
    var registrationComplete: bool

    constructor ()
      ensures !loading && !registrationComplete
    {
      loading := false;
      registrationComplete := false;
    }

    /** `handleSignup` with `response` as the service's answer; it is consulted only
        when the form passes the local checks. */
    method HandleSignup(f: Form, response: Response) returns (called: bool, notice: Option<Request>)
      modifies this
      ensures SignupOutcome(f, response, old(registrationComplete)) == Outcome(called, notice, registrationComplete)
      ensures loading == (if called then false else old(loading))
    {
      var problem := Validate(f);
      if problem.Some? {
        return false, Some(WarningFor(problem.value));
      }
      loading := true;
      called := true;
      match response {
        case Refused(m) =>
          notice := Some(Request(Error, "登録エラー", SignupErrorText(m), Some(5000), false));
        case Accepted(hasUser) =>
          if hasUser {
            registrationComplete := true;
            notice := Some(Request(Success, "登録完了", "認証メールを送信しました。メールを確認してリンクをクリックしてください。", Some(8000), false));
          } else {
            notice := None;
          }
        case Thrown =>
          notice := Some(Request(Error, "登録中にエラーが発生しました", "ネットワーク接続を確認してください。", Some(5000), false));
      }
      loading := false;
    }
  }
}
