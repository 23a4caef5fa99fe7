/** The sign-in handler of components/screens/LoginScreen.tsx: an error from the
    account service is classified by its code or its message, the first matching
    branch deciding the text shown and whether the credentials help is opened;
    a successful sign-in redirects to the page the user came from. */
module LoginScreen {
  import opened Text
  import opened InterviewTypes
  import opened NotificationSystem

  /** An error of the account service; an absent code or message is empty. */
  datatype AuthError = AuthError(code: string, message: string)

  /** The branches of the classification, in the order they are tried. */
  datatype Failure = InvalidCredentials | EmailNotConfirmed | TooManyRequests | WrongPassword | InvalidEmail | Unrecognised

  function Rank(k: Failure): int {
    match k
    case InvalidCredentials => 0
    case EmailNotConfirmed => 1
    case TooManyRequests => 2
    case WrongPassword => 3
    case InvalidEmail => 4
    case Unrecognised => 5
  }

  /** Whether the error fits branch `k` on its own: its code, or a phrase of its
      message. */
  predicate Fits(e: AuthError, k: Failure) {
    match k
    case InvalidCredentials => e.code == "invalid_credentials" || Contains(e.message, "Invalid login credentials")
    case EmailNotConfirmed => e.code == "email_not_confirmed" || Contains(e.message, "Email not confirmed")
    case TooManyRequests => e.code == "too_many_requests" || Contains(e.message, "Too many requests")
    case WrongPassword => e.code == "weak_password" || Contains(e.message, "Password")
    case InvalidEmail => e.code == "invalid_email" || Contains(e.message, "email")
    case Unrecognised => true
  }

  /** The if-chain of `handleLogin`. */
  function Classify(e: AuthError): (k: Failure)
    ensures Fits(e, k) && forall j | Rank(j) < Rank(k) :: !Fits(e, j)
  {
    if e.code == "invalid_credentials" || Contains(e.message, "Invalid login credentials") then InvalidCredentials
    else if e.code == "email_not_confirmed" || Contains(e.message, "Email not confirmed") then EmailNotConfirmed
    else if e.code == "too_many_requests" || Contains(e.message, "Too many requests") then TooManyRequests
    else if e.code == "weak_password" || Contains(e.message, "Password") then WrongPassword
    else if e.code == "invalid_email" || Contains(e.message, "email") then InvalidEmail
    else Unrecognised
  }

  function FailureText(k: Failure): string {
    match k
    case InvalidCredentials => "メールアドレスまたはパスワードが正しくありません"
    case EmailNotConfirmed => "メールアドレスの確認が完了していません。確認メールをご確認ください。"
    case TooManyRequests => "ログイン試行回数が上限に達しました。しばらく時間をおいてから再度お試しください。"
    case WrongPassword => "パスワードが正しくありません"
    case InvalidEmail => "メールアドレスの形式が正しくありません"
    case Unrecognised => "ログインに失敗しました"
  }

  /** The branches that open the credentials help. */
  predicate ShowsHelp(k: Failure) {
    k == InvalidCredentials || k == WrongPassword
  }

  /** The error notification: help-opening errors stay for 8 seconds, others for 5. */
  function ErrorNotice(k: Failure): Request {
    Request(Error, "ログインエラー", FailureText(k), Some(if ShowsHelp(k) then 8000 else 5000), false)
  }

  /** `location.state?.from?.pathname || '/'`. */
  function RedirectTarget(from: Option<string>): string {
    match from
    case Some(path) => if path != "" then path else "/"
    case None => "/"
  }

  /** What `signIn` answered. */
  datatype Response = Refused(error: AuthError) | Accepted(hasUser: bool) | Thrown

  // ===========================================================================
  // Properties

  /** The help is opened exactly for the credentials and password branches, and
      its notification is the only one kept for 8 seconds. An error fitting no
      branch shows the generic text, and each branch has its own text. */
  lemma ClassificationMeaning(e: AuthError)
    ensures ShowsHelp(Classify(e)) <==>
      Fits(e, InvalidCredentials)
      || (!Fits(e, EmailNotConfirmed) && !Fits(e, TooManyRequests) && Fits(e, WrongPassword))
    ensures ErrorNotice(Classify(e)).duration == Some(8000) <==> ShowsHelp(Classify(e))
    ensures Classify(e) == Unrecognised <==>
      forall k | k != Unrecognised :: !Fits(e, k)
    ensures forall j, k | j != k :: FailureText(j) != FailureText(k)
  {
    if Classify(e) != Unrecognised {
      assert Fits(e, Classify(e));
    }
  }

  /** A credentials error whose message also names the password is still a
      credentials error: earlier branches win. */
  lemma CredentialsBeforePassword(rest: string)
    ensures Classify(AuthError("", "Invalid login credentials" + rest)) == InvalidCredentials
  {
    ContainsPiece("", "Invalid login credentials", rest);
    assert "" + "Invalid login credentials" + rest == "Invalid login credentials" + rest;
  }

  /** An error code is overridden by an earlier branch's phrase in the message. */
  lemma MessageOfEarlierBranchWins(code: string)
    ensures Classify(AuthError(code, "Email not confirmed")) != WrongPassword
  {
    ContainsSelf("Email not confirmed");
  }

  /** An error with neither code nor message gets the generic text. */
  lemma EmptyErrorUnrecognised()
    ensures Classify(AuthError("", "")) == Unrecognised
  {
    assert !Contains("", "Invalid login credentials");
  }

  /** The redirect goes to the page the user came from whenever there is one. */
  lemma RedirectMeaning(from: Option<string>)
    ensures RedirectTarget(from) != ""
    ensures from.Some? && from.value != "" ==> RedirectTarget(from) == from.value
    ensures from == None || from == Some("") ==> RedirectTarget(from) == "/"
  {
  }

  // ===========================================================================
  // The screen

  class LoginForm {
    var loading: bool
    var showCredentialsHelp: bool

    constructor ()
      ensures !loading && !showCredentialsHelp
    {
      loading := false;
      showCredentialsHelp := false;
    }

    /** `handleLogin` with `response` as the service's answer and `from` as the page
        the user was sent from; returns the notification and the redirect, if any. */
    method HandleLogin(response: Response, from: Option<string>) returns (notice: Option<Request>, redirect: Option<string>)
      modifies this
      ensures !loading
      ensures showCredentialsHelp <==> response.Refused? && ShowsHelp(Classify(response.error))
      ensures response.Refused? ==> notice == Some(ErrorNotice(Classify(response.error))) && redirect == None
      ensures response == Accepted(true) ==>
        notice == Some(Request(Success, "ログインしました", "ようこそ！面接練習を始めましょう。", Some(3000), false))
        && redirect == Some(RedirectTarget(from))
      ensures response == Accepted(false) ==> notice == None && redirect == None
      ensures response == Thrown ==>
        notice == Some(Request(Error, "ログイン中にエラーが発生しました", "ネットワーク接続を確認してください。", Some(5000), false))
        && redirect == None
    {
      loading := true;
      showCredentialsHelp := false;
      redirect := None;
      match response {
        case Refused(e) =>
          var k := Classify(e);
          if ShowsHelp(k) {
            showCredentialsHelp := true;
          }
          notice := Some(ErrorNotice(k));
        case Accepted(hasUser) =>
          if hasUser {
            notice := Some(Request(Success, "ログインしました", "ようこそ！面接練習を始めましょう。", Some(3000), false));
            redirect := Some(RedirectTarget(from));
          } else {
            notice := None;
          }
        case Thrown =>
          notice := Some(Request(Error, "ログイン中にエラーが発生しました", "ネットワーク接続を確認してください。", Some(5000), false));
      }
      loading := false;
    }
  }
}
