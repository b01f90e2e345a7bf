/** The sign-in / sign-up page: the password checks done before signing up, the form state
    and its tab switch, the button-enable rules and the error taken from the redirect URL. */
module LoginPage {
  import opened Common

  const MinPasswordLength: nat := 6

  const PasswordMismatchError: string := "パスワードが一致しません。"
  const PasswordTooShortError: string := "パスワードは6文字以上で入力してください。"
  const SignUpFailedError: string := "新規登録に失敗しました。もう一度お試しください。"
  const SignInFailedError: string := "ログインに失敗しました。メールアドレスとパスワードを確認してください。"
  const DefaultAuthError: string := "認証エラーが発生しました。"

  /** The index of the sign-in tab and of the sign-up tab. */
  const SignInTab: int := 0
  const SignUpTab: int := 1

  /** The email and password handed to the authentication service. */
  datatype Credentials = Credentials(email: string, password: string)

  /** What a `TabPanel` renders: whether its `div` is hidden and the content shown in it. */
  datatype Panel<T> = Panel(hidden: bool, content: Option<T>)

  /** `TabPanel`: the panel for `index` while tab `value` is selected. */
  function TabPanel<T>(value: int, index: int, children: T): (p: Panel<T>)
    ensures p.content.Some? <==> value == index
    ensures p.hidden <==> p.content.None?
    ensures p.content.Some? ==> p.content.value == children
  {
    if value == index then Panel(false, Some(children)) else Panel(true, None)
  }

  /** Exactly one of the two tabs shows its content. */
  lemma OnePanelShown<T>(value: int, signIn: T, signUp: T)
    requires value == SignInTab || value == SignUpTab
    ensures TabPanel(value, SignInTab, signIn).content.Some?
            != TabPanel(value, SignUpTab, signUp).content.Some?
  {
  }

  /** The validation `handleSignUp` does before calling the service: the confirmation first,
      then the length. */
  function SignUpError(password: string, confirm: string): (e: Option<string>)
    ensures e.None? <==> password == confirm && |password| >= MinPasswordLength
    ensures password != confirm ==> e == Some(PasswordMismatchError)
    ensures password == confirm && |password| < MinPasswordLength ==> e == Some(PasswordTooShortError)
  {
    if password != confirm then Some(PasswordMismatchError)
    else if |password| < MinPasswordLength then Some(PasswordTooShortError)
    else None
  }

  /** A password of exactly six characters passes; one of five is refused. */
  lemma SixCharactersSuffice(password: string)
    ensures |password| == MinPasswordLength ==> SignUpError(password, password) == None
    ensures |password| == MinPasswordLength - 1 ==> SignUpError(password, password) == Some(PasswordTooShortError)
  {
  }

  /** The error shown on arrival from an authentication redirect: the `error_description`
      parameter, or a default message, whenever the `error` parameter is set. */
  function UrlError(errorParam: Option<string>, description: Option<string>): (e: Option<string>)
    ensures e.Some? <==> Truthy(errorParam)
    ensures e.Some? ==> e.value != ""
    ensures e.Some? && Truthy(description) ==> e.value == description.value
  {
    if Truthy(errorParam) then Some(OrElse(description, DefaultAuthError)) else None
  }

  /** The state of the login page. `subscribed` says whether it listens to auth events. */
  class LoginForm {
    var email: string
    var password: string
    var confirmPassword: string
    var authLoading: bool
    var error: Option<string>
    var tabValue: int
    var subscribed: bool

    constructor()
      ensures email == "" && password == "" && confirmPassword == ""
      ensures !authLoading && error == None && tabValue == SignInTab && !subscribed
    {
      email := "";
      password := "";
      confirmPassword := "";
      authLoading := false;
      error := None;
      tabValue := SignInTab;
      subscribed := false;
    }

    /** The sign-in button is disabled while a request runs. */
    predicate SignInDisabled()
      reads this
    {
      authLoading
    }

    /** The sign-up button is disabled while a field is empty or a request runs. */
    predicate SignUpDisabled()
      reads this
    {
      email == "" || password == "" || confirmPassword == "" || authLoading
    }

    /** The mount effect: an error in the redirect URL is shown and nothing is subscribed;
        otherwise the page subscribes to auth events. */
    method Mount(errorParam: Option<string>, description: Option<string>)
      modifies this
      ensures Truthy(errorParam) ==> error == UrlError(errorParam, description) && !subscribed
      ensures !Truthy(errorParam) ==> error == old(error) && subscribed
      ensures email == old(email) && password == old(password) && confirmPassword == old(confirmPassword)
      ensures authLoading == old(authLoading) && tabValue == old(tabValue)
    {
      if Truthy(errorParam) {
        error := Some(OrElse(description, DefaultAuthError));
        subscribed := false;
        return;
      }
      subscribed := true;
    }

    /** An auth event: a session with a user clears the error. */
    method OnAuthStateChange(sessionHasUser: bool)
      requires subscribed
      modifies this
      ensures error == if sessionHasUser then None else old(error)
      ensures email == old(email) && password == old(password) && confirmPassword == old(confirmPassword)
      ensures authLoading == old(authLoading) && tabValue == old(tabValue) && subscribed
    {
      if sessionHasUser {
        error := None;
      }
    }

    /** `handleTabChange`: select the tab and clear the error and every field. */
    method HandleTabChange(newValue: int)
      modifies this
      ensures tabValue == newValue && error == None
      ensures email == "" && password == "" && confirmPassword == ""
      ensures authLoading == old(authLoading) && subscribed == old(subscribed)
      ensures !authLoading ==> SignUpDisabled() && !SignInDisabled()
    {
      tabValue := newValue;
      error := None;
      email := "";
      password := "";
      confirmPassword := "";
    }

    /** `handleSignUp`. `outcome` is the service's answer; `request` is what was handed to
        it, none when a check failed first. */
    method HandleSignUp(outcome: Result<(), string>) returns (request: Option<Credentials>)
      modifies this
      ensures SignUpError(password, confirmPassword).Some? ==>
                request == None && error == SignUpError(password, confirmPassword)
                && authLoading == old(authLoading)
      ensures SignUpError(password, confirmPassword).None? ==>
                request == Some(Credentials(email, password)) && !authLoading
                && error == if outcome.Ok? then None else Some(SignUpFailedError)
      ensures email == old(email) && password == old(password) && confirmPassword == old(confirmPassword)
      ensures tabValue == old(tabValue) && subscribed == old(subscribed)
    {
      if password != confirmPassword {
        error := Some(PasswordMismatchError);
        return None;
      }
      if |password| < MinPasswordLength {
        error := Some(PasswordTooShortError);
        return None;
      }
      error := None;
      authLoading := true;
      request := Some(Credentials(email, password));
      if outcome.Err? {
        error := Some(SignUpFailedError);
      }
      authLoading := false;
    }

    /** `handleSignIn`: the credentials always go to the service. */
    method HandleSignIn(outcome: Result<(), string>) returns (request: Credentials)
      modifies this
      ensures request == Credentials(email, password) && !authLoading
      ensures error == if outcome.Ok? then None else Some(SignInFailedError)
      ensures email == old(email) && password == old(password) && confirmPassword == old(confirmPassword)
      ensures tabValue == old(tabValue) && subscribed == old(subscribed)
    {
      error := None;
      authLoading := true;
      request := Credentials(email, password);
      if outcome.Err? {
        error := Some(SignInFailedError);
      }
      authLoading := false;
    }

    /** The field setters. */
    method SetEmail(value: string)
      modifies this
      ensures email == value && password == old(password) && confirmPassword == old(confirmPassword)
      ensures authLoading == old(authLoading) && error == old(error)
      ensures tabValue == old(tabValue) && subscribed == old(subscribed)
    {
      email := value;
    }

    method SetPassword(value: string)
      modifies this
      ensures password == value && email == old(email) && confirmPassword == old(confirmPassword)
      ensures authLoading == old(authLoading) && error == old(error)
      ensures tabValue == old(tabValue) && subscribed == old(subscribed)
    {
      password := value;
    }

    method SetConfirmPassword(value: string)
      modifies this
      ensures confirmPassword == value && email == old(email) && password == old(password)
      ensures authLoading == old(authLoading) && error == old(error)
      ensures tabValue == old(tabValue) && subscribed == old(subscribed)
    {
      confirmPassword := value;
    }
  }

  /** A sign-up that reaches the service was enabled before the request: all three fields
      were filled in. */
  lemma SignUpRequestHadFields(password: string, confirm: string)
    requires SignUpError(password, confirm).None?
    ensures password != "" && confirm != ""
  {
  }
}
