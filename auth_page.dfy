/**
 * The login/sign-up page: its form validator, the submit handler that stops early on an invalid
 * form, and the switches between the login and sign-up modes. The component's state hooks and
 * the value `useAuth()` hands it are the fields of a class; toasts, auth calls and navigations
 * are recorded in order.
 */
module AuthPage {
  import opened Common
  import opened Strings

  const MinPasswordLength: nat := 6

  /** The verdict of `validateForm`: which check failed first, if any. */
  datatype FormCheck = Valid | InvalidEmail | InvalidPassword

  /** `validateForm()` without its toast: the email is checked before the password. */
  function ValidateForm(email: string, password: string): (r: FormCheck)
    ensures r == InvalidEmail <==> email == "" || !Includes(email, "@")
    ensures r == InvalidPassword <==> email != "" && Includes(email, "@") && |password| < MinPasswordLength
    ensures r == Valid <==> Includes(email, "@") && |password| >= MinPasswordLength
  {
    if email == "" || !Includes(email, "@") then InvalidEmail
    else if password == "" || |password| < MinPasswordLength then InvalidPassword
    else Valid
  }

  /** When both fields are wrong only the email is reported, whatever the password. */
  lemma EmailCheckedFirst(email: string, password: string, other: string)
    requires ValidateForm(email, password) == InvalidEmail
    ensures ValidateForm(email, other) == InvalidEmail
  {
  }

  /** A valid email needs at least one character, the '@'. */
  lemma ValidEmailIsNonEmpty(email: string, password: string)
    requires ValidateForm(email, password) == Valid
    ensures |email| >= 1 && |password| >= 6
  {
    IncludesLength(email, "@");
  }

  datatype Toast = Toast(title: string, description: string, destructive: bool)

  /** The toast `validateForm` shows for a failed check. */
  function ValidationToast(c: FormCheck): (t: Toast)
    requires c != Valid
    ensures t.destructive
  {
    if c == InvalidEmail then Toast("❌ Invalid email", "Please enter a valid email address", true)
    else Toast("❌ Invalid password", "Password must be at least 6 characters long", true)
  }

  /** The `login` or `signup` call a submit makes. */
  datatype AuthCall = Login(email: string, password: string) | Signup(email: string, password: string)

  /** How the awaited call settles: it resolves, or it throws with a message. */
  datatype CallResult = Resolved | Threw(message: string)

  /**
   * What the page reads from `useAuth()` besides `login` and `signup`: `signupMessage`, `None`
   * when it is undefined or empty, and whether `clearSignupMessage` is a function at all.
   */
  datatype AuthContext = AuthContext(signupMessage: Option<string>, clearsSignupMessage: bool)

  /** The value `AuthProvider` supplies: it has neither field, so both are undefined. */
  const ProviderContext := AuthContext(None, false)

  class AuthForm {
    var context: AuthContext
    var isLogin: bool
    var email: string
    var password: string
    var loading: bool
    var toasts: seq<Toast>
    var calls: seq<AuthCall>
    var navigations: seq<string>

    /** The initial state of the hooks, under the given auth context. */
    constructor(context: AuthContext)
      ensures this.context == context
      ensures isLogin && email == "" && password == "" && !loading
      ensures toasts == [] && calls == [] && navigations == []
    {
      this.context := context;
      isLogin, email, password, loading := true, "", "", false;
      toasts, calls, navigations := [], [], [];
    }

    /**
     * `handleSubmit`: an invalid form adds its toast and nothing else; a valid one makes the
     * call, reports its outcome, and ends with `loading` false.
     */
    method HandleSubmit(result: CallResult)
      modifies this
      ensures var c := ValidateForm(old(email), old(password));
        c != Valid ==>
          && toasts == old(toasts) + [ValidationToast(c)]
          && calls == old(calls) && loading == old(loading)
          && email == old(email) && password == old(password) && navigations == old(navigations)
      ensures ValidateForm(old(email), old(password)) == Valid ==>
          && calls == old(calls) + [if old(isLogin) then Login(old(email), old(password)) else Signup(old(email), old(password))]
          && !loading
          && (result.Threw? ==>
                toasts == old(toasts) + [Toast("❌ Error", result.message, true)]
                && email == old(email) && password == old(password) && navigations == old(navigations))
          && (result.Resolved? && old(isLogin) ==>
                toasts == old(toasts) + [Toast("✅ Login successful!", "Redirecting to dashboard...", false)]
                && navigations == old(navigations) + ["/"] && email == old(email) && password == old(password))
          && (result.Resolved? && !old(isLogin) ==>
                toasts == old(toasts) + [Toast("✅ Account created!", "Check your email for confirmation link", false)]
                && navigations == old(navigations) && email == "" && password == "")
      ensures isLogin == old(isLogin) && context == old(context)
    {
      var c := ValidateForm(email, password);
      if c != Valid {
        toasts := toasts + [ValidationToast(c)];
        return;
      }
      loading := true;
      if isLogin {
        calls := calls + [Login(email, password)];
        if result.Resolved? {
          toasts := toasts + [Toast("✅ Login successful!", "Redirecting to dashboard...", false)];
          navigations := navigations + ["/"];
        } else {
          toasts := toasts + [Toast("❌ Error", result.message, true)];
        }
      } else {
        calls := calls + [Signup(email, password)];
        if result.Resolved? {
          toasts := toasts + [Toast("✅ Account created!", "Check your email for confirmation link", false)];
          email := "";
          password := "";
        } else {
          toasts := toasts + [Toast("❌ Error", result.message, true)];
        }
      }
      loading := false;
    }

    /**
     * `handleToggleAuth`: `clearSignupMessage()` runs first, so without it the call throws a
     * TypeError before any setter and nothing changes; otherwise the other mode, with empty
     * fields and the message cleared.
     */
    method HandleToggleAuth() returns (threw: bool)
      modifies this
      ensures threw <==> !old(context).clearsSignupMessage
      ensures threw ==> unchanged(this)
      ensures !threw ==>
        && isLogin == !old(isLogin) && email == "" && password == ""
        && context == old(context).(signupMessage := None)
        && loading == old(loading) && toasts == old(toasts) && calls == old(calls) && navigations == old(navigations)
    {
      if !context.clearsSignupMessage {
        return true;
      }
      threw := false;
      context := context.(signupMessage := None);
      isLogin := !isLogin;
      email := "";
      password := "";
    }

    /**
     * The "Go to Login" button, rendered only while there is a sign-up message: like the toggle
     * it clears the message first, then sets login mode with empty fields.
     */
    method GoToLogin() returns (threw: bool)
      requires context.signupMessage.Some?
      modifies this
      ensures threw <==> !old(context).clearsSignupMessage
      ensures threw ==> unchanged(this)
      ensures !threw ==>
        && isLogin && email == "" && password == ""
        && context == old(context).(signupMessage := None)
        && loading == old(loading) && toasts == old(toasts) && calls == old(calls) && navigations == old(navigations)
    {
      if !context.clearsSignupMessage {
        return true;
      }
      threw := false;
      context := context.(signupMessage := None);
      isLogin := true;
      email := "";
      password := "";
    }
  }

  /**
   * The page under `AuthProvider`, the one provider there is: no sign-up message is ever shown,
   * so "Go to Login" is never rendered, and the toggle throws and leaves the page in login mode.
   */
  method ToggleUnderAuthProvider() returns (messageShown: bool, threw: bool, loginMode: bool)
    ensures !messageShown && threw && loginMode
  {
    var form := new AuthForm(ProviderContext);
    messageShown := form.context.signupMessage.Some?;
    threw := form.HandleToggleAuth();
    loginMode := form.isLogin;
  }

  /**
   * The page under a provider that keeps a sign-up message and supplies `clearSignupMessage`:
   * "Go to Login" hides the message, and the toggle then switches to sign-up mode.
   */
  method ToggleUnderIntendedProvider(message: string) returns (threw: bool, loginMode: bool, messageShown: bool)
    ensures !threw && !loginMode && !messageShown
  {
    var form := new AuthForm(AuthContext(Some(message), true));
    var goThrew := form.GoToLogin();
    assert !goThrew && form.isLogin;
    threw := form.HandleToggleAuth();
    loginMode := form.isLogin;
    messageShown := form.context.signupMessage.Some?;
  }
}
