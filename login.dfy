/**
 * The login/signup page (src/components/account/Login.jsx) as a state
 * machine. Each handler is one method; the awaited API call is a parameter
 * (`Awaited`), so a handler runs from its click to its last state update.
 * The effect that clears the error whenever a form object changes is a
 * separate step, `FormsChanged`, as React runs it after the render.
 */
module Login {
  import opened Js
  import opened Session
  import opened Api
  import opened Paths

  datatype Mode = LoginMode | SignupMode

  /** What the page hands to the shared account context. */
  datatype Account = Account(name: JsValue, username: JsValue)

  datatype Severity = SuccessAlert | ErrorAlert

  const EmptyLoginForm: map<string, string> := map["username" := "", "password" := ""]
  const EmptySignupForm: map<string, string> := map["name" := "", "username" := "", "password" := ""]

  const InvalidCredentialsMessage := "Invalid username or password"
  const MissingFieldsMessage := "Please fill in all fields"
  const SignupSucceededMessage := "Account created successfully! Please login."
  const SignupFailedMessage := "Something went wrong! Please try again."
  const BearerPrefix := "Bearer "

  /** `form.key`, where a missing field reads as the falsy `undefined`, like `''`. */
  function Field(form: map<string, string>, key: string): (r: string)
    ensures key in form ==> r == form[key]
    ensures key !in form ==> r == ""
  {
    if key in form then form[key] else ""
  }

  /** The signup form has a non-empty name, username and password. */
  predicate SignupComplete(signup: map<string, string>) {
    Field(signup, "name") != "" && Field(signup, "username") != "" && Field(signup, "password") != ""
  }

  /** The alert's severity: `success` exactly when the message includes `successfully`. */
  function AlertSeverity(message: string): (r: Severity)
    ensures r == SuccessAlert <==> Contains(message, "successfully")
  {
    if Contains(message, "successfully") then SuccessAlert else ErrorAlert
  }

  /** The alert the page shows for its `error` state: none for a falsy value. */
  function AlertFor(error: JsValue): (r: Option<Severity>)
    ensures r.None? <==> !Truthy(error)
    ensures error.Str? && Truthy(error) ==> r == Some(AlertSeverity(error.s))
  {
    if !Truthy(error) then None
    else if error.Str? then Some(AlertSeverity(error.s))
    else Some(ErrorAlert)
  }

  /** The signup confirmation is shown as a success. */
  lemma SignupConfirmationIsSuccess()
    ensures AlertSeverity(SignupSucceededMessage) == SuccessAlert
  {
    var before, after := "Account created ", "! Please login.";
    assert SignupSucceededMessage == before + "successfully" + after;
    assert (before + "successfully" + after)[|before|..|before| + 12] == "successfully";
    assert OccursAt(SignupSucceededMessage, "successfully", |before|);
    ContainsAt(SignupSucceededMessage, "successfully");
  }

  /** The missing-fields message is shown as an error. */
  lemma MissingFieldsIsError()
    ensures AlertSeverity(MissingFieldsMessage) == ErrorAlert
  {
    MissingCharacterExcludes(MissingFieldsMessage, "successfully", 'y');
  }

  /** The generic signup failure is shown as an error. */
  lemma SignupFailedIsError()
    ensures AlertSeverity(SignupFailedMessage) == ErrorAlert
  {
    MissingCharacterExcludes(SignupFailedMessage, "successfully", 'f');
  }

  /** The failed-login message is shown as an error. */
  lemma InvalidCredentialsIsError()
    ensures AlertSeverity(InvalidCredentialsMessage) == ErrorAlert
  {
    MissingCharacterExcludes(InvalidCredentialsMessage, "successfully", 'c');
  }

  /** A login response the page can read: a success whose body is not `undefined`/`null`. */
  predicate LoginAccepted(call: Awaited) {
    call.Returned? && call.result.Success? && !Nullish(call.result.data)
  }

  /** `loginUser` lands in its `catch`: the call threw, or reading the tokens of a missing body threw. */
  predicate LoginThrows(call: Awaited) {
    call.Threw? || (call.Returned? && call.result.Success? && Nullish(call.result.data))
  }

  /** The two session entries a successful login writes: both tokens with the `Bearer ` prefix. */
  function TokensWritten(items: map<string, string>, data: JsValue): (r: map<string, string>)
    ensures r.Keys == items.Keys + {AccessTokenKey, RefreshTokenKey}
    ensures forall k :: k in items && k != AccessTokenKey && k != RefreshTokenKey ==> r[k] == items[k]
    ensures |r[AccessTokenKey]| >= |BearerPrefix| && r[AccessTokenKey][..|BearerPrefix|] == BearerPrefix
    ensures |r[RefreshTokenKey]| >= |BearerPrefix| && r[RefreshTokenKey][..|BearerPrefix|] == BearerPrefix
    ensures Prop(data, "accessToken").Str? ==> r[AccessTokenKey] == BearerPrefix + Prop(data, "accessToken").s
    ensures Prop(data, "accessToken").Null? ==> r[AccessTokenKey] == "Bearer null"
    ensures Prop(data, "accessToken").Undefined? ==> r[AccessTokenKey] == "Bearer undefined"
    ensures Prop(data, "refreshToken").Str? ==> r[RefreshTokenKey] == BearerPrefix + Prop(data, "refreshToken").s
    ensures Prop(data, "refreshToken").Null? ==> r[RefreshTokenKey] == "Bearer null"
    ensures Prop(data, "refreshToken").Undefined? ==> r[RefreshTokenKey] == "Bearer undefined"
  {
    items[AccessTokenKey := BearerPrefix + ToText(Prop(data, "accessToken"))]
         [RefreshTokenKey := BearerPrefix + ToText(Prop(data, "refreshToken"))]
  }

  class LoginPage {
    var mode: Mode
    var login: map<string, string>
    var signup: map<string, string>
    var error: JsValue
    var showPassword: bool
    /** The shared account context, as far as this page sets it. */
    var account: Option<Account>
    /** The application's `isAuthenticated`, which this page sets through `isUserAuthenticated`. */
    var authenticated: bool
    /** The last path passed to `navigate`. */
    var navigatedTo: Option<string>
    const store: SessionStore

    /** The first render: login mode, both forms empty, no error. */
    constructor (store: SessionStore)
      ensures mode == LoginMode && login == EmptyLoginForm && signup == EmptySignupForm
      ensures error == Str("") && !showPassword
      ensures account == None && !authenticated && navigatedTo == None
      ensures this.store == store
    {
      mode := LoginMode;
      login, signup := EmptyLoginForm, EmptySignupForm;
      error := Str("");
      showPassword := false;
      account, authenticated, navigatedTo := None, false, None;
      this.store := store;
    }

    /** `handleChange`: sets the named field of the form shown in the current mode, and nothing else. */
    method HandleChange(name: string, value: string)
      modifies this
      ensures old(mode) == LoginMode ==> login == old(login)[name := value] && signup == old(signup)
      ensures old(mode) == SignupMode ==> signup == old(signup)[name := value] && login == old(login)
      ensures mode == old(mode) && error == old(error) && showPassword == old(showPassword)
      ensures account == old(account) && authenticated == old(authenticated) && navigatedTo == old(navigatedTo)
    {
      if mode == LoginMode {
        login := login[name := value];
      } else {
        signup := signup[name := value];
      }
    }

    /** The effect that runs after `login` or `signup` changes: it clears the error. */
    method FormsChanged()
      modifies this
      ensures error == Str("")
      ensures mode == old(mode) && login == old(login) && signup == old(signup) && showPassword == old(showPassword)
      ensures account == old(account) && authenticated == old(authenticated) && navigatedTo == old(navigatedTo)
    {
      error := Str("");
    }

    /** `handleClickShowPassword` flips password visibility. */
    method ClickShowPassword()
      modifies this
      ensures showPassword == !old(showPassword)
      ensures mode == old(mode) && login == old(login) && signup == old(signup) && error == old(error)
      ensures account == old(account) && authenticated == old(authenticated) && navigatedTo == old(navigatedTo)
    {
      showPassword := !showPassword;
    }

    /**
     * `loginUser` once `API.userLogin(login)` has produced `call`. A readable
     * success stores both tokens, sets the account, authenticates and goes
     * home; a throw sets the credentials message; anything else changes nothing.
     */
    method LoginUser(call: Awaited)
      modifies this, store
      ensures LoginAccepted(call) ==>
                && store.items == TokensWritten(old(store.items), call.result.data)
                && account == Some(Account(Prop(call.result.data, "name"), Prop(call.result.data, "username")))
                && authenticated && navigatedTo == Some(HomePath) && error == old(error)
      ensures LoginThrows(call) ==>
                && error == Str(InvalidCredentialsMessage) && store.items == old(store.items)
                && account == old(account) && authenticated == old(authenticated) && navigatedTo == old(navigatedTo)
      ensures !LoginAccepted(call) && !LoginThrows(call) ==>
                && error == old(error) && store.items == old(store.items)
                && account == old(account) && authenticated == old(authenticated) && navigatedTo == old(navigatedTo)
      ensures mode == old(mode) && login == old(login) && signup == old(signup) && showPassword == old(showPassword)
    {
      match call
      case Threw(_) =>
        error := Str(InvalidCredentialsMessage);
      case Returned(result) =>
        if result.Success? {
          var data := result.data;
          if Nullish(data) {
            error := Str(InvalidCredentialsMessage);
          } else {
            store.SetItem(AccessTokenKey, BearerPrefix + ToText(Prop(data, "accessToken")));
            store.SetItem(RefreshTokenKey, BearerPrefix + ToText(Prop(data, "refreshToken")));
            account := Some(Account(Prop(data, "name"), Prop(data, "username")));
            authenticated := true;
            navigatedTo := Some(HomePath);
          }
        }
    }

    /**
     * `signupUser`. With a field missing it sets the fill-in message and makes
     * no call (`called` is false); otherwise `call` is what `API.userSignup(signup)` produced.
     * A thrown `undefined`/`null` makes the `catch` block itself throw on
     * `error.msg`, so the error is then left as it was.
     */
    method SignupUser(call: Awaited) returns (called: bool)
      modifies this
      ensures called <==> SignupComplete(old(signup))
      ensures !called ==> error == Str(MissingFieldsMessage) && signup == old(signup) && mode == old(mode)
      ensures called && call.Returned? && call.result.Success? ==>
                signup == EmptySignupForm && mode == LoginMode && error == Str(SignupSucceededMessage)
      ensures called && call.Returned? && call.result.Error? ==>
                error == call.result.msg && signup == old(signup) && mode == old(mode)
      ensures called && call.Returned? && call.result.Failure? ==>
                error == Str(SignupFailedMessage) && signup == old(signup) && mode == old(mode)
      ensures called && call.Threw? && !Nullish(call.reason) ==>
                error == Or(Prop(call.reason, "msg"), Str(SignupFailedMessage)) && signup == old(signup) && mode == old(mode)
      ensures called && call.Threw? && Nullish(call.reason) ==>
                error == old(error) && signup == old(signup) && mode == old(mode)
      ensures login == old(login) && showPassword == old(showPassword)
      ensures account == old(account) && authenticated == old(authenticated) && navigatedTo == old(navigatedTo)
    {
      if !SignupComplete(signup) {
        error := Str(MissingFieldsMessage);
        return false;
      }
      called := true;
      match call
      case Returned(result) =>
        if result.Success? {
          error := Str("");
          signup := EmptySignupForm;
          mode := LoginMode;
          error := Str(SignupSucceededMessage);
        } else if result.Error? {
          error := result.msg;
        } else {
          error := Str(SignupFailedMessage);
        }
      case Threw(reason) =>
        if !Nullish(reason) {
          error := Or(Prop(reason, "msg"), Str(SignupFailedMessage));
        }
    }

    /** `toggleSignup`: switches mode, clears the error and empties only the form being left. */
    method ToggleSignup()
      modifies this
      ensures mode == if old(mode) == SignupMode then LoginMode else SignupMode
      ensures error == Str("")
      ensures old(mode) == SignupMode ==> signup == EmptySignupForm && login == old(login)
      ensures old(mode) == LoginMode ==> login == EmptyLoginForm && signup == old(signup)
      ensures showPassword == old(showPassword)
      ensures account == old(account) && authenticated == old(authenticated) && navigatedTo == old(navigatedTo)
    {
      var leaving := mode;
      mode := if leaving == SignupMode then LoginMode else SignupMode;
      error := Str("");
      if leaving == SignupMode {
        signup := EmptySignupForm;
      } else {
        login := EmptyLoginForm;
      }
    }
  }
}
