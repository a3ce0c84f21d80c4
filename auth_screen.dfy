/** The sign-in / sign-up screen: its form fields, the validation run before
    submitting, the submit itself against the auth store of `AuthProvider`,
    the classification of the error that store rejects with, and the switch
    between the two modes. */
module AuthScreen {
  import opened Base
  import opened Text
  import opened Backend
  import opened Accounts
  import AuthContext

  /** The keys of the per-field error map. */
  datatype Field = EmailField | PasswordField | UsernameField | ConfirmField

  // ---------------------------------------------------------------------
  // The e-mail shape `/\S+@\S+\.\S+/`, searched anywhere in the text.

  ghost predicate NoSpace(s: string) {
    forall i :: 0 <= i < |s| ==> !IsSpace(s[i])
  }

  /** The pattern matches with its `@` at `at` and its `.` at `dot`: one
      non-space character before the `@` suffices, as does one after the `.`,
      and everything from the `@` up to that last character is non-space. */
  ghost predicate MatchAt(s: string, at: int, dot: int) {
    0 < at && at + 1 < dot && dot + 1 < |s| && s[at] == '@' && s[dot] == '.'
    && !IsSpace(s[at - 1]) && NoSpace(s[at + 1..dot + 2])
  }

  /** `/\S+@\S+\.\S+/.test(s)` */
  ghost predicate EmailPattern(s: string) {
    exists at, dot :: MatchAt(s, at, dot)
  }

  /** `u` starts with `\S*\.\S`. */
  predicate DotRun(u: string)
    decreases |u|
  {
    |u| >= 2 && !IsSpace(u[0]) && ((u[0] == '.' && !IsSpace(u[1])) || DotRun(u[1..]))
  }

  /** `t` starts with `\S+\.\S`: what must follow the `@`. */
  predicate AfterAt(t: string) {
    |t| >= 1 && !IsSpace(t[0]) && DotRun(t[1..])
  }

  /** The search itself: some position holds a non-space character followed
      by an `@` and by text that starts with `\S+\.\S`. */
  predicate LooksLikeEmail(s: string)
    decreases |s|
  {
    |s| >= 2 && ((!IsSpace(s[0]) && s[1] == '@' && AfterAt(s[2..])) || LooksLikeEmail(s[1..]))
  }

  ghost predicate DotAt(u: string, dot: int) {
    0 <= dot && dot + 1 < |u| && u[dot] == '.' && NoSpace(u[..dot + 2])
  }

  lemma {:induction false} DotRunIff(u: string)
    ensures DotRun(u) <==> exists dot :: DotAt(u, dot)
    decreases |u|
  {
    if |u| >= 2 {
      DotRunIff(u[1..]);
      if DotRun(u) {
        if u[0] == '.' && !IsSpace(u[1]) {
          assert DotAt(u, 0);
        } else {
          var dot :| DotAt(u[1..], dot);
          assert u[..dot + 3] == [u[0]] + u[1..][..dot + 2];
          assert DotAt(u, dot + 1);
        }
      }
      if exists dot :: DotAt(u, dot) {
        var dot :| DotAt(u, dot);
        assert u[..dot + 2][0] == u[0];
        if dot > 0 {
          assert u[1..][..dot + 1] == u[..dot + 2][1..];
          assert DotAt(u[1..], dot - 1);
        } else {
          assert u[..dot + 2][1] == u[1];
        }
      }
    } else {
      assert forall dot :: !DotAt(u, dot);
    }
  }

  lemma AfterAtIff(t: string)
    ensures AfterAt(t) <==> exists dot :: 1 <= dot && DotAt(t, dot)
  {
    if |t| >= 1 {
      DotRunIff(t[1..]);
      if AfterAt(t) {
        var dot :| DotAt(t[1..], dot);
        assert t[..dot + 3] == [t[0]] + t[1..][..dot + 2];
        assert DotAt(t, dot + 1);
      }
      if exists dot :: 1 <= dot && DotAt(t, dot) {
        var dot :| 1 <= dot && DotAt(t, dot);
        assert t[..dot + 2][0] == t[0];
        assert t[1..][..dot + 1] == t[..dot + 2][1..];
        assert DotAt(t[1..], dot - 1);
      }
    }
  }

  /** A match whose `@` is at position 1, read off the first characters. */
  lemma MatchAtOne(s: string)
    requires |s| >= 2
    ensures (!IsSpace(s[0]) && s[1] == '@' && AfterAt(s[2..])) <==> exists dot :: MatchAt(s, 1, dot)
  {
    AfterAtIff(s[2..]);
    if !IsSpace(s[0]) && s[1] == '@' && AfterAt(s[2..]) {
      var d :| 1 <= d && DotAt(s[2..], d);
      assert s[2..d + 4] == s[2..][..d + 2];
      assert MatchAt(s, 1, d + 2);
    }
    if exists dot :: MatchAt(s, 1, dot) {
      var dot :| MatchAt(s, 1, dot);
      assert s[2..][..dot] == s[2..dot + 2];
      assert DotAt(s[2..], dot - 2);
    }
  }

  /** Dropping the first character moves every match one place left, except
      one whose `@` is at position 1. */
  lemma MatchShift(s: string)
    requires |s| >= 1
    ensures (exists at, dot :: MatchAt(s[1..], at, dot)) <==> exists at, dot :: 1 < at && MatchAt(s, at, dot)
  {
    if exists at, dot :: MatchAt(s[1..], at, dot) {
      var at, dot :| MatchAt(s[1..], at, dot);
      assert s[1..][at + 1..dot + 2] == s[at + 2..dot + 3];
      assert MatchAt(s, at + 1, dot + 1);
    }
    if exists at, dot :: 1 < at && MatchAt(s, at, dot) {
      var at, dot :| 1 < at && MatchAt(s, at, dot);
      assert s[1..][at..dot + 1] == s[at + 1..dot + 2];
      assert MatchAt(s[1..], at - 1, dot - 1);
    }
  }

  /** The search agrees with the regular expression on every text. */
  lemma {:induction false} LooksLikeEmailIff(s: string)
    ensures LooksLikeEmail(s) <==> EmailPattern(s)
    decreases |s|
  {
    if |s| >= 2 {
      LooksLikeEmailIff(s[1..]);
      MatchAtOne(s);
      MatchShift(s);
      assert forall at, dot :: MatchAt(s, at, dot) ==> at == 1 || 1 < at;
    } else {
      assert forall at, dot :: !MatchAt(s, at, dot);
    }
  }

  /** A text the pattern accepts is never blank. */
  lemma PatternNotBlank(s: string)
    requires EmailPattern(s)
    ensures !IsBlank(s)
  {
    var at, dot :| MatchAt(s, at, dot);
    BlankIffAllSpace(s);
    assert !IsSpace(s[at - 1]);
  }

  // ---------------------------------------------------------------------
  // validateForm

  const EmailRequired := "Email is required"
  const EmailInvalid := "Invalid email format"
  const PasswordRequired := "Password is required"
  const PasswordTooShort := "Password must be at least 6 characters"
  const UsernameRequired := "Username is required"
  const UsernameTooShort := "Username must be at least 3 characters"
  const PasswordsDiffer := "Passwords do not match"

  function EmailError(email: string): Option<string> {
    if IsBlank(email) then Some(EmailRequired)
    else if !LooksLikeEmail(email) then Some(EmailInvalid)
    else None
  }

  function PasswordError(password: string): Option<string> {
    if IsBlank(password) then Some(PasswordRequired)
    else if Utf16Length(password) < 6 then Some(PasswordTooShort)
    else None
  }

  function UsernameError(username: string): Option<string> {
    if IsBlank(username) then Some(UsernameRequired)
    else if Utf16Length(username) < 3 then Some(UsernameTooShort)
    else None
  }

  function ConfirmError(password: string, confirm: string): Option<string> {
    if password != confirm then Some(PasswordsDiffer) else None
  }

  function With(errors: map<Field, string>, f: Field, e: Option<string>): map<Field, string> {
    if e.Some? then errors[f := e.value] else errors
  }

  /** One `if (error) newErrors.field = error` step of `validateForm`: the
      in-place form of `With`, which the specification `Collect` uses. */
  method RecordError(m: map<Field, string>, f: Field, e: Option<string>) returns (r: map<Field, string>)
    ensures r == With(m, f, e)
  {
    r := m;
    if e.Some? {
      r := r[f := e.value];
    }
  }

  /** The error map `validateForm` builds from the four field checks; the
      username and the confirmation count only in sign-up mode. */
  function Collect(isLogin: bool, emailError: Option<string>, passwordError: Option<string>,
                   usernameError: Option<string>, confirmError: Option<string>): map<Field, string> {
    var base := With(With(map[], EmailField, emailError), PasswordField, passwordError);
    if isLogin then base
    else With(With(base, UsernameField, usernameError), ConfirmField, confirmError)
  }

  function FormErrors(isLogin: bool, username: string, email: string, password: string, confirm: string): map<Field, string> {
    Collect(isLogin, EmailError(email), PasswordError(password), UsernameError(username), ConfirmError(password, confirm))
  }

  /** The form is valid exactly when the e-mail matches the pattern, the
      password has a non-blank text of six characters or more and, when
      signing up, the username has a non-blank text of three or more and the
      confirmation equals the password. */
  lemma FormValidIff(isLogin: bool, username: string, email: string, password: string, confirm: string)
    ensures FormErrors(isLogin, username, email, password, confirm) == map[]
       <==> && EmailPattern(email)
            && !IsBlank(password) && Utf16Length(password) >= 6
            && (!isLogin ==> !IsBlank(username) && Utf16Length(username) >= 3 && password == confirm)
  {
    LooksLikeEmailIff(email);
    if EmailPattern(email) { PatternNotBlank(email); }
    var errs := FormErrors(isLogin, username, email, password, confirm);
    assert EmailError(email).Some? ==> EmailField in errs;
    assert PasswordError(password).Some? ==> PasswordField in errs;
    assert !isLogin && UsernameError(username).Some? ==> UsernameField in errs;
    assert !isLogin && ConfirmError(password, confirm).Some? ==> ConfirmField in errs;
  }

  /** Lengths are counted in UTF-16 code units: a password made only of
      characters outside the Basic Multilingual Plane is long enough from
      three characters on, not six. */
  lemma AstralPasswordLength(p: string)
    requires p != [] && forall i :: 0 <= i < |p| ==> p[i] > '\U{FFFF}'
    ensures PasswordError(p) == None <==> |p| >= 3
  {
    Utf16LengthAstral(p);
    BlankIffAllSpace(p);
    assert !IsSpace(p[0]);
  }

  /** In sign-in mode only the e-mail and the password can be in error. */
  lemma LoginChecksTwoFields(username: string, email: string, password: string, confirm: string)
    ensures FormErrors(true, username, email, password, confirm).Keys <= {EmailField, PasswordField}
  {
  }

  // ---------------------------------------------------------------------
  // The error shown after a rejected submit.

  datatype Feedback = Feedback(text: string, switchToLogin: bool)

  const ScreenAccountExists := "An account with this email already exists. Please sign in instead."
  const ScreenBadCredentials := "Invalid email or password. Please check your credentials or create a new account if you don't have one yet."
  const ScreenCannotCreate := "Unable to create account. Please try again or contact support."
  const ScreenConfirmEmail := "Please check your email and click the confirmation link before signing in."
  const ScreenTooMany := "Too many attempts. Please wait a moment before trying again."
  const ScreenDisabled := "Account creation is currently disabled. Please contact support."
  const ScreenFailed := "Authentication failed. Please check your internet connection and try again."

  /** What the screen shows for an error message, and whether it switches to
      sign-in mode: only a message that reports an existing registration does. */
  function ClassifyAuthError(message: string, isLogin: bool): (f: Feedback)
    ensures f.switchToLogin <==> Contains(message, AlreadyRegisteredMarker)
    ensures f.text != ""
    ensures Contains(message, AlreadyRegisteredMarker) ==> f.text == ScreenAccountExists
    ensures !Contains(message, AlreadyRegisteredMarker)
            && (Contains(message, InvalidLoginMarker) || Contains(message, InvalidCredentialsMarker))
            ==> f.text == (if isLogin then ScreenBadCredentials else ScreenCannotCreate)
    ensures !Contains(message, AlreadyRegisteredMarker) && !Contains(message, InvalidLoginMarker)
            && !Contains(message, InvalidCredentialsMarker) && Contains(message, EmailNotConfirmedMarker)
            ==> f.text == ScreenConfirmEmail
    ensures !Contains(message, AlreadyRegisteredMarker) && !Contains(message, InvalidLoginMarker)
            && !Contains(message, InvalidCredentialsMarker) && !Contains(message, EmailNotConfirmedMarker)
            && (Contains(message, TooManyRequestsMarker) || Contains(message, RateLimitMarker))
            ==> f.text == ScreenTooMany
    ensures !Contains(message, AlreadyRegisteredMarker) && !Contains(message, InvalidLoginMarker)
            && !Contains(message, InvalidCredentialsMarker) && !Contains(message, EmailNotConfirmedMarker)
            && !Contains(message, TooManyRequestsMarker) && !Contains(message, RateLimitMarker)
            && Contains(message, SignupDisabledMarker)
            ==> f.text == ScreenDisabled
    ensures !Contains(message, AlreadyRegisteredMarker) && !Contains(message, InvalidLoginMarker)
            && !Contains(message, InvalidCredentialsMarker) && !Contains(message, EmailNotConfirmedMarker)
            && !Contains(message, TooManyRequestsMarker) && !Contains(message, RateLimitMarker)
            && !Contains(message, SignupDisabledMarker)
            ==> f.text == (if message != "" then message else ScreenFailed)
  {
    if Contains(message, AlreadyRegisteredMarker) then Feedback(ScreenAccountExists, true)
    else if Contains(message, InvalidLoginMarker) || Contains(message, InvalidCredentialsMarker) then
      Feedback(if isLogin then ScreenBadCredentials else ScreenCannotCreate, false)
    else if Contains(message, EmailNotConfirmedMarker) then Feedback(ScreenConfirmEmail, false)
    else if Contains(message, TooManyRequestsMarker) || Contains(message, RateLimitMarker) then Feedback(ScreenTooMany, false)
    else if Contains(message, SignupDisabledMarker) then Feedback(ScreenDisabled, false)
    else Feedback(OrElse(Some(message), ScreenFailed), false)
  }

  /** The switch to sign-in mode never fires for a sign-up rejected by the
      store itself: the store rewrites "User already registered" before the
      screen sees it. Only a rejected call, whose message passes through
      unchanged, can reach that branch. */
  lemma SignUpNeverSwitches(env: Env, reply: AuthReply)
    requires !reply.AuthThrew?
    requires AuthContext.SignUpOutcome(env, reply).Threw?
    ensures !ClassifyAuthError(AuthContext.SignUpOutcome(env, reply).message, false).switchToLogin
  {
  }

  /** ... whereas a rejected call carrying that text does switch. */
  lemma ThrownRegistrationSwitches(env: Env, m: string)
    requires ConfigPresent(env) && Contains(m, AlreadyRegisteredMarker)
    ensures ClassifyAuthError(AuthContext.SignUpOutcome(env, AuthThrew(m)).message, false).switchToLogin
  {
  }

  /** In sign-in mode the switch fires only when the gateway's own message,
      passed through unchanged, reports an existing registration. */
  lemma SignInSwitchesOnlyOnRawText(env: Env, reply: AuthReply)
    requires AuthContext.SignInOutcome(env, reply).Threw?
    requires ClassifyAuthError(AuthContext.SignInOutcome(env, reply).message, true).switchToLogin
    ensures ConfigPresent(env) && (reply.AuthFailed? || reply.AuthThrew?)
    ensures Contains(reply.message, AlreadyRegisteredMarker)
  {
    AuthContext.ConfigMissingPlain();
    AuthContext.NotRegisteredNotice(AuthContext.ConfigMissing);
    AuthContext.NoSignInPlain();
    AuthContext.NotRegisteredNotice(AuthContext.NoSignIn);
  }

  // ---------------------------------------------------------------------
  // The screen.

  class AuthForm {
    var isLogin: bool
    var username: string
    var email: string
    var password: string
    var confirmPassword: string
    var showPassword: bool
    var showConfirmPassword: bool
    var errors: map<Field, string>
    var authError: string

    /** The screen opens in sign-in mode with an empty form. */
    constructor ()
      ensures isLogin && username == "" && email == "" && password == "" && confirmPassword == ""
      ensures !showPassword && !showConfirmPassword && errors == map[] && authError == ""
    {
      isLogin, username, email, password, confirmPassword := true, "", "", "", "";
      showPassword, showConfirmPassword := false, false;
      errors, authError := map[], "";
    }

    /** `validateForm()`: builds the error map one check at a time, stores it,
        and reports whether it is empty. */
    method ValidateForm() returns (valid: bool)
      modifies this`errors
      ensures errors == FormErrors(isLogin, username, email, password, confirmPassword)
      ensures valid <==> errors == map[]
    {
      var newErrors: map<Field, string> := map[];
      newErrors := RecordError(newErrors, EmailField, EmailError(email));
      newErrors := RecordError(newErrors, PasswordField, PasswordError(password));
      if !isLogin {
        newErrors := RecordError(newErrors, UsernameField, UsernameError(username));
        newErrors := RecordError(newErrors, ConfirmField, ConfirmError(password, confirmPassword));
      }
      errors := newErrors;
      valid := |newErrors| == 0;
    }

    /** `handleSubmit()`: nothing is sent when the form is invalid; otherwise
        the error is cleared, the store is asked to sign in or up, and either
        the screen navigates away or it shows the classified error, switching
        to sign-in mode when that error says so. */
    method HandleSubmit(store: AuthContext.AuthStore, env: Env, reply: AuthReply)
      returns (navigated: bool, sent: seq<Request>)
      modifies this`errors, this`authError, this`isLogin, store
      ensures errors == FormErrors(old(isLogin), old(username), old(email), old(password), old(confirmPassword))
      ensures username == old(username) && email == old(email) && password == old(password)
      ensures confirmPassword == old(confirmPassword)
      ensures errors != map[] ==> !navigated && sent == [] && isLogin == old(isLogin) && authError == old(authError)
      ensures errors != map[] ==>
        store.user == old(store.user) && store.session == old(store.session) && store.isLoading == old(store.isLoading)
      ensures errors == map[] ==>
        && sent == (if !ConfigPresent(env) then []
                    else if old(isLogin) then [SignInCall(old(email), old(password))]
                    else [SignUpCall(old(email), old(password), old(username))])
        && store.user == old(store.user) && store.session == old(store.session)
        && (store.isLoading <==> navigated)
      ensures errors == map[] ==>
        var outcome := if old(isLogin) then AuthContext.SignInOutcome(env, reply) else AuthContext.SignUpOutcome(env, reply);
        && (navigated <==> outcome.Resolved?)
        && (outcome.Resolved?
        ==> authError == "" && isLogin == old(isLogin))
        && (outcome.Threw? ==>
              var f := ClassifyAuthError(outcome.message, old(isLogin));
              authError == f.text && isLogin == (f.switchToLogin || old(isLogin)))
    {
      var valid := ValidateForm();
      if !valid {
        return false, [];
      }
      ghost var expected := if isLogin then AuthContext.SignInOutcome(env, reply) else AuthContext.SignUpOutcome(env, reply);
      authError := "";
      var outcome: Outcome;
      if isLogin {
        outcome, sent := store.SignIn(env, email, password, reply);
      } else {
        outcome, sent := store.SignUp(env, email, password, username, reply);
      }
      assert outcome == expected;
      navigated := ShowOutcome(outcome);
    }

    /** How the screen settles once the store has answered: it navigates away
        on success; otherwise it shows the classified error and switches to
        sign-in mode when that error says so. */
    method ShowOutcome(outcome: Outcome) returns (navigated: bool)
      modifies this`authError, this`isLogin
      ensures navigated <==> outcome.Resolved?
      ensures outcome.Resolved? ==> authError == old(authError) && isLogin == old(isLogin)
      ensures outcome.Threw? ==>
        var f := ClassifyAuthError(outcome.message, old(isLogin));
        authError == f.text && isLogin == (f.switchToLogin || old(isLogin))
    {
      if outcome.Resolved? {
        return true;
      }
      var f := ClassifyAuthError(outcome.message, isLogin);
      authError := f.text;
      if f.switchToLogin {
        isLogin := true;
      }
      return false;
    }

    /** `switchMode()`: the other mode with a cleared form. */
    method SwitchMode()
      modifies this
      ensures isLogin == !old(isLogin)
      ensures username == "" && email == "" && password == "" && confirmPassword == ""
      ensures !showPassword && !showConfirmPassword && errors == map[] && authError == ""
    {
      isLogin := !isLogin;
      errors, authError := map[], "";
      username, email, password, confirmPassword := "", "", "", "";
      showPassword, showConfirmPassword := false, false;
    }
  }
}
