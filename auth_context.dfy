/** The auth store of `AuthProvider`: the published user, the session and a
    loading flag. Loading a profile falls back to the auth user's own data
    and creates the missing profile row; sign-up and sign-in check the
    configuration first and map the gateway's error messages to friendlier
    ones. */
module AuthContext {
  import opened Base
  import opened Text
  import opened Backend
  import opened Accounts

  /** The gateway's code for "no row", which is not treated as a failure. */
  const NoRowCode := "PGRST116"

  /** `user_metadata?.username || email?.split('@')[0] || 'user'` */
  function FallbackUsername(a: AuthUser): (r: string)
    ensures r != ""
    ensures r == OrElse(a.metadataUsername, "")
         || (a.email.Some? && StartsWith(a.email.value, r) && '@' !in r)
         || r == "user"
  {
    var local := if a.email.Some? then SplitHead(a.email.value, '@'); Some(Split(a.email.value, '@')[0]) else None;
    OrElse(a.metadataUsername, OrElse(local, "user"))
  }

  /** Without a metadata username, an address `local@domain` yields `local`. */
  lemma FallbackFromEmail(a: AuthUser, local: string, domain: string)
    requires OrElse(a.metadataUsername, "") == ""
    requires a.email == Some(local + "@" + domain) && local != "" && '@' !in local
    ensures FallbackUsername(a) == local
  {
    SplitAt(local, '@', domain);
    assert local + "@" + domain == local + ['@'] + domain;
  }

  /** A metadata username, when set, always wins over the address. */
  lemma FallbackPrefersMetadata(a: AuthUser)
    requires a.metadataUsername.Some? && a.metadataUsername.value != ""
    ensures FallbackUsername(a) == a.metadataUsername.value
  {
  }

  /** The user published when no profile can be used: the fallback name and no points. */
  function FallbackUser(a: AuthUser): (u: AppUser)
    ensures u.auth == a && u.username == Some(FallbackUsername(a)) && u.rewardPoints == Some(0)
  {
    AppUser(a, Some(FallbackUsername(a)), Some(0))
  }

  /** The row inserted when the user has no profile. */
  function NewProfileRow(a: AuthUser): (p: Profile)
    ensures p.id == a.id && p.username == FallbackUsername(a) && p.rewardPoints == Some(0)
    ensures p.email == OrElse(a.email, "")
  {
    Profile(a.id, FallbackUsername(a), OrElse(a.email, ""), Some(0), None)
  }

  /** The reply to the insert of a new profile row. */
  datatype ProfileCreate = CreateFailed(message: string) | Created(profile: Profile) | CreateThrew(message: string)

  /** The read ended with "no profile": either the no-row code or an empty result. */
  predicate NeedsInsert(read: ProfileRead) {
    (read.ReadFailed? && read.code == NoRowCode) || (read.ReadDone? && read.profile.None?)
  }

  /** The calls `loadUserProfile` makes: the select, then the insert only when
      there is no profile. */
  function LoadRequests(a: AuthUser, read: ProfileRead): (r: seq<Request>)
    ensures 1 <= |r| <= 2 && r[0] == SelectProfile(a.id)
    ensures InsertProfile(NewProfileRow(a)) in r <==> NeedsInsert(read)
  {
    [SelectProfile(a.id)] + (if NeedsInsert(read) then [InsertProfile(NewProfileRow(a))] else [])
  }

  /** The user `loadUserProfile` publishes. */
  function ResolveUser(a: AuthUser, read: ProfileRead, create: ProfileCreate): (u: AppUser)
    ensures u.auth == a && u.username.Some? && u.rewardPoints.Some?
    ensures read.ReadDone? && read.profile.Some? ==> u == ProfileUser(a, read.profile.value)
    ensures NeedsInsert(read) && create.Created? ==> u == ProfileUser(a, create.profile)
    ensures u == FallbackUser(a)
        <== (read.ReadFailed? && read.code != NoRowCode) || read.ReadThrew? || (NeedsInsert(read) && !create.Created?)
  {
    match read
    case ReadThrew(_) => FallbackUser(a)
    case ReadFailed(code, _) =>
      if code != NoRowCode then FallbackUser(a)
      else Created(a, create)
    case ReadDone(profile) =>
      if profile.Some? then ProfileUser(a, profile.value) else Created(a, create)
  }

  function Created(a: AuthUser, create: ProfileCreate): AppUser {
    if create.Created? then ProfileUser(a, create.profile) else FallbackUser(a)
  }

  /** Where the published user comes from: a profile row, or the fallback
      with zero points; never anything else. */
  lemma ResolvedUserOrigin(a: AuthUser, read: ProfileRead, create: ProfileCreate)
    ensures var u := ResolveUser(a, read, create);
      || u == FallbackUser(a)
      || (read.ReadDone? && read.profile.Some? && u == ProfileUser(a, read.profile.value))
      || (NeedsInsert(read) && create.Created? && u == ProfileUser(a, create.profile))
    ensures ResolveUser(a, read, create).username.value == "" ==>
      || (read.ReadDone? && read.profile.Some? && read.profile.value.username == "")
      || (NeedsInsert(read) && create.Created? && create.profile.username == "")
  {
  }

  /** Error texts. Each is written as a concatenation of short literals:
      the solver checks "no capital U" (the `...Plain` lemmas below) on short
      literals but not on one long one. */
  const ConfigMissing := "Supabase configuration is " + "missing. Please check your " + "environment variables."
  const TooManySignups := "Too many signup attempts. " + "Please wait a moment before " + "trying again."
  const AccountExists := "An account with this email " + "already exists. Please sign " + "in instead."
  const SignupDisabled := "Account creation is " + "currently disabled. Please " + "contact support."
  const BadSignupInput := "Invalid email or password " + "format. Please check your " + "input."
  const SignUpFailed := "Failed to create account. " + "Please try again."
  const NoAccountCreated := "Account creation failed. " + "Please try again."
  const BadCredentials := "Invalid email or password. " + "Please check your credentials " + "or create a new account if " + "you don't have one."
  const ConfirmEmail := "Please check your email and " + "click the confirmation link " + "before signing in."
  const TooManyLogins := "Too many login attempts. " + "Please wait a moment before " + "trying again."
  const SignInDisabled := "Authentication is currently " + "disabled. Please contact " + "support."
  const SignInFailed := "Sign in failed. Please check " + "your internet connection and " + "try again."
  const NoSignIn := "Sign in failed. Please try " + "again."

  lemma ConfigMissingPlain() ensures 'U' !in ConfigMissing {}
  lemma TooManySignupsPlain() ensures 'U' !in TooManySignups {}
  lemma AccountExistsPlain() ensures 'U' !in AccountExists {}
  lemma SignupDisabledPlain() ensures 'U' !in SignupDisabled {}
  lemma BadSignupInputPlain() ensures 'U' !in BadSignupInput {}
  lemma SignUpFailedPlain() ensures 'U' !in SignUpFailed {}
  lemma NoAccountCreatedPlain() ensures 'U' !in NoAccountCreated {}
  lemma BadCredentialsPlain() ensures 'U' !in BadCredentials {}
  lemma ConfirmEmailPlain() ensures 'U' !in ConfirmEmail {}
  lemma TooManyLoginsPlain() ensures 'U' !in TooManyLogins {}
  lemma SignInDisabledPlain() ensures 'U' !in SignInDisabled {}
  lemma SignInFailedPlain() ensures 'U' !in SignInFailed {}
  lemma NoSignInPlain() ensures 'U' !in NoSignIn {}

  /** A text without a capital U cannot report an existing registration. */
  lemma NotRegisteredNotice(s: string)
    requires 'U' !in s
    ensures !Contains(s, AlreadyRegisteredMarker)
  {
    MissingCharNotContained(s, AlreadyRegisteredMarker, 0);
  }

  /** The text a failed sign-up rejects with: the first marker the gateway's
      message carries, in the order rate limit, registered, disabled, invalid
      credentials, picks a fixed text; a message with none is shown as it is,
      and an empty one as a default. The result is never empty and never
      mentions an existing registration in the gateway's words. */
  function SignUpMessage(m: string): (r: string)
    ensures r != ""
    ensures !Contains(r, AlreadyRegisteredMarker)
    ensures Contains(m, RateLimitMarker) ==> r == TooManySignups
    ensures !Contains(m, RateLimitMarker) && Contains(m, AlreadyRegisteredMarker) ==> r == AccountExists
    ensures !Contains(m, RateLimitMarker) && !Contains(m, AlreadyRegisteredMarker)
            && Contains(m, SignupDisabledMarker)
            ==> r == SignupDisabled
    ensures !Contains(m, RateLimitMarker) && !Contains(m, AlreadyRegisteredMarker)
            && !Contains(m, SignupDisabledMarker) && Contains(m, InvalidCredentialsMarker)
            ==> r == BadSignupInput
    ensures !Contains(m, RateLimitMarker) && !Contains(m, AlreadyRegisteredMarker)
            && !Contains(m, SignupDisabledMarker) && !Contains(m, InvalidCredentialsMarker)
            ==> r == (if m != "" then m else SignUpFailed)
  {
    if Contains(m, RateLimitMarker) then TooManySignupsPlain(); NotRegisteredNotice(TooManySignups); TooManySignups
    else if Contains(m, AlreadyRegisteredMarker) then AccountExistsPlain(); NotRegisteredNotice(AccountExists); AccountExists
    else if Contains(m, SignupDisabledMarker) then SignupDisabledPlain(); NotRegisteredNotice(SignupDisabled); SignupDisabled
    else if Contains(m, InvalidCredentialsMarker) then BadSignupInputPlain(); NotRegisteredNotice(BadSignupInput); BadSignupInput
    else if m != "" then m
    else SignUpFailedPlain(); NotRegisteredNotice(SignUpFailed); SignUpFailed
  }

  /** The text a failed sign-in rejects with: the first marker, in the order
      invalid login (either spelling), unconfirmed e-mail, too many requests,
      disabled, picks a fixed text; otherwise the message itself, or a default
      when it is empty. A text that differs from the message never mentions an
      existing registration. */
  function SignInMessage(m: string): (r: string)
    ensures r != ""
    ensures r != m ==> !Contains(r, AlreadyRegisteredMarker)
    ensures Contains(m, InvalidLoginMarker) || Contains(m, InvalidCredentialsMarker) ==> r == BadCredentials
    ensures !Contains(m, InvalidLoginMarker) && !Contains(m, InvalidCredentialsMarker)
            && Contains(m, EmailNotConfirmedMarker)
            ==> r == ConfirmEmail
    ensures !Contains(m, InvalidLoginMarker) && !Contains(m, InvalidCredentialsMarker)
            && !Contains(m, EmailNotConfirmedMarker) && Contains(m, TooManyRequestsMarker)
            ==> r == TooManyLogins
    ensures !Contains(m, InvalidLoginMarker) && !Contains(m, InvalidCredentialsMarker)
            && !Contains(m, EmailNotConfirmedMarker) && !Contains(m, TooManyRequestsMarker)
            && Contains(m, SignupDisabledMarker)
            ==> r == SignInDisabled
    ensures !Contains(m, InvalidLoginMarker) && !Contains(m, InvalidCredentialsMarker)
            && !Contains(m, EmailNotConfirmedMarker) && !Contains(m, TooManyRequestsMarker)
            && !Contains(m, SignupDisabledMarker)
            ==> r == (if m != "" then m else SignInFailed)
  {
    if Contains(m, InvalidLoginMarker) || Contains(m, InvalidCredentialsMarker) then
      BadCredentialsPlain(); NotRegisteredNotice(BadCredentials); BadCredentials
    else if Contains(m, EmailNotConfirmedMarker) then ConfirmEmailPlain(); NotRegisteredNotice(ConfirmEmail); ConfirmEmail
    else if Contains(m, TooManyRequestsMarker) then TooManyLoginsPlain(); NotRegisteredNotice(TooManyLogins); TooManyLogins
    else if Contains(m, SignupDisabledMarker) then SignInDisabledPlain(); NotRegisteredNotice(SignInDisabled); SignInDisabled
    else if m != "" then m
    else SignInFailedPlain(); NotRegisteredNotice(SignInFailed); SignInFailed
  }

  /** How `signUp` settles. It resolves only when the configuration is present
      and the gateway returns a user; every rejection it produces itself is
      non-empty and free of the gateway's "already registered" wording. */
  function SignUpOutcome(env: Env, reply: AuthReply): (o: Outcome)
    ensures o.Resolved? <==> ConfigPresent(env) && reply == AuthSucceeded(true)
    ensures !ConfigPresent(env) ==> o == Threw(ConfigMissing)
    ensures ConfigPresent(env) && reply.AuthThrew? ==> o == Threw(reply.message)
    ensures ConfigPresent(env) && reply.AuthFailed? ==> o == Threw(SignUpMessage(reply.message))
    ensures ConfigPresent(env) && reply == AuthSucceeded(false) ==> o == Threw(NoAccountCreated)
    ensures o.Threw? && !reply.AuthThrew? ==> o.message != "" && !Contains(o.message, AlreadyRegisteredMarker)
  {
    if !ConfigPresent(env) then ConfigMissingPlain(); NotRegisteredNotice(ConfigMissing); Threw(ConfigMissing)
    else match reply
      case AuthThrew(m) => Threw(m)
      case AuthFailed(m) => Threw(SignUpMessage(m))
      case AuthSucceeded(hasUser) =>
        if hasUser then Resolved else NoAccountCreatedPlain(); NotRegisteredNotice(NoAccountCreated); Threw(NoAccountCreated)
  }

  /** How `signIn` settles, with the same structure. */
  function SignInOutcome(env: Env, reply: AuthReply): (o: Outcome)
    ensures o.Resolved? <==> ConfigPresent(env) && reply == AuthSucceeded(true)
    ensures !ConfigPresent(env) ==> o == Threw(ConfigMissing)
    ensures ConfigPresent(env) && reply.AuthThrew? ==> o == Threw(reply.message)
    ensures ConfigPresent(env) && reply.AuthFailed? ==> o == Threw(SignInMessage(reply.message))
    ensures ConfigPresent(env) && reply == AuthSucceeded(false) ==> o == Threw(NoSignIn)
    ensures o.Threw? ==> reply.AuthThrew? || o.message != ""
  {
    if !ConfigPresent(env) then Threw(ConfigMissing)
    else match reply
      case AuthThrew(m) => Threw(m)
      case AuthFailed(m) => Threw(SignInMessage(m))
      case AuthSucceeded(hasUser) => if hasUser then Resolved else Threw(NoSignIn)
  }

  class AuthStore {
    var user: Option<AppUser>
    var session: Option<Session>
    var isLoading: bool

    /** The provider mounts with no user, no session and `isLoading` set. */
    constructor ()
      ensures user == None && session == None && isLoading
    {
      user, session, isLoading := None, None, true;
    }

    /** `loadUserProfile(authUser)`: publishes the resolved user and clears
        `isLoading`, whatever the replies. */
    method LoadUserProfile(a: AuthUser, read: ProfileRead, create: ProfileCreate) returns (sent: seq<Request>)
      modifies this
      ensures sent == LoadRequests(a, read)
      ensures user == Some(ResolveUser(a, read, create)) && !isLoading && session == old(session)
    {
      sent := [SelectProfile(a.id)];
      if read.ReadFailed? && read.code != NoRowCode {
        user := Some(FallbackUser(a));
      } else if read.ReadDone? && read.profile.Some? {
        user := Some(ProfileUser(a, read.profile.value));
      } else if read.ReadThrew? {
        user := Some(FallbackUser(a));
      } else {
        sent := sent + [InsertProfile(NewProfileRow(a))];
        if create.Created? {
          user := Some(ProfileUser(a, create.profile));
        } else {
          user := Some(FallbackUser(a));
        }
      }
      isLoading := false;
    }

    /** The initial `getSession()`: a session's user is loaded; without one
        only `isLoading` is cleared. */
    method InitialSession(s: Option<Session>, read: ProfileRead, create: ProfileCreate) returns (sent: seq<Request>)
      modifies this
      ensures session == s && !isLoading
      ensures s.Some? ==> sent == LoadRequests(s.value.user, read) && user == Some(ResolveUser(s.value.user, read, create))
      ensures s.None? ==> sent == [] && user == old(user)
    {
      session := s;
      if s.Some? {
        sent := LoadUserProfile(s.value.user, read, create);
      } else {
        isLoading := false;
        sent := [];
      }
    }

    /** `onAuthStateChange`: a session's user is loaded; without a session the
        user is cleared. */
    method AuthStateChanged(s: Option<Session>, read: ProfileRead, create: ProfileCreate) returns (sent: seq<Request>)
      modifies this
      ensures session == s && !isLoading
      ensures s.Some? ==> sent == LoadRequests(s.value.user, read) && user == Some(ResolveUser(s.value.user, read, create))
      ensures s.None? ==> sent == [] && user == None
    {
      session := s;
      if s.Some? {
        sent := LoadUserProfile(s.value.user, read, create);
      } else {
        user := None;
        isLoading := false;
        sent := [];
      }
    }

    /** `signUp(email, password, username)`: no call when the configuration is
        missing; `isLoading` is cleared on every rejection but stays set after
        a successful sign-up. */
    method SignUp(env: Env, email: string, password: string, username: string, reply: AuthReply)
      returns (outcome: Outcome, sent: seq<Request>)
      modifies this
      ensures outcome == SignUpOutcome(env, reply)
      ensures sent == (if ConfigPresent(env) then [SignUpCall(email, password, username)] else [])
      ensures isLoading <==> outcome.Resolved?
      ensures user == old(user) && session == old(session)
    {
      isLoading := true;
      if !ConfigPresent(env) {
        isLoading := false;
        return Threw(ConfigMissing), [];
      }
      sent := [SignUpCall(email, password, username)];
      outcome := SignUpOutcome(env, reply);
      if outcome.Threw? {
        isLoading := false;
      }
    }

    /** `signIn(email, password)`, with the same loading behaviour. */
    method SignIn(env: Env, email: string, password: string, reply: AuthReply)
      returns (outcome: Outcome, sent: seq<Request>)
      modifies this
      ensures outcome == SignInOutcome(env, reply)
      ensures sent == (if ConfigPresent(env) then [SignInCall(email, password)] else [])
      ensures isLoading <==> outcome.Resolved?
      ensures user == old(user) && session == old(session)
    {
      isLoading := true;
      if !ConfigPresent(env) {
        isLoading := false;
        return Threw(ConfigMissing), [];
      }
      sent := [SignInCall(email, password)];
      outcome := SignInOutcome(env, reply);
      if outcome.Threw? {
        isLoading := false;
      }
    }

    /** `updateProfile(updates)`: nothing without a user; otherwise one update
        stamped with the current time, and the local user takes the update
        only when it succeeds. Failures are swallowed. */
    method UpdateProfile(up: ProfileUpdate, now: string, reply: WriteReply) returns (sent: seq<Request>)
      modifies this
      ensures old(user).None? ==> sent == [] && user == None
      ensures old(user).Some? ==> sent == [UpdateProfileRow(old(user).value.auth.id, up, now)]
      ensures old(user).Some? && reply.WriteOk? ==> user == Some(Overlay(old(user).value, up))
      ensures reply.WriteFailed? ==> user == old(user)
      ensures session == old(session) && isLoading == old(isLoading)
    {
      if user.None? {
        return [];
      }
      sent := [UpdateProfileRow(user.value.auth.id, up, now)];
      if reply.WriteOk? {
        user := Some(Overlay(user.value, up));
      }
    }
  }
}
