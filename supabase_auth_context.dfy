/** The auth store of `SupabaseAuthProvider`: the same state as the other
    auth store, but a profile is only read (a database trigger creates it),
    any failure publishes the bare auth user, there is no configuration
    check, and sign-up and sign-in always clear `isLoading` when they settle. */
module SupabaseAuthContext {
  import opened Base
  import opened Text
  import opened Backend
  import opened Accounts

  /** The user `loadUserProfile` publishes: a loaded profile adds its username
      and points; an error, no row or a rejected read leaves the bare auth user. */
  function ResolveUser(a: AuthUser, read: ProfileRead): (u: AppUser)
    ensures u.auth == a
    ensures read.ReadDone? && read.profile.Some? ==> u == ProfileUser(a, read.profile.value)
    ensures !(read.ReadDone? && read.profile.Some?) ==> u == AppUser(a, None, None)
  {
    match read
    case ReadDone(profile) =>
      if profile.Some? then ProfileUser(a, profile.value) else AppUser(a, None, None)
    case _ => AppUser(a, None, None)
  }

  /** This store never invents a username or points: both are set exactly
      when a profile row was read, and then both come from it. */
  lemma NoInventedFields(a: AuthUser, read: ProfileRead)
    ensures ResolveUser(a, read).username.Some? <==> read.ReadDone? && read.profile.Some?
    ensures ResolveUser(a, read).rewardPoints.Some? <==> ResolveUser(a, read).username.Some?
  {
  }

  const TooManySignups := "Too many signup attempts. Please wait a moment before trying again."
  const AccountExists := "An account with this email already exists. Please sign in instead."
  const BadCredentials := "Invalid email or password. Please check your credentials and try again."
  const ConfirmEmail := "Please check your email and click the confirmation link before signing in."
  const TooManyLogins := "Too many login attempts. Please wait a moment before trying again."

  /** The text a failed sign-up rejects with: two fixed texts, otherwise the
      gateway's message unchanged (even when empty). */
  function SignUpMessage(m: string): (r: string)
    ensures r == m || r in {TooManySignups, AccountExists}
    ensures Contains(m, RateLimitMarker) ==> r == TooManySignups
    ensures !Contains(m, RateLimitMarker) && Contains(m, AlreadyRegisteredMarker) ==> r == AccountExists
    ensures !Contains(m, RateLimitMarker) && !Contains(m, AlreadyRegisteredMarker) ==> r == m
  {
    if Contains(m, RateLimitMarker) then TooManySignups
    else if Contains(m, AlreadyRegisteredMarker) then AccountExists
    else m
  }

  /** The text a failed sign-in rejects with: three fixed texts, otherwise the
      gateway's message unchanged. Only the spelled-out credentials message is
      recognised, not the `invalid_credentials` code. */
  function SignInMessage(m: string): (r: string)
    ensures r == m || r in {BadCredentials, ConfirmEmail, TooManyLogins}
    ensures Contains(m, InvalidLoginMarker) ==> r == BadCredentials
    ensures !Contains(m, InvalidLoginMarker) && Contains(m, EmailNotConfirmedMarker) ==> r == ConfirmEmail
    ensures !Contains(m, InvalidLoginMarker) && !Contains(m, EmailNotConfirmedMarker)
            && Contains(m, TooManyRequestsMarker)
            ==> r == TooManyLogins
    ensures !Contains(m, InvalidLoginMarker) && !Contains(m, EmailNotConfirmedMarker)
            && !Contains(m, TooManyRequestsMarker)
            ==> r == m
  {
    if Contains(m, InvalidLoginMarker) then BadCredentials
    else if Contains(m, EmailNotConfirmedMarker) then ConfirmEmail
    else if Contains(m, TooManyRequestsMarker) then TooManyLogins
    else m
  }

  /** How `signUp` settles: any reply without an error resolves, whether or
      not it carries a user. */
  function SignUpOutcome(reply: AuthReply): (o: Outcome)
    ensures o.Resolved? <==> reply.AuthSucceeded?
    ensures reply.AuthFailed? ==> o == Threw(SignUpMessage(reply.message))
    ensures reply.AuthThrew? ==> o == Threw(reply.message)
  {
    match reply
    case AuthSucceeded(_) => Resolved
    case AuthFailed(m) => Threw(SignUpMessage(m))
    case AuthThrew(m) => Threw(m)
  }

  function SignInOutcome(reply: AuthReply): (o: Outcome)
    ensures o.Resolved? <==> reply.AuthSucceeded?
    ensures reply.AuthFailed? ==> o == Threw(SignInMessage(reply.message))
    ensures reply.AuthThrew? ==> o == Threw(reply.message)
  {
    match reply
    case AuthSucceeded(_) => Resolved
    case AuthFailed(m) => Threw(SignInMessage(m))
    case AuthThrew(m) => Threw(m)
  }

  class SupabaseAuthStore {
    var user: Option<AppUser>
    var session: Option<Session>
    var isLoading: bool

    constructor ()
      ensures user == None && session == None && isLoading
    {
      user, session, isLoading := None, None, true;
    }

    /** `loadUserProfile(authUser)`, after its fixed wait: one read, the
        resolved user, and `isLoading` cleared. */
    method LoadUserProfile(a: AuthUser, read: ProfileRead) returns (sent: seq<Request>)
      modifies this
      ensures sent == [SelectProfile(a.id)]
      ensures user == Some(ResolveUser(a, read)) && !isLoading && session == old(session)
    {
      sent := [SelectProfile(a.id)];
      if read.ReadDone? && read.profile.Some? {
        user := Some(ProfileUser(a, read.profile.value));
      } else {
        user := Some(AppUser(a, None, None));
      }
      isLoading := false;
    }

    method InitialSession(s: Option<Session>, read: ProfileRead) returns (sent: seq<Request>)
      modifies this
      ensures session == s && !isLoading
      ensures s.Some? ==> sent == [SelectProfile(s.value.user.id)] && user == Some(ResolveUser(s.value.user, read))
      ensures s.None? ==> sent == [] && user == old(user)
    {
      session := s;
      if s.Some? {
        sent := LoadUserProfile(s.value.user, read);
      } else {
        isLoading := false;
        sent := [];
      }
    }

    method AuthStateChanged(s: Option<Session>, read: ProfileRead) returns (sent: seq<Request>)
      modifies this
      ensures session == s && !isLoading
      ensures s.Some? ==> sent == [SelectProfile(s.value.user.id)] && user == Some(ResolveUser(s.value.user, read))
      ensures s.None? ==> sent == [] && user == None
    {
      session := s;
      if s.Some? {
        sent := LoadUserProfile(s.value.user, read);
      } else {
        user := None;
        isLoading := false;
        sent := [];
      }
    }

    /** `signUp(email, password, username)`: one call; `isLoading` is cleared
        however it settles. */
    method SignUp(email: string, password: string, username: string, reply: AuthReply)
      returns (outcome: Outcome, sent: seq<Request>)
      modifies this
      ensures outcome == SignUpOutcome(reply) && sent == [SignUpCall(email, password, username)]
      ensures !isLoading && user == old(user) && session == old(session)
    {
      isLoading := true;
      sent := [SignUpCall(email, password, username)];
      outcome := SignUpOutcome(reply);
      isLoading := false;
    }

    method SignIn(email: string, password: string, reply: AuthReply)
      returns (outcome: Outcome, sent: seq<Request>)
      modifies this
      ensures outcome == SignInOutcome(reply) && sent == [SignInCall(email, password)]
      ensures !isLoading && user == old(user) && session == old(session)
    {
      isLoading := true;
      sent := [SignInCall(email, password)];
      outcome := SignInOutcome(reply);
      isLoading := false;
    }

    method UpdateProfile(up: ProfileUpdate, now: string, reply: WriteReply) returns (sent: seq<Request>)
      modifies this
      ensures old(user).None? ==> sent == [] && user == None
      ensures old(user).Some? ==> sent == [UpdateProfileRow(old(user).value.auth.id, up, now)]
      ensures old(user).Some? && reply.WriteOk? ==> user == Some(Overlay(old(user).value, up))
      ensures reply.WriteFailed? ==> user == old(user)
      ensures session == old(session) && isLoading == old(isLoading)
    {
      if user.None? {
        return [];
      }
      sent := [UpdateProfileRow(user.value.auth.id, up, now)];
      if reply.WriteOk? {
        user := Some(Overlay(user.value, up));
      }
    }
  }
}
