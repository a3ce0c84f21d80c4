/** The account records both auth stores work with: the gateway's auth user,
    the `profiles` row, the user the store publishes (the auth user plus a
    username and reward points), and the calls the stores make. */
module Accounts {
  import opened Base
  import opened Backend

  /** The parts of the gateway's auth user the application reads. */
  datatype AuthUser = AuthUser(id: string, email: Option<string>, metadataUsername: Option<string>)

  /** A signed-in session; it always carries its user. */
  datatype Session = Session(accessToken: string, user: AuthUser)

  /** The published user: `{ ...authUser, username, reward_points }`, where
      the two extra fields may be absent. */
  datatype AppUser = AppUser(auth: AuthUser, username: Option<string>, rewardPoints: Option<int>)

  /** A `profiles` row. */
  datatype Profile = Profile(
    id: string, username: string, email: string, rewardPoints: Option<int>, avatarUrl: Option<string>)

  /** The partial update `updateProfile` takes: absent keys are not sent. */
  datatype ProfileUpdate = ProfileUpdate(username: Option<string>, rewardPoints: Option<int>)

  /** The reply to `select('*').eq('id', …).maybeSingle()`. */
  datatype ProfileRead =
    | ReadFailed(code: string, message: string)
    | ReadDone(profile: Option<Profile>)
    | ReadThrew(message: string)

  /** The reply to a sign-up or sign-in call: an error object, data whose
      user may be missing, or a rejected promise. */
  datatype AuthReply = AuthFailed(message: string) | AuthSucceeded(hasUser: bool) | AuthThrew(message: string)

  datatype Request =
    | SelectProfile(id: string)
    | InsertProfile(row: Profile)
    | UpdateProfileRow(id: string, update: ProfileUpdate, updatedAt: string)
    | SignUpCall(email: string, password: string, username: string)
    | SignInCall(email: string, password: string)

  /** Texts the gateway's error messages are searched for. */
  const RateLimitMarker := "over_email_send_rate_limit"
  const AlreadyRegisteredMarker := "User already registered"
  const SignupDisabledMarker := "signup_disabled"
  const InvalidCredentialsMarker := "invalid_credentials"
  const InvalidLoginMarker := "Invalid login credentials"
  const EmailNotConfirmedMarker := "Email not confirmed"
  const TooManyRequestsMarker := "too_many_requests"

  /** `signOut()` in both auth stores: one call whose error is rethrown; the
      local state is left to the auth-change listener. */
  function SignOut(reply: WriteReply): (o: Outcome)
    ensures o.Resolved? <==> reply.WriteOk?
    ensures reply.WriteFailed? ==> o == Threw(reply.message)
  {
    if reply.WriteOk? then Resolved else Threw(reply.message)
  }

  /** `reward_points || 0` */
  function PointsOrZero(points: Option<int>): (r: int)
    ensures points.Some? && points.value != 0 ==> r == points.value
    ensures points.None? || points.value == 0 ==> r == 0
  {
    points.GetOr(0)
  }

  /** The user published for a loaded profile: the profile's username and
      its points, zero when null. */
  function ProfileUser(a: AuthUser, p: Profile): (u: AppUser)
    ensures u.auth == a && u.username == Some(p.username)
    ensures u.rewardPoints == Some(PointsOrZero(p.rewardPoints))
  {
    AppUser(a, Some(p.username), Some(PointsOrZero(p.rewardPoints)))
  }

  /** `{ ...prev, ...updates }`: each key the update carries overrides the
      user's, every other field is kept. */
  function Overlay(u: AppUser, up: ProfileUpdate): (r: AppUser)
    ensures r.auth == u.auth
    ensures r.username == (if up.username.Some? then up.username else u.username)
    ensures r.rewardPoints == (if up.rewardPoints.Some? then up.rewardPoints else u.rewardPoints)
  {
    AppUser(
      u.auth,
      if up.username.Some? then up.username else u.username,
      if up.rewardPoints.Some? then up.rewardPoints else u.rewardPoints)
  }

  /** Two successive updates, as one: the later key wins. */
  function Then(first: ProfileUpdate, second: ProfileUpdate): ProfileUpdate {
    ProfileUpdate(
      if second.username.Some? then second.username else first.username,
      if second.rewardPoints.Some? then second.rewardPoints else first.rewardPoints)
  }

  /** Applying an update twice is applying it once; an empty update changes
      nothing; two updates in a row are their merge. */
  lemma OverlayLaws(u: AppUser, a: ProfileUpdate, b: ProfileUpdate)
    ensures Overlay(Overlay(u, a), a) == Overlay(u, a)
    ensures Overlay(u, ProfileUpdate(None, None)) == u
    ensures Overlay(Overlay(u, a), b) == Overlay(u, Then(a, b))
  {
  }
}
