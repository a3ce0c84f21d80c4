/** The remote gateway as the client sees it: the two configuration values,
    the shape of query and write replies, and the five collections a refresh
    reloads, under the two refresh policies the application has (every query
    on its own, or stop at the first failing query). */
module Backend {
  import opened Base

  /** The public environment values `EXPO_PUBLIC_SUPABASE_URL` and
      `EXPO_PUBLIC_SUPABASE_ANON_KEY`; `None` when the variable is not set. */
  datatype Env = Env(url: Option<string>, anonKey: Option<string>)

  /** The presence check `!URL || !KEY` fails: both values are set and non-empty. */
  predicate ConfigPresent(env: Env) {
    env.url.Some? && env.url.value != "" && env.anonKey.Some? && env.anonKey.value != ""
  }

  /** The reply `{ data, error }` to a select; `data` may be null even without an error. */
  datatype QueryReply<T> = QueryFailed(message: string) | QueryOk(data: Option<seq<T>>)

  /** The reply to an insert or an update, or a call whose promise rejects. */
  datatype WriteReply = WriteFailed(message: string) | WriteOk

  /** The `data` a caller reads from a reply: null when the query failed. */
  function Rows<T>(r: QueryReply<T>): Option<seq<T>> {
    if r.QueryOk? then r.data else None
  }

  /** `setX(data || [])` after a successful query; nothing after a failed one. */
  function Replace<T>(previous: seq<T>, r: QueryReply<T>): (next: seq<T>)
    ensures r.QueryFailed? ==> next == previous
    ensures r.QueryOk? && r.data.None? ==> next == []
    ensures r.QueryOk? && r.data.Some? ==> next == r.data.value
  {
    if r.QueryFailed? then previous else r.data.GetOr([])
  }

  /** What an item store holds: every lost item, every found item, the
      signed-in user's lost and found items, and the user's matches. */
  datatype Collections<L, F, M> = Collections(
    lost: seq<L>, found: seq<F>, userLost: seq<L>, userFound: seq<F>, matches: seq<M>)

  function Empty<L, F, M>(): Collections<L, F, M> {
    Collections([], [], [], [], [])
  }

  /** The replies to the five refresh queries, in the order they are issued. */
  datatype Replies<L, F, M> = Replies(
    lost: QueryReply<L>, found: QueryReply<F>, userLost: QueryReply<L>,
    userFound: QueryReply<F>, matches: QueryReply<M>)

  /** Each query on its own: a failure leaves its own collection as it was
      and has no effect on the others. */
  function RefreshEach<L, F, M>(c: Collections<L, F, M>, rs: Replies<L, F, M>): Collections<L, F, M> {
    Collections(
      Replace(c.lost, rs.lost), Replace(c.found, rs.found),
      Replace(c.userLost, rs.userLost), Replace(c.userFound, rs.userFound),
      Replace(c.matches, rs.matches))
  }

  /** The queries run in order and the first failure throws: the collections
      before it have been replaced, it and those after it are untouched. */
  function RefreshUntilFailure<L, F, M>(c: Collections<L, F, M>, rs: Replies<L, F, M>): Collections<L, F, M> {
    if rs.lost.QueryFailed? then c else
    var c1 := c.(lost := rs.lost.data.GetOr([]));
    if rs.found.QueryFailed? then c1 else
    var c2 := c1.(found := rs.found.data.GetOr([]));
    if rs.userLost.QueryFailed? then c2 else
    var c3 := c2.(userLost := rs.userLost.data.GetOr([]));
    if rs.userFound.QueryFailed? then c3 else
    var c4 := c3.(userFound := rs.userFound.data.GetOr([]));
    if rs.matches.QueryFailed? then c4 else
    c4.(matches := rs.matches.data.GetOr([]))
  }

  /** Whether the query at position `i`, in the order the refresh issues
      them, failed. */
  predicate FailedAt<L, F, M>(rs: Replies<L, F, M>, i: nat) {
    match i
    case 0 => rs.lost.QueryFailed?
    case 1 => rs.found.QueryFailed?
    case 2 => rs.userLost.QueryFailed?
    case 3 => rs.userFound.QueryFailed?
    case 4 => rs.matches.QueryFailed?
    case _ => false
  }

  /** The position (0 to 4) of the first failing reply, or 5 when none fails. */
  function FirstFailure<L, F, M>(rs: Replies<L, F, M>): (k: nat)
    ensures k <= 5
    ensures forall i: nat :: i < k ==> !FailedAt(rs, i)
    ensures k < 5 ==> FailedAt(rs, k)
  {
    if rs.lost.QueryFailed? then 0
    else if rs.found.QueryFailed? then 1
    else if rs.userLost.QueryFailed? then 2
    else if rs.userFound.QueryFailed? then 3
    else if rs.matches.QueryFailed? then 4
    else 5
  }

  /** The replies with every position from `k` on replaced by a failure. */
  function FailFrom<L, F, M>(rs: Replies<L, F, M>, k: nat): Replies<L, F, M> {
    Replies(
      if k <= 0 then QueryFailed("") else rs.lost,
      if k <= 1 then QueryFailed("") else rs.found,
      if k <= 2 then QueryFailed("") else rs.userLost,
      if k <= 3 then QueryFailed("") else rs.userFound,
      if k <= 4 then QueryFailed("") else rs.matches)
  }

  /** Stopping at the first failure is the same as refreshing each collection
      on its own after treating every later reply as failed. */
  lemma UntilFailureIsEachBeforeFailure<L, F, M>(c: Collections<L, F, M>, rs: Replies<L, F, M>)
    ensures RefreshUntilFailure(c, rs) == RefreshEach(c, FailFrom(rs, FirstFailure(rs)))
  {
  }

  /** Spelled out per collection: the collections before the first failing
      query are replaced by their replies, that one and all later ones are kept. */
  lemma UntilFailurePrefix<L, F, M>(c: Collections<L, F, M>, rs: Replies<L, F, M>)
    ensures var r, k := RefreshUntilFailure(c, rs), FirstFailure(rs);
      && r.lost == (if 0 < k then Replace(c.lost, rs.lost) else c.lost)
      && r.found == (if 1 < k then Replace(c.found, rs.found) else c.found)
      && r.userLost == (if 2 < k then Replace(c.userLost, rs.userLost) else c.userLost)
      && r.userFound == (if 3 < k then Replace(c.userFound, rs.userFound) else c.userFound)
      && r.matches == (if 4 < k then Replace(c.matches, rs.matches) else c.matches)
  {
    UntilFailureIsEachBeforeFailure(c, rs);
  }

  /** When no query fails the two policies agree. */
  lemma PoliciesAgreeWithoutFailure<L, F, M>(c: Collections<L, F, M>, rs: Replies<L, F, M>)
    requires FirstFailure(rs) == 5
    ensures RefreshUntilFailure(c, rs) == RefreshEach(c, rs)
  {
  }

  /** Independence: a collection's new value depends only on its previous value
      and its own reply, whatever the other four replies are. */
  lemma RefreshEachIndependent<L, F, M>(c: Collections<L, F, M>, rs: Replies<L, F, M>, rs': Replies<L, F, M>)
    ensures rs.lost == rs'.lost ==> RefreshEach(c, rs).lost == RefreshEach(c, rs').lost
    ensures rs.found == rs'.found ==> RefreshEach(c, rs).found == RefreshEach(c, rs').found
    ensures rs.userLost == rs'.userLost ==> RefreshEach(c, rs).userLost == RefreshEach(c, rs').userLost
    ensures rs.userFound == rs'.userFound ==> RefreshEach(c, rs).userFound == RefreshEach(c, rs').userFound
    ensures rs.matches == rs'.matches ==> RefreshEach(c, rs).matches == RefreshEach(c, rs').matches
  {
  }

  /** Applying the same replies again changes nothing, under either policy. */
  lemma RefreshIdempotent<L, F, M>(c: Collections<L, F, M>, rs: Replies<L, F, M>)
    ensures RefreshEach(RefreshEach(c, rs), rs) == RefreshEach(c, rs)
    ensures RefreshUntilFailure(RefreshUntilFailure(c, rs), rs) == RefreshUntilFailure(c, rs)
  {
  }

  /** Wholesale replacement: when every query succeeds the previous contents
      play no part in the result. */
  lemma RefreshForgetsPrevious<L, F, M>(c: Collections<L, F, M>, c': Collections<L, F, M>, rs: Replies<L, F, M>)
    requires FirstFailure(rs) == 5
    ensures RefreshEach(c, rs) == RefreshEach(c', rs)
    ensures RefreshUntilFailure(c, rs) == RefreshUntilFailure(c', rs)
  {
  }
}
