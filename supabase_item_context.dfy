/** The item store of `SupabaseItemProvider`: the same five collections, but
    the refresh stops at the first failing query, the matches are selected
    by finder or owner, reports insert the caller's fields as given, and
    signing out leaves the collections in place. */
module SupabaseItemContext {
  import opened Base
  import opened Text
  import opened Backend
  import opened Items
  import ItemContext

  /** A match in this variant: finder, owner and the points it awards. */
  datatype Match = Match(
    id: string, lostItemId: string, foundItemId: string, finderId: string, ownerId: string,
    pointsAwarded: int, status: MatchStatus, createdAt: string, updatedAt: string,
    lostItem: Option<LostItem>, foundItem: Option<FoundItem>)

  /** `{ ...item, user_id, is_found: false }` */
  datatype LostInsert = LostInsert(details: LostDetails, userId: string, isFound: bool)

  /** `{ ...item, user_id, is_matched: false }` */
  datatype FoundInsert = FoundInsert(details: FoundDetails, userId: string, isMatched: bool)

  datatype Request =
    | SelectLostItems
    | SelectFoundItems
    | SelectUserLostItems(userId: string)
    | SelectUserFoundItems(userId: string)
    | SelectMatches(filter: string)
    | InsertLostItem(lostRow: LostInsert)
    | InsertFoundItem(foundRow: FoundInsert)

  const NotAuthenticated := "User not authenticated"

  /** The row of a lost-item report: every field the caller gave, unchanged,
      plus the owner and an unset found flag. */
  function LostInsertFor(item: LostDetails, userId: string): (row: LostInsert)
    ensures row.details == item && row.userId == userId && !row.isFound
  {
    LostInsert(item, userId, false)
  }

  /** The row of a found-item report, built the same way. */
  function FoundInsertFor(item: FoundDetails, userId: string): (row: FoundInsert)
    ensures row.details == item && row.userId == userId && !row.isMatched
  {
    FoundInsert(item, userId, false)
  }

  /** An absent description stays absent here, where `ItemProvider` would
      write the title in its place. */
  lemma FoundDescriptionKept(item: FoundDetails, userId: string)
    requires item.description.None?
    ensures FoundInsertFor(item, userId).details.description.None?
    ensures ItemContext.FoundRowFor(item, userId).description == item.title
  {
  }

  /** The `or` filter of the matches query: the user is the finder or the owner. */
  function MatchesFilter(userId: string): string {
    "finder_id.eq." + userId + ",owner_id.eq." + userId
  }

  /** For an id free of commas the filter has exactly two clauses, one per role. */
  lemma MatchesFilterClauses(userId: string)
    requires ',' !in userId
    ensures Split(MatchesFilter(userId), ',') == ["finder_id.eq." + userId, "owner_id.eq." + userId]
  {
    var a := "finder_id.eq." + userId;
    var b := "owner_id.eq." + userId;
    assert ',' !in "finder_id.eq.";
    assert ',' !in "owner_id.eq.";
    assert MatchesFilter(userId) == a + [','] + b;
    SplitAt(a, ',', b);
    SplitWithout(b, ',');
  }

  /** The five queries of a full refresh, in order. */
  function AllRequests(userId: string): (r: seq<Request>)
    ensures |r| == 5
  {
    [ SelectLostItems, SelectFoundItems, SelectUserLostItems(userId), SelectUserFoundItems(userId),
      SelectMatches(MatchesFilter(userId)) ]
  }

  /** The queries a refresh issues: those up to and including the first one
      that fails, since that one throws. */
  function RefreshRequests(userId: string, rs: Replies<LostItem, FoundItem, Match>): (r: seq<Request>)
    ensures 1 <= |r| <= 5 && r == AllRequests(userId)[..|r|]
    ensures FirstFailure(rs) < 5 ==> |r| == FirstFailure(rs) + 1
    ensures FirstFailure(rs) == 5 ==> r == AllRequests(userId)
  {
    var k := FirstFailure(rs);
    AllRequests(userId)[..if k < 5 then k + 1 else 5]
  }

  /** `getCurrentLocation()`: there is no web branch; otherwise the same steps
      as in the other variant. With no geocoding result the destructured
      address is undefined, reading its street throws, and the inner catch
      drops the address. */
  function CurrentLocation(permission: string, position: ItemContext.PositionReply, geocode: ItemContext.GeocodeReply): (r: LocationResult)
    ensures r == ItemContext.CurrentLocation(false, permission, position, geocode)
  {
    if permission != "granted" then LocationFailed(ItemContext.PermissionNotGranted)
    else match position
      case PositionFailed(m) => LocationFailed(m)
      case Position(lat, lng) =>
        match geocode
          case Geocoded(results) =>
            if results == [] then Located(Location(lat, lng, None))
            else Located(Location(lat, lng, Some(ItemContext.ComposeAddress(results[0]))))
          case GeocodeFailed(_) => Located(Location(lat, lng, None))
  }

  class SupabaseItemStore {
    var user: Option<string>
    var lostItems: seq<LostItem>
    var foundItems: seq<FoundItem>
    var userLostItems: seq<LostItem>
    var userFoundItems: seq<FoundItem>
    var matches: seq<Match>
    var isLoading: bool

    function Snapshot(): Collections<LostItem, FoundItem, Match>
      reads this
    {
      Collections(lostItems, foundItems, userLostItems, userFoundItems, matches)
    }

    constructor ()
      ensures user == None && Snapshot() == Empty() && !isLoading
    {
      user := None;
      lostItems, foundItems, userLostItems, userFoundItems, matches := [], [], [], [], [];
      isLoading := false;
    }

    /** `refreshData()`: nothing without a user; otherwise the queries run in
        order until one fails, each success replacing its collection, and
        `isLoading` is false at the end either way. */
    method RefreshData(rs: Replies<LostItem, FoundItem, Match>) returns (sent: seq<Request>)
      modifies this
      ensures user == old(user)
      ensures old(user).None? ==> sent == [] && Snapshot() == old(Snapshot()) && isLoading == old(isLoading)
      ensures old(user).Some? ==> sent == RefreshRequests(old(user).value, rs)
      ensures old(user).Some? ==> Snapshot() == RefreshUntilFailure(old(Snapshot()), rs) && !isLoading
    {
      if user.None? {
        return [];
      }
      var userId := user.value;
      isLoading := true;
      var all := AllRequests(userId);
      sent := all[..1];
      if rs.lost.QueryFailed? { isLoading := false; return; }
      lostItems := rs.lost.data.GetOr([]);
      sent := all[..2];
      if rs.found.QueryFailed? { isLoading := false; return; }
      foundItems := rs.found.data.GetOr([]);
      sent := all[..3];
      if rs.userLost.QueryFailed? { isLoading := false; return; }
      userLostItems := rs.userLost.data.GetOr([]);
      sent := all[..4];
      if rs.userFound.QueryFailed? { isLoading := false; return; }
      userFoundItems := rs.userFound.data.GetOr([]);
      sent := all;
      if rs.matches.QueryFailed? { isLoading := false; return; }
      matches := rs.matches.data.GetOr([]);
      isLoading := false;
    }

    /** The effect on `[user]`: a new user triggers a refresh; signing out
        changes nothing, so the previous user's collections stay. */
    method UserChanged(next: Option<string>, rs: Replies<LostItem, FoundItem, Match>) returns (sent: seq<Request>)
      modifies this
      ensures user == next
      ensures next.None? ==> sent == [] && Snapshot() == old(Snapshot()) && isLoading == old(isLoading)
      ensures next.Some? ==> sent == RefreshRequests(next.value, rs)
      ensures next.Some? ==> Snapshot() == RefreshUntilFailure(old(Snapshot()), rs) && !isLoading
    {
      user := next;
      if next.Some? {
        sent := RefreshData(rs);
      } else {
        sent := [];
      }
    }

    /** `reportLostItem(item)`: rejects without a user before any call;
        an insert error is rethrown without a refresh; success refreshes once. */
    method ReportLostItem(item: LostDetails, insert: WriteReply, rs: Replies<LostItem, FoundItem, Match>)
      returns (outcome: Outcome, sent: seq<Request>)
      modifies this
      ensures user == old(user)
      ensures old(user).None? ==> outcome == Threw(NotAuthenticated) && sent == []
      ensures old(user).Some? && insert.WriteFailed? ==>
        outcome == Threw(insert.message) && sent == [InsertLostItem(LostInsertFor(item, old(user).value))]
      ensures old(user).Some? && insert.WriteOk? ==>
        outcome == Resolved && sent == [InsertLostItem(LostInsertFor(item, old(user).value))] + RefreshRequests(old(user).value, rs)
      ensures old(user).Some? && insert.WriteOk? ==> Snapshot() == RefreshUntilFailure(old(Snapshot()), rs) && !isLoading
      ensures !(old(user).Some? && insert.WriteOk?) ==> Snapshot() == old(Snapshot()) && isLoading == old(isLoading)
    {
      if user.None? {
        return Threw(NotAuthenticated), [];
      }
      sent := [InsertLostItem(LostInsertFor(item, user.value))];
      if insert.WriteFailed? {
        return Threw(insert.message), sent;
      }
      var refreshed := RefreshData(rs);
      sent := sent + refreshed;
      outcome := Resolved;
    }

    /** `reportFoundItem(item)`, with the same error and refresh handling. */
    method ReportFoundItem(item: FoundDetails, insert: WriteReply, rs: Replies<LostItem, FoundItem, Match>)
      returns (outcome: Outcome, sent: seq<Request>)
      modifies this
      ensures user == old(user)
      ensures old(user).None? ==> outcome == Threw(NotAuthenticated) && sent == []
      ensures old(user).Some? && insert.WriteFailed? ==>
        outcome == Threw(insert.message) && sent == [InsertFoundItem(FoundInsertFor(item, old(user).value))]
      ensures old(user).Some? && insert.WriteOk? ==>
        outcome == Resolved && sent == [InsertFoundItem(FoundInsertFor(item, old(user).value))] + RefreshRequests(old(user).value, rs)
      ensures old(user).Some? && insert.WriteOk? ==> Snapshot() == RefreshUntilFailure(old(Snapshot()), rs) && !isLoading
      ensures !(old(user).Some? && insert.WriteOk?) ==> Snapshot() == old(Snapshot()) && isLoading == old(isLoading)
    {
      if user.None? {
        return Threw(NotAuthenticated), [];
      }
      sent := [InsertFoundItem(FoundInsertFor(item, user.value))];
      if insert.WriteFailed? {
        return Threw(insert.message), sent;
      }
      var refreshed := RefreshData(rs);
      sent := sent + refreshed;
      outcome := Resolved;
    }
  }
}
