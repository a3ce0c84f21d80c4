/** The item store of `ItemProvider`: five collections and a loading flag,
    refreshed query by query with each query on its own, cleared when the
    user signs out; reports write one row and then refresh; matches are
    confirmed or rejected by a status update. */
module ItemContext {
  import opened Base
  import opened Text
  import opened Backend
  import opened Items

  /** A match in this variant, keyed by a confidence score. */
  datatype Match = Match(
    id: string, lostItemId: string, foundItemId: string, confidenceScore: real,
    status: MatchStatus, createdAt: string,
    lostItem: Option<LostItem>, foundItem: Option<FoundItem>)

  /** A `lost_items` insert row; its required columns are never null. */
  datatype LostRow = LostRow(
    title: string, description: string, category: string, location: string,
    reward: Option<string>, userId: string)

  /** A `found_items` insert row. */
  datatype FoundRow = FoundRow(description: string, category: string, location: string, userId: string)

  /** The calls the store makes on the gateway. */
  datatype Request =
    | SelectLostItems
    | SelectFoundItems
    | SelectUserLostItems(userId: string)
    | SelectUserFoundItems(userId: string)
    | SelectMatches(filter: string)
    | InsertLostItem(lostRow: LostRow)
    | InsertFoundItem(foundRow: FoundRow)
    | UpdateMatchStatus(matchId: string, status: MatchStatus)

  const NotAuthenticated := "User not authenticated"

  /** The row inserted for a lost-item report, with the defaults filled in. */
  function LostRowFor(item: LostDetails, userId: string): (row: LostRow)
    ensures row.title == item.title && row.userId == userId
    ensures row.description == "" || Some(row.description) == item.description
    ensures item.description.Some? && item.description.value != "" ==> row.description == item.description.value
    ensures row.category != ""
    ensures row.category == "Other" || Some(row.category) == item.category
    ensures item.category.Some? && item.category.value != "" ==> row.category == item.category.value
    ensures row.location == "" || Some(row.location) == item.locationAddress
    ensures item.locationAddress.Some? && item.locationAddress.value != "" ==> row.location == item.locationAddress.value
    ensures row.reward.None? <==> item.rewardOffered == 0
    ensures row.reward.Some? && PlainDigitsRange(item.rewardOffered) ==>
      ParseInt(row.reward.value) == Some(item.rewardOffered)
  {
    assert PlainDigitsRange(item.rewardOffered) ==>
      ParseInt(IntToDecimal(item.rewardOffered)) == Some(item.rewardOffered) by {
      if PlainDigitsRange(item.rewardOffered) { DecimalRoundTrip(item.rewardOffered); }
    }
    LostRow(
      item.title,
      OrElse(item.description, ""),
      OrElse(item.category, "Other"),
      OrElse(item.locationAddress, ""),
      if item.rewardOffered == 0 then None else Some(IntToDecimal(item.rewardOffered)),
      userId)
  }

  /** The row inserted for a found-item report: the description falls back to
      the title, then to the empty string. */
  function FoundRowFor(item: FoundDetails, userId: string): (row: FoundRow)
    ensures row.userId == userId
    ensures item.description.Some? && item.description.value != "" ==> row.description == item.description.value
    ensures !(item.description.Some? && item.description.value != "") ==> row.description == item.title
    ensures row.category != ""
    ensures row.category == "Other" || Some(row.category) == item.category
    ensures item.category.Some? && item.category.value != "" ==> row.category == item.category.value
    ensures row.location == "" || Some(row.location) == item.locationAddress
    ensures item.locationAddress.Some? && item.locationAddress.value != "" ==> row.location == item.locationAddress.value
  {
    FoundRow(
      OrElse(item.description, OrElse(Some(item.title), "")),
      OrElse(item.category, "Other"),
      OrElse(item.locationAddress, ""),
      userId)
  }

  function LostIds(items: Option<seq<LostItem>>): Option<seq<string>> {
    if items.None? then None
    else Some(seq(|items.value|, i requires 0 <= i < |items.value| => items.value[i].id))
  }

  function FoundIds(items: Option<seq<FoundItem>>): Option<seq<string>> {
    if items.None? then None
    else Some(seq(|items.value|, i requires 0 <= i < |items.value| => items.value[i].id))
  }

  /** `ids?.join(',') || 'null'` */
  function IdList(ids: Option<seq<string>>): string {
    var joined := if ids.Some? then Join(ids.value, ",") else "";
    if joined == "" then "null" else joined
  }

  /** A missing or empty id list reads as the literal `null`. */
  lemma IdListOfNothing(ids: Option<seq<string>>)
    requires ids.None? || ids == Some([])
    ensures IdList(ids) == "null"
  {
  }

  /** A list of non-empty ids free of commas is written so that splitting it
      on commas gives the ids back, in order. */
  lemma IdListRoundTrip(ids: seq<string>)
    requires |ids| >= 1
    requires forall i :: 0 <= i < |ids| ==> ids[i] != "" && ',' !in ids[i]
    ensures Split(IdList(Some(ids)), ',') == ids
  {
    JoinEmptyIff(ids, ",");
    SplitJoin(ids, ',');
  }

  /** The `or` filter of the matches query, built from the user's lost and
      found items fetched earlier in the same refresh. */
  function MatchFilter(userLost: Option<seq<LostItem>>, userFound: Option<seq<FoundItem>>): string {
    "lost_item_id.in.(" + IdList(LostIds(userLost)) + "),found_item_id.in.(" + IdList(FoundIds(userFound)) + ")"
  }

  /** The filter is built from this refresh's replies, not from the stored
      collections: when both user queries fail it selects no item at all,
      whatever the store still holds. */
  lemma MatchFilterAfterFailures(userId: string, rs: Replies<LostItem, FoundItem, Match>)
    requires rs.userLost.QueryFailed? && rs.userFound.QueryFailed?
    ensures RefreshRequests(userId, rs)[4] == SelectMatches("lost_item_id.in.(" + "null" + "),found_item_id.in.(" + "null" + ")")
  {
    IdListOfNothing(LostIds(None));
    IdListOfNothing(FoundIds(None));
  }

  /** The five queries of one refresh, always all of them. */
  function RefreshRequests(userId: string, rs: Replies<LostItem, FoundItem, Match>): (r: seq<Request>)
    ensures |r| == 5
  {
    [ SelectLostItems, SelectFoundItems, SelectUserLostItems(userId), SelectUserFoundItems(userId),
      SelectMatches(MatchFilter(Rows(rs.userLost), Rows(rs.userFound))) ]
  }

  /** The effect of `update({ status }).eq('id', matchId)` on the match table:
      the row with that id takes the new status, whatever it had before. */
  function ApplyStatusUpdate(table: map<string, MatchStatus>, matchId: string, status: MatchStatus): (r: map<string, MatchStatus>)
    ensures r.Keys == table.Keys
    ensures matchId in table ==> r[matchId] == status
    ensures forall k :: k in table && k != matchId ==> r[k] == table[k]
  {
    if matchId in table then table[matchId := status] else table
  }

  /** Confirming twice is the same as confirming once. */
  lemma ConfirmTwice(table: map<string, MatchStatus>, matchId: string)
    ensures ApplyStatusUpdate(ApplyStatusUpdate(table, matchId, Confirmed), matchId, Confirmed)
         == ApplyStatusUpdate(table, matchId, Confirmed)
  {
  }

  /** Nothing guards the transition: a confirmed match can still be rejected. */
  lemma RejectAfterConfirm(table: map<string, MatchStatus>, matchId: string)
    requires matchId in table
    ensures ApplyStatusUpdate(ApplyStatusUpdate(table, matchId, Confirmed), matchId, Rejected)[matchId] == Rejected
  {
  }

  /** The address fields a reverse-geocoding result offers. */
  datatype GeoAddress = GeoAddress(street: Option<string>, city: Option<string>, region: Option<string>, country: Option<string>)

  /** `filter(Boolean)`: the parts that are present and non-empty, in order. */
  function Present(parts: seq<Option<string>>): (r: seq<string>)
    ensures forall i :: 0 <= i < |r| ==> r[i] != ""
    ensures forall i :: 0 <= i < |parts| && Given(parts[i]) ==> parts[i].value in r
    ensures forall x :: x in r ==> Some(x) in parts
    decreases |parts|
  {
    if parts == [] then []
    else
      var rest := Present(parts[1..]);
      assert forall i :: 1 <= i < |parts| ==> parts[i] == parts[1..][i - 1];
      (if parts[0].Some? && parts[0].value != "" then [parts[0].value] else []) + rest
  }

  /** Street, city, region and country, the non-empty ones, joined by ", ". */
  function ComposeAddress(a: GeoAddress): string {
    Join(Present([a.street, a.city, a.region, a.country]), ", ")
  }

  predicate Given(part: Option<string>) {
    part.Some? && part.value != ""
  }

  function Part(part: Option<string>): seq<string> {
    if Given(part) then [part.value] else []
  }

  /** `filter(Boolean)` on the four address fields, one field at a time. */
  lemma PresentFour(a: GeoAddress)
    ensures Present([a.street, a.city, a.region, a.country])
         == Part(a.street) + (Part(a.city) + (Part(a.region) + Part(a.country)))
  {
    var parts := [a.street, a.city, a.region, a.country];
    assert parts[1..] == [a.city, a.region, a.country];
    assert parts[1..][1..] == [a.region, a.country];
    assert parts[1..][1..][1..] == [a.country];
    assert [a.country][1..] == [];
    assert Present([a.country]) == Part(a.country);
    assert Present([a.region, a.country]) == Part(a.region) + Part(a.country);
    assert Present([a.city, a.region, a.country]) == Part(a.city) + (Part(a.region) + Part(a.country));
  }

  /** The address is empty exactly when no part is given. */
  lemma AddressEmptyIff(a: GeoAddress)
    ensures ComposeAddress(a) == "" <==> !Given(a.street) && !Given(a.city) && !Given(a.region) && !Given(a.country)
  {
    PresentFour(a);
    JoinEmptyIff(Present([a.street, a.city, a.region, a.country]), ", ");
  }

  /** Every part that is given occurs in the address, and a lone part is the
      whole address. */
  lemma AddressKeepsParts(a: GeoAddress)
    ensures Given(a.street) ==> Contains(ComposeAddress(a), a.street.value)
    ensures Given(a.city) ==> Contains(ComposeAddress(a), a.city.value)
    ensures Given(a.region) ==> Contains(ComposeAddress(a), a.region.value)
    ensures Given(a.country) ==> Contains(ComposeAddress(a), a.country.value)
    ensures Given(a.city) && !Given(a.street) && !Given(a.region) && !Given(a.country) ==> ComposeAddress(a) == a.city.value
  {
    PresentFour(a);
    var all := Present([a.street, a.city, a.region, a.country]);
    var p3 := Part(a.country);
    var p2 := Part(a.region) + p3;
    var p1 := Part(a.city) + p2;
    assert all == Part(a.street) + p1;
    if Given(a.street) { JoinContainsEach(all, ", ", 0); }
    if Given(a.city) { assert all[|all| - |p1|] == a.city.value; JoinContainsEach(all, ", ", |all| - |p1|); }
    if Given(a.region) { assert all[|all| - |p2|] == a.region.value; JoinContainsEach(all, ", ", |all| - |p2|); }
    if Given(a.country) { assert all[|all| - 1] == a.country.value; JoinContainsEach(all, ", ", |all| - 1); }
  }

  /** What the location service answers, one step at a time. */
  datatype PositionReply = PositionFailed(message: string) | Position(latitude: Coord, longitude: Coord)
  datatype GeocodeReply = GeocodeFailed(message: string) | Geocoded(results: seq<GeoAddress>)

  /** The fixed answer on the web platform, which has no location service. */
  const WebLocation := Location(40.7128, -74.0060, Some("New York, NY, USA"))
  const PermissionNotGranted := "Location permission not granted"

  /** `getCurrentLocation()`: on the web a fixed location; elsewhere the
      permission must be granted and the position known, and a failed or
      empty reverse geocoding only drops the address. */
  function CurrentLocation(onWeb: bool, permission: string, position: PositionReply, geocode: GeocodeReply): (r: LocationResult)
    ensures onWeb ==> r == Located(WebLocation)
    ensures !onWeb && permission != "granted" ==> r == LocationFailed(PermissionNotGranted)
    ensures !onWeb && permission == "granted" && position.PositionFailed? ==> r == LocationFailed(position.message)
    ensures !onWeb && permission == "granted" && position.Position? ==>
      && r.Located?
      && r.location.latitude == position.latitude && r.location.longitude == position.longitude
      && (r.location.address.Some? <==> geocode.Geocoded? && |geocode.results| > 0)
      && (r.location.address.Some? ==> r.location.address.value == ComposeAddress(geocode.results[0]))
  {
    if onWeb then Located(WebLocation)
    else if permission != "granted" then LocationFailed(PermissionNotGranted)
    else if position.PositionFailed? then LocationFailed(position.message)
    else if geocode.GeocodeFailed? || |geocode.results| == 0 then
      // an empty result list makes `address.street` throw, which the inner catch absorbs
      Located(Location(position.latitude, position.longitude, None))
    else Located(Location(position.latitude, position.longitude, Some(ComposeAddress(geocode.results[0]))))
  }

  class ItemStore {
    /** The id of the signed-in user, as the auth store provides it. */
    var user: Option<string>
    var lostItems: seq<LostItem>
    var foundItems: seq<FoundItem>
    var userLostItems: seq<LostItem>
    var userFoundItems: seq<FoundItem>
    var matches: seq<Match>
    var isLoading: bool

    function Snapshot(): Collections<LostItem, FoundItem, Match>
      reads this
    {
      Collections(lostItems, foundItems, userLostItems, userFoundItems, matches)
    }

    constructor ()
      ensures user == None && Snapshot() == Empty() && !isLoading
    {
      user := None;
      lostItems, foundItems, userLostItems, userFoundItems, matches := [], [], [], [], [];
      isLoading := false;
    }

    /** `refreshData()`: nothing without a user; otherwise five queries, each
        replacing its own collection when it succeeds, and `isLoading` false
        at the end. */
    method RefreshData(rs: Replies<LostItem, FoundItem, Match>) returns (sent: seq<Request>)
      modifies this
      ensures user == old(user)
      ensures old(user).None? ==> sent == [] && Snapshot() == old(Snapshot()) && isLoading == old(isLoading)
      ensures old(user).Some? ==> sent == RefreshRequests(old(user).value, rs)
      ensures old(user).Some? ==> Snapshot() == RefreshEach(old(Snapshot()), rs) && !isLoading
    {
      if user.None? {
        return [];
      }
      var userId := user.value;
      isLoading := true;
      sent := [SelectLostItems];
      if rs.lost.QueryOk? { lostItems := rs.lost.data.GetOr([]); }
      sent := sent + [SelectFoundItems];
      if rs.found.QueryOk? { foundItems := rs.found.data.GetOr([]); }
      sent := sent + [SelectUserLostItems(userId)];
      if rs.userLost.QueryOk? { userLostItems := rs.userLost.data.GetOr([]); }
      sent := sent + [SelectUserFoundItems(userId)];
      if rs.userFound.QueryOk? { userFoundItems := rs.userFound.data.GetOr([]); }
      sent := sent + [SelectMatches(MatchFilter(Rows(rs.userLost), Rows(rs.userFound)))];
      if rs.matches.QueryOk? { matches := rs.matches.data.GetOr([]); }
      isLoading := false;
    }

    /** The effect on `[user]`: a new user triggers a refresh, signing out
        empties all five collections. */
    method UserChanged(next: Option<string>, rs: Replies<LostItem, FoundItem, Match>) returns (sent: seq<Request>)
      modifies this
      ensures user == next
      ensures next.None? ==> sent == [] && Snapshot() == Empty() && isLoading == old(isLoading)
      ensures next.Some? ==> sent == RefreshRequests(next.value, rs)
      ensures next.Some? ==> Snapshot() == RefreshEach(old(Snapshot()), rs) && !isLoading
    {
      user := next;
      if next.Some? {
        sent := RefreshData(rs);
      } else {
        lostItems, foundItems, userLostItems, userFoundItems, matches := [], [], [], [], [];
        sent := [];
      }
    }

    /** `reportLostItem(item)`: rejects without a user before any call;
        otherwise inserts the row, rethrows an insert error without
        refreshing, and refreshes once after a successful insert. */
    method ReportLostItem(item: LostDetails, insert: WriteReply, rs: Replies<LostItem, FoundItem, Match>)
      returns (outcome: Outcome, sent: seq<Request>)
      modifies this
      ensures user == old(user)
      ensures old(user).None? ==> outcome == Threw(NotAuthenticated) && sent == []
      ensures old(user).Some? && insert.WriteFailed? ==>
        outcome == Threw(insert.message) && sent == [InsertLostItem(LostRowFor(item, old(user).value))]
      ensures old(user).Some? && insert.WriteOk? ==>
        outcome == Resolved && sent == [InsertLostItem(LostRowFor(item, old(user).value))] + RefreshRequests(old(user).value, rs)
      ensures old(user).Some? && insert.WriteOk? ==> Snapshot() == RefreshEach(old(Snapshot()), rs) && !isLoading
      ensures !(old(user).Some? && insert.WriteOk?) ==> Snapshot() == old(Snapshot()) && isLoading == old(isLoading)
    {
      if user.None? {
        return Threw(NotAuthenticated), [];
      }
      sent := [InsertLostItem(LostRowFor(item, user.value))];
      if insert.WriteFailed? {
        return Threw(insert.message), sent;
      }
      var refreshed := RefreshData(rs);
      sent := sent + refreshed;
      outcome := Resolved;
    }

    /** `reportFoundItem(item)`, with the same error and refresh handling. */
    method ReportFoundItem(item: FoundDetails, insert: WriteReply, rs: Replies<LostItem, FoundItem, Match>)
      returns (outcome: Outcome, sent: seq<Request>)
      modifies this
      ensures user == old(user)
      ensures old(user).None? ==> outcome == Threw(NotAuthenticated) && sent == []
      ensures old(user).Some? && insert.WriteFailed? ==>
        outcome == Threw(insert.message) && sent == [InsertFoundItem(FoundRowFor(item, old(user).value))]
      ensures old(user).Some? && insert.WriteOk? ==>
        outcome == Resolved && sent == [InsertFoundItem(FoundRowFor(item, old(user).value))] + RefreshRequests(old(user).value, rs)
      ensures old(user).Some? && insert.WriteOk? ==> Snapshot() == RefreshEach(old(Snapshot()), rs) && !isLoading
      ensures !(old(user).Some? && insert.WriteOk?) ==> Snapshot() == old(Snapshot()) && isLoading == old(isLoading)
    {
      if user.None? {
        return Threw(NotAuthenticated), [];
      }
      sent := [InsertFoundItem(FoundRowFor(item, user.value))];
      if insert.WriteFailed? {
        return Threw(insert.message), sent;
      }
      var refreshed := RefreshData(rs);
      sent := sent + refreshed;
      outcome := Resolved;
    }

    /** The status write shared by `confirmMatch` and `rejectMatch`: no user
        check and no look at the current status; an error is rethrown without
        a refresh, success is followed by one refresh. */
    method SetMatchStatus(matchId: string, status: MatchStatus, update: WriteReply, rs: Replies<LostItem, FoundItem, Match>)
      returns (outcome: Outcome, sent: seq<Request>)
      modifies this
      ensures user == old(user)
      ensures update.WriteFailed? ==> outcome == Threw(update.message)
      ensures update.WriteOk? ==> outcome == Resolved
      ensures update.WriteOk? && old(user).Some? ==>
        && sent == [UpdateMatchStatus(matchId, status)] + RefreshRequests(old(user).value, rs)
        && Snapshot() == RefreshEach(old(Snapshot()), rs) && !isLoading
      ensures !(update.WriteOk? && old(user).Some?) ==>
        sent == [UpdateMatchStatus(matchId, status)] && Snapshot() == old(Snapshot()) && isLoading == old(isLoading)
    {
      sent := [UpdateMatchStatus(matchId, status)];
      if update.WriteFailed? {
        return Threw(update.message), sent;
      }
      var refreshed := RefreshData(rs);
      sent := sent + refreshed;
      outcome := Resolved;
    }

    /** `confirmMatch(matchId)` */
    method ConfirmMatch(matchId: string, update: WriteReply, rs: Replies<LostItem, FoundItem, Match>)
      returns (outcome: Outcome, sent: seq<Request>)
      modifies this
      ensures user == old(user)
      ensures update.WriteFailed? ==> outcome == Threw(update.message)
      ensures update.WriteOk? ==> outcome == Resolved
      ensures update.WriteOk? && old(user).Some? ==>
        && sent == [UpdateMatchStatus(matchId, Confirmed)] + RefreshRequests(old(user).value, rs)
        && Snapshot() == RefreshEach(old(Snapshot()), rs) && !isLoading
      ensures !(update.WriteOk? && old(user).Some?) ==>
        sent == [UpdateMatchStatus(matchId, Confirmed)] && Snapshot() == old(Snapshot()) && isLoading == old(isLoading)
    {
      outcome, sent := SetMatchStatus(matchId, Confirmed, update, rs);
    }

    /** `rejectMatch(matchId)` */
    method RejectMatch(matchId: string, update: WriteReply, rs: Replies<LostItem, FoundItem, Match>)
      returns (outcome: Outcome, sent: seq<Request>)
      modifies this
      ensures user == old(user)
      ensures update.WriteFailed? ==> outcome == Threw(update.message)
      ensures update.WriteOk? ==> outcome == Resolved
      ensures update.WriteOk? && old(user).Some? ==>
        && sent == [UpdateMatchStatus(matchId, Rejected)] + RefreshRequests(old(user).value, rs)
        && Snapshot() == RefreshEach(old(Snapshot()), rs) && !isLoading
      ensures !(update.WriteOk? && old(user).Some?) ==>
        sent == [UpdateMatchStatus(matchId, Rejected)] && Snapshot() == old(Snapshot()) && isLoading == old(isLoading)
    {
      outcome, sent := SetMatchStatus(matchId, Rejected, update, rs);
    }
  }
}
