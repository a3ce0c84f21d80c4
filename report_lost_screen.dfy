/** The lost-item report screen: its form record, the reward field's parse,
    the location button, and the submit that checks the title and category,
    fetches a location when the form has none, and hands the form to the item
    store of `ItemProvider`. */
module ReportLostScreen {
  import opened Base
  import opened Text
  import opened Backend
  import opened Items
  import ItemContext

  /** `formData`: every text field is a plain string, the coordinates may be
      unset, and the reward is a number. */
  datatype LostForm = LostForm(
    title: string,
    description: string,
    category: string,
    locationLat: Option<Coord>,
    locationLng: Option<Coord>,
    locationAddress: string,
    dateLost: string,
    rewardOffered: int)

  // ---------------------------------------------------------------------
  // The reward field.

  /** `parseInt(text) || 0`: `NaN` and zero are both falsy, so both read as 0. */
  function RewardFromText(text: string): (n: int)
    ensures ParseInt(text) == Some(n) || (ParseInt(text).None? && n == 0)
  {
    ParseInt(text).GetOr(0)
  }

  /** When no digit follows the leading white space and an optional sign
      (an empty field, a word, a lone sign), `parseInt` gives `NaN` and the
      reward is 0. */
  lemma RewardOfNaN(text: string)
    requires Unsigned(text) == [] || !IsDigit(Unsigned(text)[0])
    ensures RewardFromText(text) == 0
  {
    ParseIntNaNIff(text);
  }

  /** Leading digits give their value, whatever text follows them. */
  lemma RewardOfDigitPrefix(ds: string, rest: string)
    requires ds != [] && forall i :: 0 <= i < |ds| ==> IsDigit(ds[i])
    requires rest == [] || !IsDigit(rest[0])
    ensures RewardFromText(ds + rest) == DigitsValue(ds)
  {
    DigitPrefixParse(ds, rest);
  }

  /** The field shows `reward_offered.toString()`; reading that text back
      gives the same reward, so an untouched field never changes it (for any
      reward `toString` writes in plain digits). */
  lemma RewardShownRoundTrip(n: int)
    requires PlainDigitsRange(n)
    ensures RewardFromText(IntToDecimal(n)) == n
  {
    DecimalRoundTrip(n);
  }

  // ---------------------------------------------------------------------
  // Location.

  /** `!lat`: an unset coordinate and a zero coordinate are both falsy. */
  predicate Unset(c: Option<Coord>) {
    c.None? || c.value == 0.0
  }

  /** The submit asks for a location when either coordinate is falsy. */
  predicate NeedsLocation(f: LostForm) {
    Unset(f.locationLat) || Unset(f.locationLng)
  }

  /** The form after the location button: both coordinates and the address
      (empty when none came back) are taken from the location. */
  function Captured(f: LostForm, loc: Location): (g: LostForm)
    ensures g.locationLat == Some(loc.latitude) && g.locationLng == Some(loc.longitude)
    ensures g.locationAddress == (if loc.address.Some? then loc.address.value else "")
    ensures g.(locationLat := f.locationLat, locationLng := f.locationLng, locationAddress := f.locationAddress) == f
  {
    f.(locationLat := Some(loc.latitude), locationLng := Some(loc.longitude),
       locationAddress := OrElse(loc.address, ""))
  }

  /** The form a submit reports from after fetching a location: the
      coordinates are replaced, the address only when a non-empty one came back. */
  function WithLocation(f: LostForm, loc: Location): (g: LostForm)
    ensures g.locationLat == Some(loc.latitude) && g.locationLng == Some(loc.longitude)
    ensures loc.address.Some? && loc.address.value != "" ==> g.locationAddress == loc.address.value
    ensures !(loc.address.Some? && loc.address.value != "") ==> g.locationAddress == f.locationAddress
    ensures g.(locationLat := f.locationLat, locationLng := f.locationLng, locationAddress := f.locationAddress) == f
  {
    f.(locationLat := Some(loc.latitude), locationLng := Some(loc.longitude),
       locationAddress := OrElse(loc.address, f.locationAddress))
  }

  /** The two merges differ only when the location has no address: the
      button then blanks the address, the submit keeps the typed one. */
  lemma MergesDiffer(f: LostForm, loc: Location)
    ensures Captured(f, loc) == WithLocation(f, loc) <==> f.locationAddress == "" || (loc.address.Some? && loc.address.value != "")
  {
    if Captured(f, loc) == WithLocation(f, loc) {
      assert Captured(f, loc).locationAddress == WithLocation(f, loc).locationAddress;
    }
  }

  // ---------------------------------------------------------------------
  // Submit.

  /** The two checks before anything is sent, the title's first. */
  datatype Guard = MissingTitle | MissingCategory | Ready

  function SubmitGuard(f: LostForm): (g: Guard)
    ensures g == MissingTitle <==> IsBlank(f.title)
    ensures g == MissingCategory <==> !IsBlank(f.title) && f.category == ""
    ensures g == Ready <==> !IsBlank(f.title) && f.category != ""
  {
    if IsBlank(f.title) then MissingTitle
    else if f.category == "" then MissingCategory
    else Ready
  }

  /** The object passed to `reportLostItem`: the eight form fields, as they are. */
  function Payload(f: LostForm): (d: LostDetails)
    ensures d.title == f.title && d.description == Some(f.description) && d.category == Some(f.category)
    ensures d.locationLat == f.locationLat && d.locationLng == f.locationLng
    ensures d.locationAddress == Some(f.locationAddress) && d.dateLost == Some(f.dateLost)
    ensures d.rewardOffered == f.rewardOffered && d.imageUrl.None?
  {
    LostDetails(f.title, Some(f.description), Some(f.category), f.locationLat, f.locationLng,
                Some(f.locationAddress), Some(f.dateLost), None, f.rewardOffered)
  }

  /** What a submit that passed its checks reports, or `None` when the
      location it had to fetch could not be had. */
  function Report(f: LostForm, location: LocationResult): (d: Option<LostDetails>)
    ensures !NeedsLocation(f) ==> d == Some(Payload(f))
    ensures NeedsLocation(f) ==> (d.Some? <==> location.Located?)
    ensures NeedsLocation(f) && location.Located? ==>
      d.value.locationLat == Some(location.location.latitude) && d.value.locationLng == Some(location.location.longitude)
  {
    if !NeedsLocation(f) then Some(Payload(f))
    else if location.LocationFailed? then None
    else Some(Payload(WithLocation(f, location.location)))
  }

  /** A form that passed the checks reaches the `lost_items` row intact: title,
      description, category and address unchanged, and no reward exactly
      when the reward is zero. */
  lemma SubmittedRow(f: LostForm, location: LocationResult, userId: string)
    requires SubmitGuard(f) == Ready && Report(f, location).Some?
    ensures var row := ItemContext.LostRowFor(Report(f, location).value, userId);
      && row.title == f.title && row.description == f.description && row.category == f.category
      && row.userId == userId
      && (row.location == f.locationAddress
          || (NeedsLocation(f) && Some(row.location) == location.location.address))
      && (row.reward.None? <==> f.rewardOffered == 0)
  {
    var d := Report(f, location).value;
    var row := ItemContext.LostRowFor(d, userId);
    if d.description.value == "" { assert row.description == ""; }
    if !NeedsLocation(f) || (location.location.address.None? || location.location.address.value == "") {
      assert d.locationAddress == Some(f.locationAddress);
      if f.locationAddress == "" { assert row.location == ""; }
    }
  }

  const TitleAlert := "Please enter a title for the lost item."
  const CategoryAlert := "Please select a category."
  const FailedAlert := "Failed to report lost item. Please try again."
  const LocationCapturedAlert := "Location captured successfully!"
  const LocationErrorAlert := "Could not get your location. Please try again."

  /** How a submit ends: a check failed, the report failed, or it was made. */
  datatype SubmitOutcome = TitleMissing | CategoryMissing | ReportFailed | Submitted

  /** The alert shown for each outcome; a successful report shows the
      success modal instead. */
  function AlertFor(o: SubmitOutcome): (a: Option<string>)
    ensures a.None? <==> o.Submitted?
  {
    match o
    case TitleMissing => Some(TitleAlert)
    case CategoryMissing => Some(CategoryAlert)
    case ReportFailed => Some(FailedAlert)
    case Submitted => None
  }

  class ReportLostForm {
    var form: LostForm
    var isLoading: bool
    var showSuccessModal: bool

    /** The screen opens with an empty form dated today, no coordinates and
        no reward. */
    constructor (today: string)
      ensures form == LostForm("", "", "", None, None, "", today, 0)
      ensures !isLoading && !showSuccessModal
    {
      form := LostForm("", "", "", None, None, "", today, 0);
      isLoading, showSuccessModal := false, false;
    }

    /** `onChangeText` of the reward field. */
    method SetReward(text: string)
      modifies this`form
      ensures form == old(form).(rewardOffered := RewardFromText(text))
    {
      form := form.(rewardOffered := RewardFromText(text));
    }

    /** `handleGetLocation()`: a location fills the coordinates and the
        address; a failure leaves the form as it was. `isLoading` ends false
        either way. */
    method HandleGetLocation(location: LocationResult) returns (alert: string)
      modifies this`form, this`isLoading
      ensures !isLoading
      ensures location.Located? ==> form == Captured(old(form), location.location) && alert == LocationCapturedAlert
      ensures location.LocationFailed? ==> form == old(form) && alert == LocationErrorAlert
    {
      isLoading := true;
      if location.Located? {
        form := Captured(form, location.location);
        alert := LocationCapturedAlert;
      } else {
        alert := LocationErrorAlert;
      }
      isLoading := false;
    }

    /** `handleSubmit()`: the title and then the category are checked before
        anything else; then a location is fetched if the form lacks one and
        the form is reported through the store. The form itself is never
        changed, and `isLoading` ends false on every path past the checks. */
    method HandleSubmit(store: ItemContext.ItemStore, location: LocationResult, insert: WriteReply,
                        rs: Replies<LostItem, FoundItem, ItemContext.Match>)
      returns (outcome: SubmitOutcome, sent: seq<ItemContext.Request>)
      modifies this`isLoading, this`showSuccessModal, store
      ensures form == old(form) && store.user == old(store.user)
      ensures outcome == TitleMissing <==> SubmitGuard(old(form)) == MissingTitle
      ensures outcome == CategoryMissing <==> SubmitGuard(old(form)) == MissingCategory
      ensures SubmitGuard(old(form)) != Ready ==>
        sent == [] && isLoading == old(isLoading) && showSuccessModal == old(showSuccessModal)
        && store.Snapshot() == old(store.Snapshot()) && store.isLoading == old(store.isLoading)
      ensures SubmitGuard(old(form)) == Ready ==> !isLoading
      ensures outcome == Submitted <==>
        SubmitGuard(old(form)) == Ready && Report(old(form), location).Some? && old(store.user).Some? && insert.WriteOk?
      ensures outcome == Submitted ==>
        var row := ItemContext.LostRowFor(Report(old(form), location).value, old(store.user).value);
        && showSuccessModal
        && sent == [ItemContext.InsertLostItem(row)] + ItemContext.RefreshRequests(old(store.user).value, rs)
        && store.Snapshot() == RefreshEach(old(store.Snapshot()), rs)
      ensures outcome != Submitted ==>
        store.Snapshot() == old(store.Snapshot()) && showSuccessModal == old(showSuccessModal)
      ensures outcome == ReportFailed ==>
        && sent == (if Report(old(form), location).Some? && old(store.user).Some?
                    then [ItemContext.InsertLostItem(ItemContext.LostRowFor(Report(old(form), location).value, old(store.user).value))]
                    else [])
        && store.isLoading == old(store.isLoading)
      ensures outcome == Submitted ==> !store.isLoading
    {
      var guard := SubmitGuard(form);
      if guard == MissingTitle {
        return TitleMissing, [];
      }
      if guard == MissingCategory {
        return CategoryMissing, [];
      }
      isLoading := true;
      var details: LostDetails;
      if NeedsLocation(form) {
        if location.LocationFailed? {
          isLoading := false;
          return ReportFailed, [];
        }
        details := Payload(WithLocation(form, location.location));
      } else {
        details := Payload(form);
      }
      var reported: Outcome;
      reported, sent := store.ReportLostItem(details, insert, rs);
      if reported.Resolved? {
        showSuccessModal := true;
        outcome := Submitted;
      } else {
        outcome := ReportFailed;
      }
      isLoading := false;
    }
  }
}
