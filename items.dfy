/** The records both item stores share: lost and found items as the screens
    read them, the fields a caller supplies when reporting one, match status,
    and the location a report carries. */
module Items {
  import opened Base

  /** A latitude or longitude. Only stored, compared with zero and passed on. */
  type Coord = real

  /** The fields a caller supplies when reporting a lost item: the item less
      its id, owner, `is_found` flag and timestamps. */
  datatype LostDetails = LostDetails(
    title: string,
    description: Option<string>,
    category: Option<string>,
    locationLat: Option<Coord>,
    locationLng: Option<Coord>,
    locationAddress: Option<string>,
    dateLost: Option<string>,
    imageUrl: Option<string>,
    rewardOffered: int)

  datatype LostItem = LostItem(
    id: string, userId: string, details: LostDetails, isFound: bool,
    createdAt: string, updatedAt: string)

  /** The fields a caller supplies when reporting a found item. */
  datatype FoundDetails = FoundDetails(
    title: string,
    description: Option<string>,
    category: Option<string>,
    locationLat: Option<Coord>,
    locationLng: Option<Coord>,
    locationAddress: Option<string>,
    dateFound: Option<string>,
    imageUrl: Option<string>)

  datatype FoundItem = FoundItem(
    id: string, userId: string, details: FoundDetails, isMatched: bool,
    createdAt: string, updatedAt: string)

  datatype MatchStatus = Pending | Confirmed | Rejected

  /** What the location service reports: coordinates and, when reverse
      geocoding worked, an address. */
  datatype Location = Location(latitude: Coord, longitude: Coord, address: Option<string>)

  /** `getCurrentLocation()` resolves with a location or rejects with a message. */
  datatype LocationResult = Located(location: Location) | LocationFailed(message: string)
}
