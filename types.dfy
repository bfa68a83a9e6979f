/**
 * The records of the marketplace: listings (`Property`), the people who own or rent
 * them, and the conversations between the two.
 */
module Types {
  import opened Wrappers

  /** The kinds of listing. */
  datatype PropertyType = Apartment | Room | Bedspace | Commercial | House | Car

  /** Whether a listing comes furnished. */
  datatype Furnishing = Furnished | Unfurnished

  /** Every listing kind, in declaration order. */
  const AllPropertyTypes: seq<PropertyType> := [Apartment, Room, Bedspace, Commercial, House, Car]

  /** The string tag a listing kind carries in the application (`'apartment'`, ...). */
  function TypeName(t: PropertyType): string {
    match t
    case Apartment => "apartment"
    case Room => "room"
    case Bedspace => "bedspace"
    case Commercial => "commercial"
    case House => "house"
    case Car => "car"
  }

  /** The listing kind a string tag names, if any. */
  function ParsePropertyType(s: string): (r: Option<PropertyType>)
    ensures r.Some? ==> TypeName(r.value) == s
  {
    if s == "apartment" then Some(Apartment)
    else if s == "room" then Some(Room)
    else if s == "bedspace" then Some(Bedspace)
    else if s == "commercial" then Some(Commercial)
    else if s == "house" then Some(House)
    else if s == "car" then Some(Car)
    else None
  }

  /** Exactly six kinds exist, all listed once in `AllPropertyTypes`, and their tags are six different strings. */
  lemma PropertyTypeHasSixValues()
    ensures |AllPropertyTypes| == 6
    ensures forall t: PropertyType :: t in AllPropertyTypes
    ensures forall i, j :: 0 <= i < j < |AllPropertyTypes| ==>
      TypeName(AllPropertyTypes[i]) != TypeName(AllPropertyTypes[j])
  {
    forall t: PropertyType ensures t in AllPropertyTypes {
      match t
      case Apartment => assert AllPropertyTypes[0] == t;
      case Room => assert AllPropertyTypes[1] == t;
      case Bedspace => assert AllPropertyTypes[2] == t;
      case Commercial => assert AllPropertyTypes[3] == t;
      case House => assert AllPropertyTypes[4] == t;
      case Car => assert AllPropertyTypes[5] == t;
    }
  }

  /** Tags and kinds correspond one to one: parsing a tag recovers the kind, and only tags parse. */
  lemma {:induction false} PropertyTypeTagRoundTrip(t: PropertyType, s: string)
    ensures ParsePropertyType(TypeName(t)) == Some(t)
    ensures ParsePropertyType(s) == Some(t) <==> s == TypeName(t)
  {
    match t
    case Apartment =>
    case Room =>
    case Bedspace =>
    case Commercial =>
    case House =>
    case Car =>
  }

  /** Exactly two furnishing states exist. */
  lemma FurnishingHasTwoValues(f: Furnishing)
    ensures f == Furnished || f == Unfurnished
    ensures Furnished != Unfurnished
  {
  }

  datatype Owner = Owner(id: string, name: string, avatar: string, email: string, phone: Option<string>)

  datatype Renter = Renter(id: string, name: string, avatar: string)

  /** `details`: every measurement is optional. */
  datatype Details = Details(beds: Option<int>, baths: Option<int>, sqft: Option<int>)

  const NoDetails := Details(None, None, None)

  datatype Analytics = Analytics(views: int, inquiries: int)

  /**
   * A listing. `price` is the monthly amount (a JavaScript number; whole numbers here).
   * `paused` and `analytics` may be absent.
   */
  datatype Property = Property(
    id: string,
    title: string,
    description: string,
    propertyType: PropertyType,
    price: int,
    location: string,
    images: seq<string>,
    featured: bool,
    ownerId: string,
    details: Details,
    amenities: seq<string>,
    availableNow: bool,
    furnishing: Furnishing,
    paused: Option<bool>,
    analytics: Option<Analytics>)

  datatype Message = Message(id: string, senderId: string, text: string, timestamp: string)

  /** The part of a listing a conversation quotes. */
  datatype PropertyRef = PropertyRef(id: string, title: string, image: string)

  /** A thread between exactly one owner and exactly one renter about one listing. */
  datatype Conversation = Conversation(
    id: string,
    property: PropertyRef,
    owner: Owner,
    renter: Renter,
    messages: seq<Message>)

  /** What a well-formed listing has: a positive price and at least one image. */
  predicate WellFormed(p: Property) {
    p.price > 0 && |p.images| >= 1
  }

  /** No two listings of `s` share an id. */
  predicate UniqueIds(s: seq<Property>) {
    forall i, j :: 0 <= i < j < |s| ==> s[i].id != s[j].id
  }

  /** The ids of a sequence of listings, in order. */
  function Ids(s: seq<Property>): (r: seq<string>)
    ensures |r| == |s|
    ensures forall k :: 0 <= k < |s| ==> r[k] == s[k].id
  {
    if s == [] then [] else [s[0].id] + Ids(s[1..])
  }
}
