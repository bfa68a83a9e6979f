/**
 * The create-listing page: who may see it, the validation schema of its form, and the
 * record it builds and prepends to the store on a valid submit.
 */
module CreateListingPage {
  import opened Wrappers
  import opened Types
  import opened Text
  import opened Auth
  import PropertyStore

  /** The values the form hands to its schema; dates are millisecond timestamps, files are counted. */
  datatype ListingFormValues = ListingFormValues(
    title: string,
    propertyType: Option<string>,
    monthlyRent: int,
    advance: int,
    deposit: int,
    location: string,
    availableFrom: Option<int>,
    rules: Option<string>,
    description: string,
    photoCount: nat)

  /** The fields the schema can reject. */
  datatype ListingField =
    | Title | PropertyTypeField | MonthlyRent | Advance | Deposit | Location | AvailableFrom | Description | Photos

  /** The four kinds this form offers. */
  function ListingKind(s: string): (r: Option<PropertyType>)
    ensures r.Some? <==> s in {"apartment", "room", "bedspace", "commercial"}
    ensures r.Some? ==> TypeName(r.value) == s
  {
    if s == "apartment" then Some(Apartment)
    else if s == "room" then Some(Room)
    else if s == "bedspace" then Some(Bedspace)
    else if s == "commercial" then Some(Commercial)
    else None
  }

  /** The fields `listingFormSchema` rejects; the form submits only when there are none. */
  function ListingErrors(v: ListingFormValues): (errs: set<ListingField>)
    ensures errs == {} <==>
      Utf16Length(v.title) >= 5 && Utf16Length(v.location) >= 5 && Utf16Length(v.description) >= 20 &&
      v.propertyType.Some? && v.propertyType.value in {"apartment", "room", "bedspace", "commercial"} &&
      v.monthlyRent > 0 && v.advance >= 0 && v.deposit >= 0 &&
      v.availableFrom.Some? && v.photoCount > 0
  {
    (if Utf16Length(v.title) < 5 then {Title} else {}) +
    (if v.propertyType.None? || ListingKind(v.propertyType.value).None? then {PropertyTypeField} else {}) +
    (if v.monthlyRent <= 0 then {MonthlyRent} else {}) +
    (if v.advance < 0 then {Advance} else {}) +
    (if v.deposit < 0 then {Deposit} else {}) +
    (if Utf16Length(v.location) < 5 then {Location} else {}) +
    (if v.availableFrom.None? then {AvailableFrom} else {}) +
    (if Utf16Length(v.description) < 20 then {Description} else {}) +
    (if v.photoCount == 0 then {Photos} else {})
  }

  /** The title limit counts code units: two letters and two emoji are long enough. */
  lemma EmojiTitleLongEnough(v: ListingFormValues)
    requires v.title == "ab\U{1F600}\U{1F600}"
    ensures Title !in ListingErrors(v)
  {
    Utf16LengthOfEmojiTitle();
  }

  /** The placeholder image every new listing gets. */
  const PlaceholderImage: string := "https://placehold.co/600x400.png"

  /** The owner every new listing is filed under, fixed in the page. */
  const NewListingOwner: string := "owner-1"

  /** `prop-${Date.now()}`. */
  function NewId(now: nat): string {
    "prop-" + Decimal(now)
  }

  /** `newProperty` as `onSubmit` builds it from validated values, at time `now`. */
  function NewProperty(v: ListingFormValues, now: nat): (p: Property)
    requires ListingErrors(v) == {}
    ensures p.id == NewId(now) && p.title == v.title && p.description == v.description && p.location == v.location
    ensures TypeName(p.propertyType) == v.propertyType.value && p.price == v.monthlyRent
    ensures !p.featured && p.ownerId == NewListingOwner && p.furnishing == Unfurnished
    ensures p.images == [PlaceholderImage] && p.amenities == ["WiFi", "Kitchen"] && p.details == NoDetails
    ensures p.availableNow <==> now >= v.availableFrom.value
    ensures p.paused.None? && p.analytics.None?
  {
    Property(
      NewId(now), v.title, v.description, ListingKind(v.propertyType.value).value, v.monthlyRent,
      v.location, [PlaceholderImage], false, NewListingOwner, NoDetails, ["WiFi", "Kitchen"],
      now >= v.availableFrom.value, Unfurnished, None, None)
  }

  /** A record built from values the schema accepts is well formed: positive price, one image. */
  lemma NewPropertyWellFormed(v: ListingFormValues, now: nat)
    requires ListingErrors(v) == {}
    ensures WellFormed(NewProperty(v, now))
    ensures NewProperty(v, now).propertyType in {Apartment, Room, Bedspace, Commercial}
  {
  }

  /** Listings created at different instants get different ids. */
  lemma NewIdsDiffer(a: nat, b: nat)
    requires a != b
    ensures NewId(a) != NewId(b)
  {
    if NewId(a) == NewId(b) {
      PrefixedDecimalInjective("prop-", a, b);
    }
  }

  /**
   * The redirect effect: to the login page when the session is definitely absent, or present
   * with a role other than owner. `None` is the unknown state the page allows for.
   */
  predicate Redirects(isAuthenticated: Option<bool>, role: Option<Role>) {
    isAuthenticated == Some(false) || (isAuthenticated == Some(true) && role != Some(Role.Owner))
  }

  /** The form is rendered (instead of a skeleton) only for an authenticated owner. */
  predicate ShowsForm(isAuthenticated: Option<bool>, role: Option<Role>) {
    isAuthenticated == Some(true) && role == Some(Role.Owner)
  }

  /**
   * With a definite session the page either shows the form or redirects, never both; while the
   * session is unknown it does neither.
   */
  lemma AccessRule(isAuthenticated: Option<bool>, role: Option<Role>)
    ensures isAuthenticated.Some? ==> (Redirects(isAuthenticated, role) <==> !ShowsForm(isAuthenticated, role))
    ensures isAuthenticated.None? ==> !Redirects(isAuthenticated, role) && !ShowsForm(isAuthenticated, role)
  {
    match isAuthenticated
    case None =>
    case Some(b) =>
      if b {
        assert Redirects(isAuthenticated, role) <==> role != Some(Role.Owner);
      } else {
        assert Redirects(isAuthenticated, role);
      }
  }

  /** One day in milliseconds. */
  const DayMillis: int := 86_400_000

  /** The start of the day containing `now` (what `setHours(0, 0, 0, 0)` gives, in UTC). */
  function StartOfDay(now: int): (r: int)
    ensures r <= now < r + DayMillis
    ensures r % DayMillis == 0
  {
    now - now % DayMillis
  }

  /** The calendar disables every date before the start of today. */
  predicate DateSelectable(date: int, now: int) {
    !(date < StartOfDay(now))
  }

  /** Every instant from now on is selectable, and every selectable instant lies at most a day in the past. */
  lemma SelectableDates(date: int, now: int)
    ensures date >= now ==> DateSelectable(date, now)
    ensures DateSelectable(date, now) ==> date > now - DayMillis
  {
  }

  /**
   * `form.handleSubmit(onSubmit)`: when the schema accepts the values, build the record and
   * prepend it with `addProperty`; otherwise the store is untouched.
   */
  method Submit(store: PropertyStore.PropertyProvider, v: ListingFormValues, now: nat) returns (errs: set<ListingField>)
    modifies store
    ensures errs == ListingErrors(v)
    ensures errs == {} ==> store.properties == [NewProperty(v, now)] + old(store.properties)
    ensures errs != {} ==> store.properties == old(store.properties)
  {
    errs := ListingErrors(v);
    if errs == {} {
      store.AddProperty(NewProperty(v, now));
    }
  }
}
