/**
 * The listings page: a type filter over the store, taken initially from the `type`
 * query parameter, and a grid/list/map view toggle.
 */
module Listings {
  import opened Wrappers
  import opened Types
  import opened Seqs
  import MockData

  /** The filter value that selects everything. */
  const All: string := "all"

  /**
   * The filter predicate: everything under `all`, else the records whose type tag equals the
   * filter. The filter is a plain string (the query value is cast, not checked).
   */
  function Matches(filter: string): Property -> bool {
    (p: Property) => filter == All || TypeName(p.propertyType) == filter
  }

  /** `filteredProperties`. */
  function FilteredProperties(store: seq<Property>, filter: string): seq<Property> {
    Filter(store, Matches(filter))
  }

  /** `searchParams.get('type') || 'all'`: an absent or empty parameter means `all`. */
  function InitialFilter(typeParam: Option<string>): (r: string)
    ensures typeParam.Some? && typeParam.value != "" ==> r == typeParam.value
    ensures typeParam.None? || typeParam.value == "" ==> r == All
  {
    match typeParam
    case Some(v) => if v != "" then v else All
    case None => All
  }

  /** With filter `all` the page shows the whole store in store order. */
  lemma {:induction false} AllShowsEverything(store: seq<Property>)
    ensures FilteredProperties(store, All) == store
  {
    FilterKeepsAll(store, Matches(All));
  }

  /**
   * With the tag of a kind `t`, the page shows exactly the records of kind `t`: each one
   * shown is of kind `t`, each of kind `t` is shown, and the order is the store's; in all,
   * the result is the store filtered by kind, with every record as often as in the store.
   */
  lemma {:induction false} TypeFilterExact(store: seq<Property>, t: PropertyType)
    ensures forall k :: 0 <= k < |FilteredProperties(store, TypeName(t))| ==>
      FilteredProperties(store, TypeName(t))[k].propertyType == t
    ensures forall k :: 0 <= k < |store| && store[k].propertyType == t ==>
      store[k] in FilteredProperties(store, TypeName(t))
    ensures IsSubsequence(FilteredProperties(store, TypeName(t)), store)
    ensures FilteredProperties(store, TypeName(t)) == Filter(store, (p: Property) => p.propertyType == t)
  {
    var r := FilteredProperties(store, TypeName(t));
    FilterIsSubsequence(store, Matches(TypeName(t)));
    FilterMembers(store, Matches(TypeName(t)));
    forall k | 0 <= k < |r| ensures r[k].propertyType == t {
      assert Matches(TypeName(t))(r[k]);
      PropertyTypeTagRoundTrip(t, TypeName(r[k].propertyType));
      PropertyTypeTagRoundTrip(r[k].propertyType, TypeName(t));
    }
    forall k | 0 <= k < |store| && store[k].propertyType == t ensures store[k] in r {
      assert Matches(TypeName(t))(store[k]);
    }
    forall k | 0 <= k < |store|
      ensures Matches(TypeName(t))(store[k]) == ((p: Property) => p.propertyType == t)(store[k])
    {
      PropertyTypeTagRoundTrip(store[k].propertyType, TypeName(t));
      PropertyTypeTagRoundTrip(t, TypeName(store[k].propertyType));
    }
    FilterCongruent(store, Matches(TypeName(t)), (p: Property) => p.propertyType == t);
  }

  /** Whatever the filter, the result is a subsequence of the store. */
  lemma {:induction false} FilterIsSubsequenceOfStore(store: seq<Property>, filter: string)
    ensures IsSubsequence(FilteredProperties(store, filter), store)
  {
    FilterIsSubsequence(store, Matches(filter));
  }

  /** A filter value that is neither `all` nor a type tag matches nothing. */
  lemma {:induction false} UnknownFilterMatchesNothing(store: seq<Property>, filter: string)
    requires filter != All && ParsePropertyType(filter).None?
    ensures FilteredProperties(store, filter) == []
  {
    forall k | 0 <= k < |store| ensures !Matches(filter)(store[k]) {
      PropertyTypeTagRoundTrip(store[k].propertyType, filter);
    }
    FilterKeepsNone(store, Matches(filter));
  }

  /** What the page body renders. */
  datatype Display = MapPlaceholder | Cards(items: seq<Property>, grid: bool) | NoListingsFound

  /** The map view shows a placeholder; otherwise cards, or "No Listings Found" when the result is empty. */
  function Render(view: string, store: seq<Property>, filter: string): (d: Display)
    ensures d.MapPlaceholder? <==> view == "map"
    ensures d.NoListingsFound? <==> view != "map" && FilteredProperties(store, filter) == []
    ensures d.Cards? ==> d.items == FilteredProperties(store, filter) && |d.items| > 0 && (d.grid <==> view == "grid")
  {
    if view == "map" then MapPlaceholder
    else if |FilteredProperties(store, filter)| > 0 then Cards(FilteredProperties(store, filter), view == "grid")
    else NoListingsFound
  }

  /** The seed filtered by `apartment` is prop-1 then prop-5. */
  lemma SeedApartments()
    ensures Ids(FilteredProperties(MockData.Properties, "apartment")) == ["prop-1", "prop-5"]
  {
    var s := MockData.Properties;
    var f := Matches("apartment");
    assert s[5..] == [] && s[4..][1..] == s[5..];
    assert Filter(s[4..], f) == [s[4]];
    assert s[3..][1..] == s[4..] && Filter(s[3..], f) == [s[4]];
    assert s[2..][1..] == s[3..] && Filter(s[2..], f) == [s[4]];
    assert s[1..][1..] == s[2..] && Filter(s[1..], f) == [s[4]];
    assert Filter(s, f) == [s[0], s[4]];
  }

  /** The page state: the view mode and the type filter. */
  class ListingsPage {
    var view: string
    var filter: string

    /** The page mounts in grid view with the filter taken from the query. */
    constructor (typeParam: Option<string>)
      ensures view == "grid" && filter == InitialFilter(typeParam)
    {
      view := "grid";
      filter := InitialFilter(typeParam);
    }

    /** The tab bar: the selected value becomes the filter. */
    method OnFilterChange(value: string)
      modifies this
      ensures filter == value && view == old(view)
    {
      filter := value;
    }

    /** The view toggle reports the empty string when the pressed item is deselected; that is ignored. */
    method OnViewChange(value: string)
      modifies this
      ensures view == (if value != "" then value else old(view))
      ensures filter == old(filter)
    {
      if value != "" {
        view := value;
      }
    }
  }
}
