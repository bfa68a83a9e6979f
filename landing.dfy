/**
 * The landing page: the first four featured listings of the store, and the category links
 * that open the listings page with a `type` query value.
 */
module Landing {
  import opened Wrappers
  import opened Types
  import opened Seqs
  import Listings
  import MockData

  /** How many featured listings the landing page shows at most. */
  const FeaturedLimit: nat := 4

  function IsFeatured(): Property -> bool {
    (p: Property) => p.featured
  }

  /** `properties.filter(p => p.featured).slice(0, 4)`. */
  function FeaturedProperties(store: seq<Property>): seq<Property> {
    Take(Filter(store, IsFeatured()), FeaturedLimit)
  }

  /**
   * The selection holds only featured listings, at most four of them; it is the first
   * min(4, number featured) featured listings in store order, hence a subsequence of the store.
   */
  lemma {:induction false} FeaturedSpec(store: seq<Property>)
    ensures forall k :: 0 <= k < |FeaturedProperties(store)| ==> FeaturedProperties(store)[k].featured
    ensures |FeaturedProperties(store)| <= FeaturedLimit
    ensures |FeaturedProperties(store)| ==
      (if Count(store, IsFeatured()) < FeaturedLimit then Count(store, IsFeatured()) else FeaturedLimit)
    ensures FeaturedProperties(store) <= Filter(store, IsFeatured())
    ensures IsSubsequence(FeaturedProperties(store), store)
  {
    var all := Filter(store, IsFeatured());
    var r := FeaturedProperties(store);
    FilterLength(store, IsFeatured());
    FilterIsSubsequence(store, IsFeatured());
    forall k | 0 <= k < |r| ensures r[k].featured {
      assert r[k] == all[k];
      assert IsFeatured()(all[k]);
    }
    PrefixIsSubsequence(r, all);
    SubsequenceTransitive(r, all, store);
  }

  /** The featured section renders when the selection is non-empty, that is, when some listing is featured. */
  function ShowsFeaturedSection(store: seq<Property>): (r: bool)
    ensures r <==> exists k :: 0 <= k < |store| && store[k].featured
  {
    var sel := FeaturedProperties(store);
    FeaturedSpec(store);
    FilterMembers(store, IsFeatured());
    if |sel| > 0 then
      assert sel[0] in Filter(store, IsFeatured());
      true
    else
      assert forall k :: 0 <= k < |store| && store[k].featured ==> store[k] in Filter(store, IsFeatured());
      false
  }

  /** The seed's featured selection is prop-1 then prop-4. */
  lemma SeedFeatured()
    ensures Ids(FeaturedProperties(MockData.Properties)) == ["prop-1", "prop-4"]
  {
    var s := MockData.Properties;
    var f := IsFeatured();
    assert s[5..] == [] && s[4..][1..] == s[5..];
    assert Filter(s[4..], f) == [];
    assert s[3..][1..] == s[4..] && Filter(s[3..], f) == [s[3]];
    assert s[2..][1..] == s[3..] && Filter(s[2..], f) == [s[3]];
    assert s[1..][1..] == s[2..] && Filter(s[1..], f) == [s[3]];
    assert Filter(s, f) == [s[0], s[3]];
  }

  /** A category tile: its label and the `type` query value its link to `/listings` carries. */
  datatype Category = Category(name: string, typeValue: string)

  const Categories: seq<Category> := [
    Category("Apartments", "apartment"),
    Category("Houses", "house"),
    Category("Cars", "car"),
    Category("Commercial", "commercial")
  ]

  /**
   * Every category link carries a type tag that the listings page takes as its initial filter,
   * so following it lists exactly the listings of that kind.
   */
  lemma CategoryLinksFilterByType(k: nat)
    requires k < |Categories|
    ensures ParsePropertyType(Categories[k].typeValue).Some?
    ensures Listings.InitialFilter(Some(Categories[k].typeValue)) ==
      TypeName(ParsePropertyType(Categories[k].typeValue).value)
  {
  }
}
