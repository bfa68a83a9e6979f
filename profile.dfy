/**
 * The profile page: the details of a hard-coded owner, looked up among the seed owners,
 * and that owner's listings, filtered from the static seed (not from the live store).
 */
module Profile {
  import opened Wrappers
  import opened Types
  import opened Seqs
  import opened Auth
  import MockData

  /** The id the page shows, fixed in the page. */
  const CurrentUserId: string := "owner-1"

  /** `owners.find(o => o.id === id)`: the first owner with that id, if any. */
  function FindOwner(owners: seq<Owner>, id: string): (r: Option<Owner>)
    ensures r.None? <==> forall k :: 0 <= k < |owners| ==> owners[k].id != id
    ensures r.Some? ==> (exists k :: 0 <= k < |owners| && owners[k] == r.value && FirstWithId(owners, id, k))
  {
    if owners == [] then None
    else if owners[0].id == id then
      assert FirstWithId(owners, id, 0);
      Some(owners[0])
    else
      var r := FindOwner(owners[1..], id);
      if r.Some? then
        var k :| 0 <= k < |owners[1..]| && owners[1..][k] == r.value && FirstWithId(owners[1..], id, k);
        assert owners[k + 1] == r.value && FirstWithId(owners, id, k + 1);
        r
      else r
  }

  /** Index `k` holds the first owner with that id. */
  predicate FirstWithId(owners: seq<Owner>, id: string, k: nat) {
    k < |owners| && owners[k].id == id && forall j :: 0 <= j < k ==> owners[j].id != id
  }

  function OwnedBy(id: string): Property -> bool {
    (p: Property) => p.ownerId == id
  }

  /** `userProperties`: the seed listings of the current user. */
  function UserProperties(): seq<Property> {
    Filter(MockData.Properties, OwnedBy(CurrentUserId))
  }

  /** What the page renders. */
  datatype ProfileView =
    | Loading
    | NotFound
    | Shown(owner: Owner, listings: seq<Property>, count: nat)

  /**
   * The page: a skeleton while the session is unknown, absent or has no user; "not found" when
   * no owner has the id; otherwise the owner, the listings and "My Listings (count)".
   */
  function Render(isAuthenticated: Option<bool>, user: Option<User>): (v: ProfileView)
    ensures v.Loading? <==> isAuthenticated != Some(true) || user.None?
    ensures v.NotFound? <==> !v.Loading? && FindOwner(MockData.Owners, CurrentUserId).None?
    ensures v.Shown? ==> (v.count == |v.listings| && v.listings == UserProperties() &&
      v.owner.id == CurrentUserId && Some(v.owner) == FindOwner(MockData.Owners, CurrentUserId))
  {
    if isAuthenticated != Some(true) || user.None? then Loading
    else match FindOwner(MockData.Owners, CurrentUserId)
      case None => NotFound
      case Some(o) => Shown(o, UserProperties(), |UserProperties()|)
  }

  /** The page sends the visitor to the login page only when the session is definitely absent. */
  predicate Redirects(isAuthenticated: Option<bool>) {
    isAuthenticated == Some(false)
  }

  /**
   * Every listed property belongs to the current user, and every seed listing of the current user
   * is listed, in seed order.
   */
  lemma {:induction false} UserPropertiesExact()
    ensures forall k :: 0 <= k < |UserProperties()| ==> UserProperties()[k].ownerId == CurrentUserId
    ensures forall k :: 0 <= k < |MockData.Properties| && MockData.Properties[k].ownerId == CurrentUserId ==>
      MockData.Properties[k] in UserProperties()
    ensures IsSubsequence(UserProperties(), MockData.Properties)
  {
    FilterIsSubsequence(MockData.Properties, OwnedBy(CurrentUserId));
    FilterMembers(MockData.Properties, OwnedBy(CurrentUserId));
    forall k | 0 <= k < |UserProperties()| ensures UserProperties()[k].ownerId == CurrentUserId {
      assert OwnedBy(CurrentUserId)(UserProperties()[k]);
    }
    forall k | 0 <= k < |MockData.Properties| && MockData.Properties[k].ownerId == CurrentUserId
      ensures MockData.Properties[k] in UserProperties()
    {
      assert OwnedBy(CurrentUserId)(MockData.Properties[k]);
    }
  }

  /** The current user's seed listings are prop-1, prop-3 and prop-5. */
  lemma SeedUserProperties()
    ensures UserProperties() == [MockData.Prop1, MockData.Prop3, MockData.Prop5]
  {
    var s := MockData.Properties;
    var f := OwnedBy(CurrentUserId);
    assert s[5..] == [] && s[4..][1..] == s[5..];
    assert Filter(s[4..], f) == [s[4]];
    assert s[3..][1..] == s[4..] && Filter(s[3..], f) == [s[4]];
    assert s[2..][1..] == s[3..] && Filter(s[2..], f) == [s[2], s[4]];
    assert s[1..][1..] == s[2..] && Filter(s[1..], f) == [s[2], s[4]];
  }

  /** For a logged-in user on the seed, the page shows Ali Abdullah with prop-1, prop-3 and prop-5. */
  lemma SeedProfile(user: User)
    ensures Render(Some(true), Some(user)).Shown?
    ensures Render(Some(true), Some(user)).owner == MockData.Owners[0]
    ensures Ids(Render(Some(true), Some(user)).listings) == ["prop-1", "prop-3", "prop-5"]
    ensures Render(Some(true), Some(user)).count == 3
  {
    SeedUserProperties();
    assert FindOwner(MockData.Owners, CurrentUserId) == Some(MockData.Owners[0]);
  }
}
