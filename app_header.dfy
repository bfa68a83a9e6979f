/**
 * The application header: the navigation entries chosen by role, and when a notification
 * badge is drawn next to one. Labels are translation keys; the tables are not modelled.
 */
module AppHeader {
  import opened Wrappers
  import opened Auth
  import CreateListingPage

  /** The translation key of a navigation label. */
  datatype NavLabel = ListingsLabel | MyListingsLabel | CreateListingLabel | InboxLabel | SupportLabel

  /** A navigation entry: target, label and optional notification count. */
  datatype NavItem = NavItem(href: string, caption: NavLabel, notificationCount: Option<int>)

  const RenterNavItems: seq<NavItem> := [
    NavItem("/listings", ListingsLabel, None),
    NavItem("/inbox", InboxLabel, Some(3)),
    NavItem("/support", SupportLabel, None)
  ]

  const OwnerNavItems: seq<NavItem> := [
    NavItem("/listings", MyListingsLabel, None),
    NavItem("/create-listing", CreateListingLabel, None),
    NavItem("/inbox", InboxLabel, Some(1)),
    NavItem("/support", SupportLabel, None)
  ]

  /** `navItems`: the renter list, the owner list, and nothing for any other role or none. */
  function NavItems(role: Option<Role>): seq<NavItem> {
    if role == Some(Role.Renter) then RenterNavItems
    else if role == Some(Role.Owner) then OwnerNavItems
    else []
  }

  /** The labels of a list of entries, in order. */
  function Labels(items: seq<NavItem>): (r: seq<NavLabel>)
    ensures |r| == |items|
    ensures forall k :: 0 <= k < |items| ==> r[k] == items[k].caption
  {
    if items == [] then [] else [items[0].caption] + Labels(items[1..])
  }

  /** The entries each role gets, in order; admins and visitors get none. */
  lemma NavItemsByRole(role: Option<Role>)
    ensures role == Some(Role.Renter) ==> Labels(NavItems(role)) == [ListingsLabel, InboxLabel, SupportLabel]
    ensures role == Some(Role.Owner) ==>
      Labels(NavItems(role)) == [MyListingsLabel, CreateListingLabel, InboxLabel, SupportLabel]
    ensures role != Some(Role.Renter) && role != Some(Role.Owner) ==> NavItems(role) == []
    ensures role == Some(Admin) || role.None? ==> NavItems(role) == []
  {
  }

  /**
   * `notificationCount && notificationCount > 0`: a badge needs a count that is present and
   * positive (the falsy zero fails the comparison too).
   */
  predicate ShowsBadge(item: NavItem) {
    item.notificationCount.Some? && item.notificationCount.value > 0
  }

  /** Only the inbox entry carries a badge: three for renters, one for owners. */
  lemma BadgesByRole(role: Option<Role>)
    ensures forall k :: 0 <= k < |NavItems(role)| && ShowsBadge(NavItems(role)[k]) ==>
      NavItems(role)[k].caption == InboxLabel
    ensures role == Some(Role.Renter) ==> ShowsBadge(NavItems(role)[1]) && NavItems(role)[1].notificationCount == Some(3)
    ensures role == Some(Role.Owner) ==> ShowsBadge(NavItems(role)[2]) && NavItems(role)[2].notificationCount == Some(1)
  {
  }

  /** The mobile menu lists the entries only when someone is logged in; otherwise a login link. */
  function MobileNavItems(user: Option<User>, role: Option<Role>): (r: seq<NavItem>)
    ensures user.None? ==> r == []
    ensures user.Some? ==> r == NavItems(role)
  {
    if user.Some? then NavItems(role) else []
  }

  /**
   * The header offers the create-listing link exactly to the role the create-listing page admits,
   * so with a definite session the link is offered iff following it shows the form.
   */
  lemma {:induction false} CreateLinkMatchesAccess(role: Option<Role>)
    ensures (exists k :: 0 <= k < |NavItems(role)| && NavItems(role)[k].href == "/create-listing") <==>
      CreateListingPage.ShowsForm(Some(true), role)
  {
    if role == Some(Role.Owner) {
      assert NavItems(role)[1].href == "/create-listing";
    } else if role == Some(Role.Renter) {
      assert forall k :: 0 <= k < |RenterNavItems| ==> RenterNavItems[k].href != "/create-listing";
    }
  }
}
