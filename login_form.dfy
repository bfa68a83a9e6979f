/**
 * The login form. The submitted email and password are resolved to a role and a display
 * name by a fixed rule: one admin credential pair, and otherwise an email prefix that must
 * match the tab the form sits on. Only a resolved login reaches the session.
 */
module LoginForm {
  import opened Wrappers
  import opened Text
  import opened Auth

  /** The tab the form was submitted from (`Exclude<UserRole, 'admin'>`). */
  datatype Tab = RenterTab | OwnerTab

  const AdminEmail: string := "admin@rentify.com"
  const AdminPassword: string := "adminpassword"

  /** A resolved login: the display name and the role passed to `login`. */
  datatype Resolved = Resolved(name: string, role: Role)

  predicate IsAdminCredentials(email: string, password: string) {
    email == AdminEmail && password == AdminPassword
  }

  /** The if/else chain of `handleSubmit`: admin first, then the prefix of the tab's own role. */
  function ResolveLogin(tab: Tab, email: string, password: string): (r: Option<Resolved>)
    ensures r.Some? ==> IsUserRole(r.value.role)
    ensures r.None? <==>
      !IsAdminCredentials(email, password) &&
      !(tab == RenterTab && StartsWith(email, "renter")) &&
      !(tab == OwnerTab && StartsWith(email, "owner"))
  {
    if IsAdminCredentials(email, password) then Some(Resolved("Admin", Admin))
    else if tab == RenterTab && StartsWith(email, "renter") then Some(Resolved("Renter", Renter))
    else if tab == OwnerTab && StartsWith(email, "owner") then Some(Resolved("Property Owner", Owner))
    else None
  }

  /** The admin credentials log in as admin, named "Admin", from either tab. */
  lemma AdminOnEitherTab(tab: Tab)
    ensures ResolveLogin(tab, AdminEmail, AdminPassword) == Some(Resolved("Admin", Admin))
  {
  }

  /** The admin check comes first: whenever the credentials match it, no prefix rule applies. */
  lemma AdminTakesPriority(tab: Tab, email: string, password: string)
    requires IsAdminCredentials(email, password)
    ensures ResolveLogin(tab, email, password).Some?
    ensures ResolveLogin(tab, email, password).value.role == Admin
  {
  }

  /**
   * On the renter tab a `renter…` email logs in as a renter whatever the password, and on the
   * owner tab an `owner…` email as an owner; the admin email starts with neither prefix.
   */
  lemma PrefixLogin(email: string, password: string)
    ensures StartsWith(email, "renter") ==>
      ResolveLogin(RenterTab, email, password) == Some(Resolved("Renter", Renter))
    ensures StartsWith(email, "owner") ==>
      ResolveLogin(OwnerTab, email, password) == Some(Resolved("Property Owner", Owner))
  {
    if StartsWith(email, "renter") || StartsWith(email, "owner") {
      assert email[0] != AdminEmail[0];
    }
  }

  /** A prefix that belongs to the other tab fails: `renter…` on the owner tab, `owner…` on the renter tab. */
  lemma WrongTabFails(email: string, password: string)
    ensures StartsWith(email, "renter") ==> ResolveLogin(OwnerTab, email, password) == None
    ensures StartsWith(email, "owner") ==> ResolveLogin(RenterTab, email, password) == None
  {
    if StartsWith(email, "renter") || StartsWith(email, "owner") {
      assert email[0] != AdminEmail[0];
    }
  }

  /**
   * `handleSubmit`: on a resolved login, call `login(name, role)`; otherwise change nothing.
   * (The toasts and the redirect to the landing page are presentation and navigation.)
   */
  method HandleSubmit(auth: AuthProvider, tab: Tab, email: string, password: string) returns (ok: bool)
    modifies auth
    ensures ok <==> ResolveLogin(tab, email, password).Some?
    ensures ok ==> var r := ResolveLogin(tab, email, password).value;
      auth.user == Some(User(r.name)) && auth.role == Some(r.role) &&
      auth.storage == StoreLogin(old(auth.storage), r.name, r.role)
    ensures !ok ==> auth.user == old(auth.user) && auth.role == old(auth.role) && auth.storage == old(auth.storage)
  {
    var resolved := ResolveLogin(tab, email, password);
    if resolved.Some? {
      auth.Login(resolved.value.name, resolved.value.role);
      ok := true;
    } else {
      ok := false;
    }
  }
}
