/**
 * The signup form: a presence check on name, email and password, then a call
 * `signup(name, role)` with the role of the tab the form sits on.
 */
module SignupForm {
  import opened Wrappers
  import opened Auth
  import LoginForm

  /** The role a tab signs up as; never admin. */
  function TabRole(tab: LoginForm.Tab): (r: Role)
    ensures r != Admin && IsUserRole(r)
    ensures (tab == LoginForm.RenterTab ==> r == Renter) && (tab == LoginForm.OwnerTab ==> r == Owner)
  {
    match tab
    case RenterTab => Renter
    case OwnerTab => Owner
  }

  /** The call `handleSubmit` makes: `signup(name, role)`. */
  datatype SignupCall = SignupCall(name: string, role: Role)

  /**
   * `handleSubmit`: refuse when any field is the empty string; otherwise sign up with the
   * name as typed and the tab's role. The content of the fields is not checked further.
   */
  function HandleSubmit(tab: LoginForm.Tab, name: string, email: string, password: string): (r: Option<SignupCall>)
    ensures r.None? <==> (name == "" || email == "" || password == "")
    ensures r.Some? ==> r.value == SignupCall(name, TabRole(tab)) && r.value.role != Admin
  {
    if name == "" || email == "" || password == "" then None
    else Some(SignupCall(name, TabRole(tab)))
  }

  /** Any non-empty fields are accepted: e.g. an email with no `@` and a one-letter password. */
  lemma NoContentCheck(tab: LoginForm.Tab)
    ensures HandleSubmit(tab, "x", "y", "z") == Some(SignupCall("x", TabRole(tab)))
  {
  }
}
