/**
 * The credential-based development provider: a mock login form whose fields
 * become a user record directly. The RPI provider in the same file maps
 * claims with the same code as `LibAuthProviders.RpiProfile`.
 */
module AuthProviders {
  import opened Wrappers
  import opened Strings

  /** The submitted form; every field may be missing. */
  datatype Credentials = Credentials(
    rcsid: Option<string>, firstName: Option<string>, lastName: Option<string>,
    affiliation: Option<string>, department: Option<string>)

  /** The user `authorize` returns. */
  datatype DevUser = DevUser(
    id: string, firstName: string, lastName: string, rcsid: Option<string>,
    email: string, role: string, department: string)

  const EMAIL_DOMAIN := "@rpi.edu"
  const DEFAULT_ROLE := "student"
  const DEFAULT_DEPARTMENT := "General Studies"

  /** `DEVELOPMENT_PROVIDER.authorize`: no credentials sign nobody in. */
  function Authorize(credentials: Option<Credentials>): Option<DevUser> {
    match credentials
    case None => None
    case Some(c) =>
      var address := Interpolate(c.rcsid) + EMAIL_DOMAIN;
      Some(DevUser(
        address, OrElse(c.firstName, ""), OrElse(c.lastName, ""), c.rcsid, address,
        OrElse(c.affiliation, DEFAULT_ROLE), OrElse(c.department, DEFAULT_DEPARTMENT)))
  }

  /**
   * A user exists exactly when credentials were given. Its id and email are
   * both the RCS id followed by "@rpi.edu" (so they end in it), its `rcsid` is
   * the submitted one unchanged, missing or empty names become "", the role
   * defaults to "student" and the department to "General Studies".
   */
  lemma AuthorizeSpec(credentials: Option<Credentials>)
    ensures Authorize(credentials).None? <==> credentials.None?
    ensures credentials.Some? ==>
      var c := credentials.value; var u := Authorize(credentials).value;
      u.id == u.email && u.email == Interpolate(c.rcsid) + EMAIL_DOMAIN &&
      u.email[|u.email| - |EMAIL_DOMAIN|..] == EMAIL_DOMAIN &&
      u.rcsid == c.rcsid &&
      (Truthy(c.firstName) ==> u.firstName == c.firstName.value) &&
      (!Truthy(c.firstName) ==> u.firstName == "") &&
      (Truthy(c.lastName) ==> u.lastName == c.lastName.value) &&
      (!Truthy(c.lastName) ==> u.lastName == "") &&
      (Truthy(c.affiliation) ==> u.role == c.affiliation.value) &&
      (!Truthy(c.affiliation) ==> u.role == DEFAULT_ROLE) &&
      (Truthy(c.department) ==> u.department == c.department.value) &&
      (!Truthy(c.department) ==> u.department == DEFAULT_DEPARTMENT)
  {
  }
}
