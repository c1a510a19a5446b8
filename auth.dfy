/**
 * The NextAuth configuration: the RPI profile mapping, the development
 * credentials login, and the choice between them by environment.
 */
module Auth {
  import opened Wrappers
  import opened Strings
  import LibAuthProviders

  /** The claims `profile` reads from the ID token. */
  datatype IdTokenClaims = IdTokenClaims(sub: string, name: Option<string>, email: string)

  /** The parsed userinfo response; any field may be missing. */
  datatype Userinfo = Userinfo(
    email: Option<string>, affiliation: Option<string>, preferredUsername: Option<string>,
    givenName: Option<string>, familyName: Option<string>)

  /** The userinfo request: the parsed body, or a failure (a throw, a status that is not ok, a body that is not JSON). */
  datatype Fetch = Fetched(info: Userinfo) | FetchFailed

  /** What `profile` returns: the full record from userinfo, or the short fallback record. */
  datatype Profile =
    | FullProfile(email: string, role: string, rcsid: string, id: string,
                  firstName: string, lastName: string, emailVerified: string)
    | BasicProfile(id: string, name: Option<string>, email: string, role: string)

  const DEFAULT_ROLE := "student"

  /** The RPI provider's `profile`; `now` is `new Date().toISOString()`. */
  function RpiProfile(profile: IdTokenClaims, accessToken: Option<string>, fetch: Fetch, now: string): Profile {
    if Truthy(accessToken) && fetch.Fetched? then
      var info := fetch.info;
      FullProfile(
        OrElse(info.email, profile.email), OrElse(info.affiliation, DEFAULT_ROLE),
        LibAuthProviders.Rcsid(info.preferredUsername, profile.sub), profile.sub,
        OrElse(info.givenName, ""), OrElse(info.familyName, ""), now)
    else
      BasicProfile(profile.sub, profile.name, profile.email, DEFAULT_ROLE)
  }

  /**
   * On the userinfo path the email prefers userinfo's and falls back to the
   * ID token's, the role is the affiliation or "student", the RCS id is
   * `preferred_username` or else the part of the ID token's `sub` before its
   * first "@", the names default to "", and the id is always that `sub`. Without a token, or when the fetch fails, the record is
   * `sub`, name, email and role "student".
   */
  lemma RpiProfileSpec(profile: IdTokenClaims, accessToken: Option<string>, fetch: Fetch, now: string)
    ensures var p := RpiProfile(profile, accessToken, fetch, now);
      (p.FullProfile? <==> Truthy(accessToken) && fetch.Fetched?) &&
      p.id == profile.sub && p.role != "" &&
      (p.BasicProfile? ==> p == BasicProfile(profile.sub, profile.name, profile.email, DEFAULT_ROLE)) &&
      (p.FullProfile? ==>
         var info := fetch.info;
         (Truthy(info.email) ==> p.email == info.email.value) &&
         (!Truthy(info.email) ==> p.email == profile.email) &&
         (Truthy(info.affiliation) ==> p.role == info.affiliation.value) &&
         (!Truthy(info.affiliation) ==> p.role == DEFAULT_ROLE) &&
         (Truthy(info.preferredUsername) ==> p.rcsid == info.preferredUsername.value) &&
         (!Truthy(info.preferredUsername) ==> p.rcsid == BeforeFirst(profile.sub, "@")) &&
         (Truthy(info.givenName) ==> p.firstName == info.givenName.value) &&
         (!Truthy(info.givenName) ==> p.firstName == "") &&
         (Truthy(info.familyName) ==> p.lastName == info.familyName.value) &&
         (!Truthy(info.familyName) ==> p.lastName == "") &&
         p.emailVerified == now)
  {
  }

  /** The development login form. */
  datatype Credentials = Credentials(
    rcsid: Option<string>, name: Option<string>, affiliation: Option<string>, department: Option<string>)

  datatype DevUser = DevUser(
    id: Option<string>, name: Option<string>, email: string, affiliation: string, department: string)

  const DEFAULT_DEPARTMENT := "General Studies"

  /** The development provider's `authorize`. */
  function Authorize(credentials: Option<Credentials>): Option<DevUser> {
    match credentials
    case None => None
    case Some(c) =>
      Some(DevUser(
        c.rcsid, c.name, Interpolate(c.rcsid) + "@rpi.edu",
        OrElse(c.affiliation, DEFAULT_ROLE), OrElse(c.department, DEFAULT_DEPARTMENT)))
  }

  /**
   * No credentials sign nobody in. Otherwise the id is the RCS id itself (not
   * the address, unlike the other development provider), the email is the
   * RCS id followed by "@rpi.edu", and affiliation and department take their
   * defaults.
   */
  lemma AuthorizeSpec(credentials: Option<Credentials>)
    ensures Authorize(credentials).None? <==> credentials.None?
    ensures credentials.Some? ==>
      var c := credentials.value; var u := Authorize(credentials).value;
      u.id == c.rcsid && u.name == c.name &&
      u.email == Interpolate(c.rcsid) + "@rpi.edu" &&
      (Truthy(c.affiliation) ==> u.affiliation == c.affiliation.value) &&
      (!Truthy(c.affiliation) ==> u.affiliation == DEFAULT_ROLE) &&
      (Truthy(c.department) ==> u.department == c.department.value) &&
      (!Truthy(c.department) ==> u.department == DEFAULT_DEPARTMENT)
  {
  }

  datatype Provider = RpiShibboleth | DevelopmentLogin

  /** `process.env.NEXTAUTH_ENV === "production"`. */
  predicate IsProduction(nextAuthEnv: Option<string>) {
    nextAuthEnv == Some("production")
  }

  /** The provider list: the development login outside production, RPI in production. */
  function Providers(nextAuthEnv: Option<string>): (r: seq<Provider>)
    ensures |r| == 1
    ensures r[0] == DevelopmentLogin <==> !IsProduction(nextAuthEnv)
    ensures r[0] == RpiShibboleth <==> IsProduction(nextAuthEnv)
  {
    if !IsProduction(nextAuthEnv) then [DevelopmentLogin] else [RpiShibboleth]
  }
}
