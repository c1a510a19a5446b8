/**
 * The identity-claim mapping of the RPI Shibboleth OpenID Connect provider and
 * of the development OAuth provider: how the Standard Claims of section 5.1 of
 * OpenID Connect Core 1.0 (`sub`, `name`, `email`, `preferred_username`,
 * `given_name`, `family_name`) plus RPI's `eduPersonScopedAffiliation` become
 * the application's user record.
 */
module LibAuthProviders {
  import opened Wrappers
  import opened Strings

  /** The claims NextAuth passes to `profile` from the ID token. */
  datatype IdTokenClaims = IdTokenClaims(
    sub: string, name: string, email: string,
    preferredUsername: Option<string>, givenName: Option<string>, familyName: Option<string>,
    affiliation: Option<string>)

  /** The userinfo response (`USER_PROFILE`): `sub` and `email` always, the rest optional. */
  datatype Userinfo = Userinfo(
    sub: string, email: string, affiliation: Option<string>,
    preferredUsername: Option<string>, givenName: Option<string>, familyName: Option<string>)

  /**
   * What fetching userinfo came to: the parsed response, or a failure (the
   * request threw, the status was not ok, or the body was not JSON).
   */
  datatype Fetch = Fetched(info: Userinfo) | FetchFailed

  /** The user record a `profile` callback returns. */
  datatype ProfileUser = ProfileUser(
    id: string, firstName: Option<string>, lastName: Option<string>, rcsid: string,
    email: string, role: string, emailVerified: Option<string>)

  const DEFAULT_ROLE := "student"

  /** `preferred_username || sub.split("@")[0]`. */
  function Rcsid(preferredUsername: Option<string>, sub: string): string {
    OrElse(preferredUsername, BeforeFirst(sub, "@"))
  }

  /**
   * The RCS id is `preferred_username` when that is non-empty; otherwise the
   * part of `sub` before its first "@", which is all of `sub` when it has no
   * "@", and never contains one.
   */
  lemma RcsidSpec(preferredUsername: Option<string>, sub: string)
    ensures Truthy(preferredUsername) ==> Rcsid(preferredUsername, sub) == preferredUsername.value
    ensures !Truthy(preferredUsername) ==>
      var r := Rcsid(preferredUsername, sub);
      |r| <= |sub| && r == sub[..|r|] && !Contains(r, "@") &&
      (|r| < |sub| ==> sub[|r|] == '@') &&
      (!Contains(sub, "@") ==> r == sub)
  {
    BeforeFirstSpec(sub, "@");
    var r := BeforeFirst(sub, "@");
    if |r| < |sub| {
      assert sub[|r|..|r| + 1] == "@";
    }
  }

  /** `eduPersonScopedAffiliation || "student"`. */
  function Role(affiliation: Option<string>): (r: string)
    ensures Truthy(affiliation) ==> r == affiliation.value
    ensures !Truthy(affiliation) ==> r == DEFAULT_ROLE
  {
    OrElse(affiliation, DEFAULT_ROLE)
  }

  /** The user built from a successful userinfo fetch; `now` is `new Date().toISOString()`. */
  function UserinfoUser(info: Userinfo, now: string): ProfileUser {
    ProfileUser(
      info.sub, Some(OrElse(info.givenName, "")), Some(OrElse(info.familyName, "")),
      Rcsid(info.preferredUsername, info.sub), info.email, Role(info.affiliation), Some(now))
  }

  /** The separator between family and given name in RPI's `name` claim. */
  const NAME_SEPARATOR := " ,"

  /** The user built from the ID token alone: the name is split on " ,", family name first. */
  function FallbackUser(profile: IdTokenClaims): ProfileUser {
    var names := Split(profile.name, NAME_SEPARATOR);
    ProfileUser(
      profile.sub,
      Some(if |names| > 1 then names[1] else ""),
      Some(names[0]),
      Rcsid(profile.preferredUsername, profile.sub), profile.email, DEFAULT_ROLE, None)
  }

  /**
   * `RPI_SHIBBOLETH_PROVIDER(config).profile`: with an access token, the
   * userinfo response is fetched and used; without one, or when the fetch
   * fails, the ID-token fallback.
   */
  function RpiProfile(profile: IdTokenClaims, accessToken: Option<string>, fetch: Fetch, now: string): ProfileUser {
    if Truthy(accessToken) && fetch.Fetched? then UserinfoUser(fetch.info, now)
    else FallbackUser(profile)
  }

  /**
   * The fallback is used exactly when there is no access token or the fetch
   * fails; the userinfo path takes every field from the userinfo response,
   * with missing names as "", a missing affiliation as "student", and the
   * clock's reading as the verification date.
   */
  lemma RpiProfilePaths(profile: IdTokenClaims, accessToken: Option<string>, fetch: Fetch, now: string)
    ensures var u := RpiProfile(profile, accessToken, fetch, now);
      ((!Truthy(accessToken) || fetch.FetchFailed?) ==> u == FallbackUser(profile)) &&
      ((Truthy(accessToken) && fetch.Fetched?) ==>
         u.id == fetch.info.sub && u.email == fetch.info.email &&
         u.role == Role(fetch.info.affiliation) &&
         u.rcsid == Rcsid(fetch.info.preferredUsername, fetch.info.sub) &&
         u.firstName == Some(OrElse(fetch.info.givenName, "")) &&
         u.lastName == Some(OrElse(fetch.info.familyName, "")) &&
         u.emailVerified == Some(now))
  {
  }

  /**
   * The fallback sets `id` to `sub`, the role to "student" and no
   * verification date. The family name is the text before the first " ,";
   * the given name is the segment after it up to the next one, or "" when
   * there is no separator, in which case the family name is the whole name.
   */
  lemma FallbackUserSpec(profile: IdTokenClaims)
    ensures var u := FallbackUser(profile); var name := profile.name;
      u.id == profile.sub && u.role == DEFAULT_ROLE && u.emailVerified.None? &&
      u.email == profile.email &&
      u.lastName == Some(BeforeFirst(name, NAME_SEPARATOR)) &&
      (!Contains(name, NAME_SEPARATOR) ==> u.lastName == Some(name) && u.firstName == Some("")) &&
      (Contains(name, NAME_SEPARATOR) ==>
         var rest := name[|u.lastName.value| + |NAME_SEPARATOR|..];
         u.firstName == Some(BeforeFirst(rest, NAME_SEPARATOR)))
  {
    var name := profile.name;
    BeforeFirstSpec(name, NAME_SEPARATOR);
    match IndexOf(name, NAME_SEPARATOR)
    case None =>
    case Some(i) =>
      assert Split(name, NAME_SEPARATOR) == [name[..i]] + Split(name[i + 2..], NAME_SEPARATOR);
  }

  /** `DEVELOPMENT_PROVIDER().profile`: the claims copied, names without defaults. */
  function DevProfile(profile: IdTokenClaims): ProfileUser {
    ProfileUser(
      profile.sub, profile.givenName, profile.familyName,
      Rcsid(profile.preferredUsername, profile.sub), profile.email, Role(profile.affiliation), None)
  }

  /** The development profile keeps `sub` as the id, has no verification date, and passes the names through untouched. */
  lemma DevProfileSpec(profile: IdTokenClaims)
    ensures var u := DevProfile(profile);
      u.id == profile.sub && u.emailVerified.None? &&
      u.firstName == profile.givenName && u.lastName == profile.familyName &&
      u.rcsid == Rcsid(profile.preferredUsername, profile.sub) &&
      u.role == Role(profile.affiliation)
  {
  }
}
