/**
 * The project collection endpoint: `GET` lists public projects matching
 * optional group, skill and keyword filters, newest first, one page at a time
 * with an opaque continuation token; `POST` creates an empty project owned by
 * the signed-in student, who becomes its only editor.
 *
 * The store is a sequence of project rows kept in `createdAt` descending
 * order (a new project is the newest, so creation puts it at the front).
 */
module ProjectRoute {
  import opened Wrappers
  import opened Strings
  import opened Lists
  import opened Sessions

  // ------------------------------------------------------------ parseInt

  /** The value of a digit character in bases up to 36, or 36 for a non-digit. */
  function DigitValue(c: char): nat {
    if '0' <= c <= '9' then c as int - '0' as int
    else if 'a' <= c <= 'z' then c as int - 'a' as int + 10
    else if 'A' <= c <= 'Z' then c as int - 'A' as int + 10
    else 36
  }

  predicate IsDigitIn(c: char, radix: nat) { DigitValue(c) < radix }

  /** The length of the run of digits that `s` starts with. */
  function DigitRun(s: string, radix: nat): (n: nat)
    ensures n <= |s|
    ensures forall k :: 0 <= k < n ==> IsDigitIn(s[k], radix)
    ensures n < |s| ==> !IsDigitIn(s[n], radix)
  {
    if s != [] && IsDigitIn(s[0], radix) then 1 + DigitRun(s[1..], radix) else 0
  }

  /** The number a string of digits denotes, most significant digit first. */
  function DigitsValue(s: string, radix: nat): nat
    requires forall k :: 0 <= k < |s| ==> IsDigitIn(s[k], radix)
  {
    if s == [] then 0
    else
      var init := s[..|s| - 1];
      assert forall k :: 0 <= k < |init| ==> init[k] == s[k];
      Shift(DigitsValue(init, radix), radix) + DigitValue(s[|s| - 1])
  }

  /** A value moved one digit up in base `radix`. */
  function Shift(v: nat, radix: nat): nat {
    v * radix
  }

  /** `s` without its sign character, if it has one. */
  function Unsigned(t: string): string {
    if t != [] && (t[0] == '-' || t[0] == '+') then t[1..] else t
  }

  /** Digits after an optional `0x`/`0X` prefix, which selects base 16; base 10 otherwise. */
  function ParseUnsigned(u: string): (r: Option<nat>) {
    var hex := |u| >= 2 && u[0] == '0' && (u[1] == 'x' || u[1] == 'X');
    var radix := if hex then 16 else 10;
    var body := if hex then u[2..] else u;
    var n := DigitRun(body, radix);
    if n == 0 then None else Some(DigitsValue(body[..n], radix))
  }

  /**
   * `parseInt(s)` with no radix: leading white space is skipped, an optional
   * sign is read, a `0x`/`0X` prefix selects base 16 and base 10 is used
   * otherwise; the longest run of digits that follows is the value, and no
   * digit at all is `NaN` (`None`).
   */
  function ParseInt(s: string): (r: Option<int>) {
    var t := TrimStart(s);
    match ParseUnsigned(Unsigned(t))
    case None => None
    case Some(v) => Some(if t != [] && t[0] == '-' then -(v as int) else v as int)
  }

  /** The decimal numeral of `n`, without leading zeros. */
  function Decimal(n: nat): (s: string)
    ensures |s| >= 1
    ensures forall k :: 0 <= k < |s| ==> IsDigitIn(s[k], 10)
  {
    var d := [((n % 10) + '0' as int) as char];
    if n < 10 then d else Decimal(n / 10) + d
  }

  lemma {:induction false} DecimalValue(n: nat)
    ensures DigitsValue(Decimal(n), 10) == n
  {
    var s := Decimal(n);
    if n >= 10 {
      DecimalValue(n / 10);
      assert s[..|s| - 1] == Decimal(n / 10);
    }
  }

  /** A digit character is not white space and not a sign. */
  lemma DigitIsPlain(c: char)
    requires IsDigitIn(c, 10)
    ensures !IsSpace(c) && c != '-' && c != '+' && c != 'x' && c != 'X'
  {
  }

  /** A run of digits followed by text that does not continue it is read up to its end. */
  lemma {:induction false} DigitRunStops(d: string, rest: string, radix: nat)
    requires forall k :: 0 <= k < |d| ==> IsDigitIn(d[k], radix)
    requires rest == [] || !IsDigitIn(rest[0], radix)
    ensures DigitRun(d + rest, radix) == |d|
  {
    if d == [] {
      assert d + rest == rest;
    } else {
      assert (d + rest)[1..] == d[1..] + rest;
      DigitRunStops(d[1..], rest, radix);
    }
  }

  /** The unsigned reading of a decimal numeral followed by text that does not continue it. */
  lemma ParseUnsignedDecimal(n: nat, rest: string)
    requires rest == [] || (!IsDigitIn(rest[0], 10) && rest[0] != 'x' && rest[0] != 'X')
    ensures ParseUnsigned(Decimal(n) + rest) == Some(n)
  {
    var d := Decimal(n);
    var s := d + rest;
    if |s| >= 2 {
      if |d| >= 2 {
        assert s[1] == d[1];
        DigitIsPlain(d[1]);
      } else {
        assert s[1] == rest[0];
      }
    }
    assert !(|s| >= 2 && s[0] == '0' && (s[1] == 'x' || s[1] == 'X'));
    DigitRunStops(d, rest, 10);
    assert s[..|d|] == d;
    DecimalValue(n);
  }

  /**
   * `parseInt` reads back a decimal numeral, and stops at the first
   * character that does not continue it.
   */
  lemma ParseIntDecimal(n: nat, rest: string)
    requires rest == [] || (!IsDigitIn(rest[0], 10) && rest[0] != 'x' && rest[0] != 'X')
    ensures ParseInt(Decimal(n) + rest) == Some(n)
  {
    var s := Decimal(n) + rest;
    assert s[0] == Decimal(n)[0];
    DigitIsPlain(s[0]);
    assert TrimStart(s) == s;
    assert Unsigned(s) == s;
    ParseUnsignedDecimal(n, rest);
  }

  /** A minus sign negates the value read. */
  lemma ParseIntNegative(n: nat)
    ensures ParseInt("-" + Decimal(n)) == Some(-(n as int))
  {
    var s := "-" + Decimal(n);
    assert TrimStart(s) == s;
    assert Unsigned(s) == Decimal(n);
    assert Decimal(n) + [] == Decimal(n);
    ParseUnsignedDecimal(n, []);
  }

  /** Text with no sign and no digit in it is `NaN`. */
  lemma ParseIntNaN(s: string)
    requires forall k :: 0 <= k < |s| ==> !IsDigitIn(s[k], 10) && s[k] != '-' && s[k] != '+'
    ensures ParseInt(s) == None
  {
    var t := TrimStart(s);
    if t != [] {
      assert t[0] == s[|s| - |t|];
    }
    assert Unsigned(t) == t;
    ParseUnsignedNoDigit(t);
  }

  /** Text that does not start with a digit has no unsigned reading. */
  lemma ParseUnsignedNoDigit(u: string)
    requires u == [] || !IsDigitIn(u[0], 10)
    ensures ParseUnsigned(u) == None
  {
    assert !(|u| >= 2 && u[0] == '0');
    assert DigitRun(u, 10) == 0;
  }

  /** The default limit text reads as 24. */
  lemma ParseIntDefault()
    ensures ParseInt(DEFAULT_LIMIT) == Some(24)
  {
    assert Decimal(24) == DEFAULT_LIMIT;
    assert Decimal(24) + [] == Decimal(24);
    ParseIntDecimal(24, []);
  }

  // ------------------------------------------------------- query parameters

  /** `url.searchParams`, one value per name (`get` returns the first one). */
  type Params = map<string, string>

  function Get(params: Params, name: string): Option<string> {
    if name in params then Some(params[name]) else None
  }

  /** `url.searchParams.get(name)?.split(",") || []`. */
  function FilterList(params: Params, name: string): (r: seq<string>)
    ensures name !in params ==> r == []
    ensures name in params ==> |r| >= 1 && Join(r, ",") == params[name]
    ensures forall k :: 0 <= k < |r| ==> !Contains(r[k], ",")
  {
    if name in params then
      JoinSplit(params[name], ",");
      SplitPiecesFree(params[name], ",");
      Split(params[name], ",")
    else []
  }

  const DEFAULT_LIMIT := "24"
  const MAX_LIMIT := 100
  const MAX_FILTERS := 10
  const INVALID_LIMIT := "Invalid limit parameter"
  const TOO_MANY_FILTERS := "Too many filter parameters"

  /** `Math.min(n, 100)`, where `Math.min(NaN, 100)` is `NaN`. */
  function Capped(n: Option<int>): Option<int> {
    match n
    case None => None
    case Some(v) => Some(if v < MAX_LIMIT then v else MAX_LIMIT)
  }

  /** `Math.min(parseInt(get("limit") || "24"), 100)`, with `NaN` as `None`. */
  function RequestedLimit(params: Params): (r: Option<int>)
    ensures r.Some? ==> r.value <= MAX_LIMIT
    ensures !Truthy(Get(params, "limit")) ==> r == Some(24)
    ensures Truthy(Get(params, "limit")) ==> r == Capped(ParseInt(params["limit"]))
  {
    var text := OrElse(Get(params, "limit"), DEFAULT_LIMIT);
    if Truthy(Get(params, "limit")) then Capped(ParseInt(text))
    else ParseIntDefault(); Capped(ParseInt(text))
  }

  /** A validated listing request. */
  datatype Query = Query(keywords: seq<string>, skills: seq<string>, groups: seq<string>,
                         limit: int, token: Option<string>)

  datatype Parsed = Rejected(message: string) | Accepted(query: Query)

  /** Parameter parsing and the two `400` checks, the limit check first. */
  function ParseQuery(params: Params): (r: Parsed)
    ensures r.Accepted? ==> 1 <= r.query.limit <= MAX_LIMIT
    ensures r.Accepted? ==>
      (|r.query.keywords| <= MAX_FILTERS && |r.query.skills| <= MAX_FILTERS &&
       |r.query.groups| <= MAX_FILTERS)
  {
    var keywords := FilterList(params, "keywords");
    var skills := FilterList(params, "skills");
    var groups := FilterList(params, "groups");
    var limit := RequestedLimit(params);
    var token := if Truthy(Get(params, "token")) then Get(params, "token") else None;
    if limit.None? || limit.value <= 0 then
      Rejected(INVALID_LIMIT)
    else if |keywords| > MAX_FILTERS || |skills| > MAX_FILTERS || |groups| > MAX_FILTERS then
      Rejected(TOO_MANY_FILTERS)
    else
      Accepted(Query(keywords, skills, groups, limit.value, token))
  }

  /**
   * The request is refused exactly in two cases: the limit is `NaN` or not
   * positive (reported first), or a filter list has more than ten entries.
   * Otherwise the query holds the lists as split and the limit as capped.
   */
  lemma ParseQueryCases(params: Params)
    ensures var r := ParseQuery(params); var limit := RequestedLimit(params);
      (r == Rejected(INVALID_LIMIT) <==> limit.None? || limit.value <= 0) &&
      (r == Rejected(TOO_MANY_FILTERS) <==>
         limit.Some? && limit.value > 0 &&
         (|FilterList(params, "keywords")| > MAX_FILTERS ||
          |FilterList(params, "skills")| > MAX_FILTERS ||
          |FilterList(params, "groups")| > MAX_FILTERS)) &&
      (r.Accepted? ==>
         r.query.keywords == FilterList(params, "keywords") &&
         r.query.skills == FilterList(params, "skills") &&
         r.query.groups == FilterList(params, "groups") &&
         r.query.limit == limit.value &&
         (r.query.token.Some? <==> Truthy(Get(params, "token"))) &&
         (r.query.token.Some? ==> r.query.token.value == params["token"]))
  {
  }

  // --------------------------------------------------------------- the store

  datatype Visibility = Draft | Public | Deleted

  datatype Role = Editor | Viewer

  datatype Thumbnail = Thumbnail(id: string, url: string, altText: string)

  /** A contributor row; the store keeps each project's contributors in `createdAt` ascending order. */
  datatype Contributor = Contributor(email: string, name: string, role: Role, userId: Option<string>)

  datatype Project = Project(
    id: string, title: string, description: string, visibility: Visibility,
    ownerId: string, group: Option<string>, skillTags: seq<string>,
    thumbnail: Option<Thumbnail>, contributors: seq<Contributor>)

  predicate UniqueIds(rows: seq<Project>) {
    forall i, j :: 0 <= i < j < |rows| ==> rows[i].id != rows[j].id
  }

  // ------------------------------------------------------------ the filter

  /** Prisma's `in` with `mode: "insensitive"`. */
  predicate InIgnoringCase(name: string, names: seq<string>) {
    exists k :: 0 <= k < |names| && EqualsIgnoreCase(name, names[k])
  }

  /** Prisma's `contains` with `mode: "insensitive"`. */
  predicate ContainsIgnoringCase(text: string, part: string) {
    Contains(ToLower(text), ToLower(part))
  }

  /** One `OR` pair of the keyword condition: the keyword occurs in the title or in the description. */
  predicate MentionedIn(p: Project, keyword: string) {
    ContainsIgnoringCase(p.title, keyword) || ContainsIgnoringCase(p.description, keyword)
  }

  /** The `where` clause of the listing: a conjunction of four conditions, an empty filter list imposing none. */
  predicate Matches(q: Query, p: Project) {
    p.visibility == Public &&
    (|q.groups| > 0 ==> p.group.Some? && InIgnoringCase(p.group.value, q.groups)) &&
    (|q.skills| > 0 ==> exists t :: 0 <= t < |p.skillTags| && InIgnoringCase(p.skillTags[t], q.skills)) &&
    (|q.keywords| > 0 ==> exists k :: 0 <= k < |q.keywords| && MentionedIn(p, q.keywords[k]))
  }

  function MatchesOf(q: Query): Project -> bool {
    p => Matches(q, p)
  }

  /** The rows that satisfy the `where` clause, in store order. */
  function Matching(q: Query, rows: seq<Project>): (r: seq<Project>)
    ensures |r| <= |rows|
    ensures forall k :: 0 <= k < |r| ==> Matches(q, r[k])
  {
    Filter(rows, MatchesOf(q))
  }

  /** A row is returned exactly when it is in the table and satisfies the `where` clause. */
  lemma MatchingMembers(q: Query, rows: seq<Project>)
    ensures forall p :: p in Matching(q, rows) <==> p in rows && Matches(q, p)
  {
    forall p ensures p in Matching(q, rows) <==> p in rows && Matches(q, p) {
      FilterMembers(rows, MatchesOf(q), p);
    }
  }

  // ------------------------------------------------------------ pagination

  /** The position of the first row with identifier `id`. */
  function PositionOf(rows: seq<Project>, id: string): (r: Option<nat>)
    ensures r.Some? ==>
      (r.value < |rows| && rows[r.value].id == id &&
       forall k :: 0 <= k < r.value ==> rows[k].id != id)
    ensures r.None? ==> forall k :: 0 <= k < |rows| ==> rows[k].id != id
  {
    if rows == [] then None
    else if rows[0].id == id then Some(0)
    else match PositionOf(rows[1..], id) {
      case None => None
      case Some(i) => Some(i + 1)
    }
  }

  /**
   * The rows a `cursor: { id: token }` query ranges over: from the row with
   * that identifier (included) to the end; an identifier no row has leaves
   * nothing.
   */
  function FromCursor(rows: seq<Project>, token: Option<string>): (r: seq<Project>)
    ensures |r| <= |rows| && r == rows[|rows| - |r|..]
    ensures token.None? ==> r == rows
    ensures token.Some? && r != [] ==>
      r[0].id == token.value && forall k :: 0 <= k < |rows| - |r| ==> rows[k].id != token.value
    ensures token.Some? ==> (r == [] <==> forall k :: 0 <= k < |rows| ==> rows[k].id != token.value)
  {
    match token
    case None => rows
    case Some(id) =>
      match PositionOf(rows, id)
      case None => []
      case Some(i) => rows[i..]
  }

  /** `findMany` with `take`: the first `take` matching rows from the cursor on. */
  function FindMany(q: Query, rows: seq<Project>, take: nat): (r: seq<Project>)
    ensures var ms := Matching(q, FromCursor(rows, q.token));
      |r| <= take && |r| <= |ms| && r == ms[..|r|] &&
      (|ms| >= take ==> |r| == take) && (|r| < take ==> r == ms)
    ensures forall k :: 0 <= k < |r| ==> Matches(q, r[k])
  {
    var ms := Matching(q, FromCursor(rows, q.token));
    var n := if take < |ms| then take else |ms|;
    assert forall k :: 0 <= k < n ==> ms[..n][k] == ms[k];
    ms[..n]
  }

  /**
   * `if (resp.length > limit) resp.pop()` on the first `limit + 1` entries
   * of `all`: what is left is the first `limit` entries (all of them when
   * there are no more), and an entry is popped exactly when more follow; it
   * is entry `limit`.
   */
  method PopSurplus<T>(found: seq<T>, limit: nat, ghost all: seq<T>) returns (page: seq<T>, popped: Option<T>)
    requires found == all[..if limit + 1 < |all| then limit + 1 else |all|]
    ensures page == (if |all| > limit then all[..limit] else all)
    ensures popped == (if |all| > limit then Some(all[limit]) else None)
  {
    page, popped := found, None;
    if |found| > limit {
      popped := Some(found[|found| - 1]);
      page := found[..|found| - 1];
    }
  }

  /** The page a query shows, and the token of the page after it. */
  datatype Window = Window(page: seq<Project>, token: Option<string>)

  /** The first `limit` matches, and the identifier of the next one when there is one. */
  function PageOf(q: Query, rows: seq<Project>): Window
    requires q.limit >= 1
  {
    var ms := Matching(q, FromCursor(rows, q.token));
    Window(if |ms| > q.limit then ms[..q.limit] else ms,
           if |ms| > q.limit then Some(ms[q.limit].id) else None)
  }

  /**
   * Every project on a page satisfies the filter, there are at most `limit`
   * of them, they are the first matches in store order (newest first), and a
   * token is given exactly when more matches follow.
   */
  lemma PageSound(q: Query, rows: seq<Project>)
    requires q.limit >= 1
    ensures var w := PageOf(q, rows); var ms := Matching(q, FromCursor(rows, q.token));
      |w.page| <= q.limit && w.page == ms[..|w.page|] &&
      (forall k :: 0 <= k < |w.page| ==> Matches(q, w.page[k])) &&
      (w.token.Some? <==> |ms| > q.limit) &&
      (w.token.None? ==> w.page == ms)
  {
    var ms := Matching(q, FromCursor(rows, q.token));
    var page := PageOf(q, rows).page;
    if |ms| > q.limit {
      assert page == ms[..q.limit];
    } else {
      assert page == ms && ms[..|ms|] == ms;
    }
    forall k | 0 <= k < |page| ensures Matches(q, page[k]) {
      assert page[k] == ms[k];
    }
  }

  /**
   * Following the token loses and repeats nothing: when identifiers are
   * unique, this page followed by everything the next query ranges over is
   * exactly what this query ranges over.
   */
  lemma NextPageResumes(q: Query, rows: seq<Project>)
    requires q.limit >= 1 && UniqueIds(rows)
    ensures var w := PageOf(q, rows);
      w.token.Some? ==>
        Matching(q, FromCursor(rows, q.token)) ==
        w.page + Matching(q, FromCursor(rows, w.token))
  {
    var w := PageOf(q, rows);
    var xs := FromCursor(rows, q.token);
    var ms := Matching(q, xs);
    if w.token.Some? {
      var j := FilterPosition(xs, MatchesOf(q), q.limit);
      assert w.token == Some(xs[j].id);
      CursorAtCursorRow(rows, q.token, j);
      SplitAt(ms, q.limit);
    }
  }

  /** With unique identifiers, the cursor of the `j`-th row a cursor ranges over starts at that row. */
  lemma CursorAtCursorRow(rows: seq<Project>, token: Option<string>, j: nat)
    requires UniqueIds(rows) && j < |FromCursor(rows, token)|
    ensures var xs := FromCursor(rows, token); FromCursor(rows, Some(xs[j].id)) == xs[j..]
  {
    var xs := FromCursor(rows, token);
    var start := if token.None? then 0 else PositionOf(rows, token.value).value;
    assert xs == rows[start..];
    DropDrop(rows, start, j);
    assert xs[j] == rows[start + j] && xs[j..] == rows[start + j..];
    CursorAtRow(rows, start + j);
  }

  /** With unique identifiers, the cursor of a row's identifier starts at that row. */
  lemma CursorAtRow(rows: seq<Project>, i: nat)
    requires UniqueIds(rows) && i < |rows|
    ensures FromCursor(rows, Some(rows[i].id)) == rows[i..]
  {
    var p := PositionOf(rows, rows[i].id);
    assert p == Some(i);
  }

  lemma DropDrop<T>(s: seq<T>, a: nat, b: nat)
    requires a + b < |s|
    ensures s[a..][b..] == s[a + b..] && s[a..][b] == s[a + b]
  {
  }

  lemma SplitAt<T>(s: seq<T>, n: nat)
    requires n <= |s|
    ensures s == s[..n] + s[n..]
  {
  }

  // ------------------------------------------------------------ the response

  datatype ThumbnailView = ThumbnailView(id: string, url: string, alt: string)

  /** One entry of `projects` in the response body. */
  datatype Summary = Summary(
    projectId: string, title: string, description: string,
    thumbnail: Option<ThumbnailView>, contributors: seq<string>,
    skillTags: seq<string>, group: Option<string>)

  function Summarize(p: Project): Summary {
    Summary(
      p.id, p.title, p.description,
      match p.thumbnail {
        case None => None
        case Some(t) => Some(ThumbnailView(t.id, t.url, t.altText))
      },
      seq(|p.contributors|, k requires 0 <= k < |p.contributors| => p.contributors[k].name),
      p.skillTags, p.group)
  }

  /** `resp.map(...)`: one entry per row, in the same order. */
  function Summaries(ps: seq<Project>): (r: seq<Summary>)
    ensures |r| == |ps|
    ensures forall k :: 0 <= k < |ps| ==> r[k] == Summarize(ps[k])
  {
    seq(|ps|, k requires 0 <= k < |ps| => Summarize(ps[k]))
  }

  /** Each entry describes its row: same identifier and texts, contributor names in order, and a `null` thumbnail exactly when the row has none. */
  lemma SummarizeFaithful(p: Project)
    ensures var s := Summarize(p);
      s.projectId == p.id && s.title == p.title && s.description == p.description &&
      (s.thumbnail.None? <==> p.thumbnail.None?) &&
      (s.thumbnail.Some? ==> s.thumbnail.value.alt == p.thumbnail.value.altText) &&
      |s.contributors| == |p.contributors| &&
      (forall k :: 0 <= k < |p.contributors| ==> s.contributors[k] == p.contributors[k].name) &&
      s.skillTags == p.skillTags && s.group == p.group
  {
  }

  datatype ListResponse =
    | BadRequest(message: string)
    | Listing(projects: seq<Summary>, paginationToken: Option<string>)
    | ListFailed

  /** The reference behaviour of `GET`: validation, then one page of matches. */
  function ListProjects(params: Params, rows: seq<Project>, storeFails: bool): ListResponse {
    match ParseQuery(params)
    case Rejected(message) => BadRequest(message)
    case Accepted(q) =>
      if storeFails then ListFailed
      else
        var w := PageOf(q, rows);
        Listing(Summaries(w.page), w.token)
  }

  // --------------------------------------------------------------- creation

  /** The column defaults the schema gives a project created with no other data. */
  datatype Defaults = Defaults(title: string, description: string, visibility: Visibility)

  /** The project `POST` creates: owned by the user, with the user as its only contributor, an editor. */
  function NewProject(id: string, user: SessionUser, defaults: Defaults): Project {
    Project(id, defaults.title, defaults.description, defaults.visibility, user.id, None, [], None,
            [Contributor(user.email, user.firstName + " " + user.lastName, Editor, Some(user.id))])
  }

  /** The creator is the new project's owner and its one editor, named "first last". */
  lemma NewProjectHasCreatorAsEditor(id: string, user: SessionUser, defaults: Defaults)
    ensures var p := NewProject(id, user, defaults);
      p.id == id && p.ownerId == user.id &&
      |p.contributors| == 1 && p.contributors[0].role == Editor &&
      p.contributors[0].userId == Some(user.id) && p.contributors[0].email == user.email &&
      p.contributors[0].name == user.firstName + " " + user.lastName &&
      p.skillTags == [] && p.thumbnail.None? && p.group.None?
  {
  }

  datatype CreateResponse = CreateResponse(status: int, projectId: Option<string>)

  /** The project table behind both handlers. */
  class ProjectStore {
    var rows: seq<Project>
    const defaults: Defaults

    ghost predicate Valid()
      reads this
    {
      UniqueIds(rows)
    }

    constructor (rows: seq<Project>, defaults: Defaults)
      requires UniqueIds(rows)
      ensures Valid() && this.rows == rows && this.defaults == defaults
    {
      this.rows := rows;
      this.defaults := defaults;
    }

    /**
     * `GET`: validate the parameters, then fetch one page. `storeFails`
     * stands for the query throwing.
     */
    method List(params: Params, storeFails: bool) returns (r: ListResponse)
      ensures r == ListProjects(params, rows, storeFails)
    {
      var parsed := ParseQuery(params);
      if parsed.Rejected? {
        r := BadRequest(parsed.message);
      } else if storeFails {
        r := ListFailed;
      } else {
        r := FetchPage(parsed.query);
      }
    }

    /** Fetch `limit + 1` matches, pop the extra one and hand out its id as the token. */
    method FetchPage(q: Query) returns (r: ListResponse)
      requires q.limit >= 1
      ensures r == Listing(Summaries(PageOf(q, rows).page), PageOf(q, rows).token)
    {
      var found := FindMany(q, rows, q.limit + 1);
      var resp, popped := PopSurplus(found, q.limit, Matching(q, FromCursor(rows, q.token)));
      var nextToken := if popped.Some? then Some(popped.value.id) else None;
      assert resp == PageOf(q, rows).page;
      assert nextToken == PageOf(q, rows).token;
      r := Listing(Summaries(resp), nextToken);
    }

    /**
     * `POST`: 401 without a session and 403 for anyone but a student, both
     * leaving the table alone; otherwise the new project with the id the store
     * generates, `newId`, or 500 with nothing stored when the insert throws.
     */
    method Create(session: Option<SessionUser>, newId: string, storeFails: bool) returns (r: CreateResponse)
      requires Valid()
      requires forall k :: 0 <= k < |rows| ==> rows[k].id != newId
      modifies this
      ensures Valid()
      ensures session.None? ==> r == CreateResponse(401, None) && rows == old(rows)
      ensures session.Some? && session.value.role != STUDENT ==>
        r == CreateResponse(403, None) && rows == old(rows)
      ensures session.Some? && session.value.role == STUDENT && storeFails ==>
        r == CreateResponse(500, None) && rows == old(rows)
      ensures session.Some? && session.value.role == STUDENT && !storeFails ==>
        r == CreateResponse(200, Some(newId)) &&
        rows == [NewProject(newId, session.value, defaults)] + old(rows)
    {
      if session.None? {
        return CreateResponse(401, None);
      }
      var user := session.value;
      if user.role != STUDENT {
        return CreateResponse(403, None);
      }
      if storeFails {
        return CreateResponse(500, None);
      }
      rows := [NewProject(newId, user, defaults)] + rows;
      r := CreateResponse(200, Some(newId));
    }
  }
}
