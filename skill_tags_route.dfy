/**
 * The skill-tag endpoint: `GET` returns every tag ordered by name, and `POST`
 * is a find-or-create on the name-keyed tag table, open to students only.
 */
module SkillTagsRoute {
  import opened Wrappers
  import opened Sessions

  datatype SkillTag = SkillTag(id: string, name: string)

  // ------------------------------------------------------------- ordering

  /** Code-unit lexicographic order on names, a prefix first. */
  predicate NameLe(a: string, b: string) {
    a == [] || (b != [] && (a[0] < b[0] || (a[0] == b[0] && NameLe(a[1..], b[1..]))))
  }

  /** Any two names are ordered one way or the other. */
  lemma {:induction false} NameLeTotal(a: string, b: string)
    ensures NameLe(a, b) || NameLe(b, a)
  {
    if a != [] && b != [] && a[0] == b[0] {
      NameLeTotal(a[1..], b[1..]);
    }
  }

  /** Names ascending, neighbour by neighbour. */
  predicate SortedByName(ts: seq<SkillTag>) {
    forall k :: 0 < k < |ts| ==> NameLe(ts[k - 1].name, ts[k].name)
  }

  /** `t` placed before the first tag of `ts` whose name does not precede it. */
  function Insert(t: SkillTag, ts: seq<SkillTag>): (r: seq<SkillTag>)
    ensures |r| == |ts| + 1
    ensures r != [] && (r[0] == t || (ts != [] && r[0] == ts[0]))
  {
    if ts == [] || NameLe(t.name, ts[0].name) then [t] + ts
    else [ts[0]] + Insert(t, ts[1..])
  }

  /** The tags in the order `orderBy: { name: "asc" }` returns them. */
  function SortByName(ts: seq<SkillTag>): (r: seq<SkillTag>)
    ensures |r| == |ts|
  {
    if ts == [] then [] else Insert(ts[0], SortByName(ts[1..]))
  }

  lemma {:induction false} InsertSorted(t: SkillTag, ts: seq<SkillTag>)
    requires SortedByName(ts)
    ensures SortedByName(Insert(t, ts))
    ensures multiset(Insert(t, ts)) == multiset(ts) + multiset{t}
  {
    if ts == [] || NameLe(t.name, ts[0].name) {
    } else {
      var rest := Insert(t, ts[1..]);
      assert SortedByName(ts[1..]) by {
        forall k | 0 < k < |ts[1..]| ensures NameLe(ts[1..][k - 1].name, ts[1..][k].name) {
          assert ts[1..][k - 1] == ts[k] && ts[1..][k] == ts[k + 1];
        }
      }
      InsertSorted(t, ts[1..]);
      NameLeTotal(t.name, ts[0].name);
      var r := [ts[0]] + rest;
      forall k | 0 < k < |r| ensures NameLe(r[k - 1].name, r[k].name) {
        if k > 1 {
          assert r[k - 1] == rest[k - 2] && r[k] == rest[k - 1];
        } else if rest[0] != t {
          assert rest[0] == ts[1];
        }
      }
      assert ts == [ts[0]] + ts[1..];
    }
  }

  /** `GET` lists every tag exactly once, ordered by name. */
  lemma {:induction false} SortByNameCorrect(ts: seq<SkillTag>)
    ensures SortedByName(SortByName(ts))
    ensures multiset(SortByName(ts)) == multiset(ts)
  {
    if ts != [] {
      var rest := SortByName(ts[1..]);
      SortByNameCorrect(ts[1..]);
      InsertSorted(ts[0], rest);
      assert SortByName(ts) == Insert(ts[0], rest);
      assert multiset(ts) == multiset(ts[1..]) + multiset{ts[0]} by {
        assert ts == [ts[0]] + ts[1..];
      }
    }
  }

  // ---------------------------------------------------------- find-or-create

  predicate UniqueNames(ts: seq<SkillTag>) {
    forall i, j :: 0 <= i < j < |ts| ==> ts[i].name != ts[j].name
  }

  predicate UniqueIds(ts: seq<SkillTag>) {
    forall i, j :: 0 <= i < j < |ts| ==> ts[i].id != ts[j].id
  }

  /** `findUnique({ where: { name } })`. */
  function FindByName(ts: seq<SkillTag>, name: string): (r: Option<SkillTag>)
    ensures r.Some? ==> r.value in ts && r.value.name == name
    ensures r.None? ==> forall k :: 0 <= k < |ts| ==> ts[k].name != name
  {
    if ts == [] then None
    else if ts[0].name == name then Some(ts[0])
    else FindByName(ts[1..], name)
  }

  /** The table after a `POST` for `name`, and the tag returned with whether it was created. */
  datatype FindOrCreateResult = FindOrCreateResult(tags: seq<SkillTag>, tag: SkillTag, created: bool)

  /** The existing tag with that name, or a new one with the identifier the store generates. */
  function FindOrCreate(ts: seq<SkillTag>, name: string, newId: string): FindOrCreateResult {
    match FindByName(ts, name)
    case Some(t) => FindOrCreateResult(ts, t, false)
    case None =>
      var t := SkillTag(newId, name);
      FindOrCreateResult(ts + [t], t, true)
  }

  /** A name already in the table: that tag comes back and nothing is inserted. */
  lemma FindOrCreateExisting(ts: seq<SkillTag>, k: nat, newId: string)
    requires UniqueNames(ts) && k < |ts|
    ensures FindOrCreate(ts, ts[k].name, newId) == FindOrCreateResult(ts, ts[k], false)
  {
    var r := FindByName(ts, ts[k].name);
    var i :| 0 <= i < |ts| && ts[i] == r.value;
    assert i == k;
  }

  /** A new name: exactly one tag is inserted, with that name, and it is the one returned. */
  lemma FindOrCreateNew(ts: seq<SkillTag>, name: string, newId: string)
    requires forall k :: 0 <= k < |ts| ==> ts[k].name != name
    ensures FindOrCreate(ts, name, newId) ==
      FindOrCreateResult(ts + [SkillTag(newId, name)], SkillTag(newId, name), true)
  {
  }

  /** Repeating a `POST` with the same name leaves the table as the first one left it, and returns the same tag. */
  lemma FindOrCreateIdempotent(ts: seq<SkillTag>, name: string, id1: string, id2: string)
    requires UniqueNames(ts)
    ensures var first := FindOrCreate(ts, name, id1);
      var second := FindOrCreate(first.tags, name, id2);
      second.tags == first.tags && second.tag == first.tag && !second.created
  {
    var first := FindOrCreate(ts, name, id1);
    assert UniqueNames(first.tags);
    var k :| 0 <= k < |first.tags| && first.tags[k] == first.tag;
    FindOrCreateExisting(first.tags, k, id2);
  }

  /** Find-or-create keeps names unique, and identifiers unique when the new one is fresh. */
  lemma FindOrCreateKeepsUnique(ts: seq<SkillTag>, name: string, newId: string)
    requires UniqueNames(ts) && UniqueIds(ts)
    requires forall k :: 0 <= k < |ts| ==> ts[k].id != newId
    ensures UniqueNames(FindOrCreate(ts, name, newId).tags)
    ensures UniqueIds(FindOrCreate(ts, name, newId).tags)
  {
  }

  // ---------------------------------------------------------------- handlers

  datatype ListResponse = Tags(tags: seq<SkillTag>) | ListFailed

  /** What a `POST` request carries: no body at all, or a JSON object with or without a `skill` field. */
  datatype RequestBody = NoBody | JsonBody(skill: Option<string>)

  /**
   * `request.body.skill` as written. On an App Router request `body` is a
   * byte stream, which has no `skill` property, or `null`, on which the read
   * throws before the `try` (the framework then answers 500 as well). No
   * reading of any body yields a name.
   */
  function SkillAsWritten(body: RequestBody): (r: Option<string>)
    ensures r.None?
  {
    None
  }

  /** `(await request.json()).skill`, as the sibling routes read their bodies. */
  function SkillFromJson(body: RequestBody): (r: Option<string>)
    ensures r.Some? <==> body.JsonBody? && body.skill.Some?
    ensures r.Some? ==> r == body.skill
  {
    match body
    case NoBody => None
    case JsonBody(skill) => skill
  }

  /** A JSON body naming a skill is read as that name, and never as written. */
  lemma BodyReadDiffers(name: string)
    ensures SkillFromJson(JsonBody(Some(name))) == Some(name)
    ensures SkillAsWritten(JsonBody(Some(name))) != SkillFromJson(JsonBody(Some(name)))
  {
  }

  /** A `POST` response: its status and, for 200 and 201, the tag in the body. */
  datatype TagResponse = TagResponse(status: int, tag: Option<SkillTag>)

  /** The tag table. */
  class SkillTagTable {
    var tags: seq<SkillTag>

    ghost predicate Valid()
      reads this
    {
      UniqueNames(tags) && UniqueIds(tags)
    }

    constructor (tags: seq<SkillTag>)
      requires UniqueNames(tags) && UniqueIds(tags)
      ensures Valid() && this.tags == tags
    {
      this.tags := tags;
    }

    /** `GET`: 200 with every tag ordered by name, or 500 when the query throws. */
    method List(storeFails: bool) returns (r: ListResponse)
      ensures storeFails ==> r == ListFailed
      ensures !storeFails ==> r == Tags(SortByName(tags))
      ensures r.Tags? ==> SortedByName(r.tags) && multiset(r.tags) == multiset(tags)
    {
      if storeFails {
        r := ListFailed;
      } else {
        SortByNameCorrect(tags);
        r := Tags(SortByName(tags));
      }
    }

    /**
     * `POST` once the name has been read from the request: 401 without a
     * session and 403 for anyone but a student, the table unchanged; then
     * find-or-create on the name. A missing name makes the lookup throw, and
     * so does any store failure: 500, nothing inserted.
     */
    method Post(session: Option<SessionUser>, skill: Option<string>, newId: string, storeFails: bool)
      returns (r: TagResponse)
      requires Valid()
      requires forall k :: 0 <= k < |tags| ==> tags[k].id != newId
      modifies this
      ensures Valid()
      ensures session.None? ==> r == TagResponse(401, None) && tags == old(tags)
      ensures session.Some? && session.value.role != STUDENT ==>
        r == TagResponse(403, None) && tags == old(tags)
      ensures session.Some? && session.value.role == STUDENT && (skill.None? || storeFails) ==>
        r == TagResponse(500, None) && tags == old(tags)
      ensures session.Some? && session.value.role == STUDENT && skill.Some? && !storeFails ==>
        var f := FindOrCreate(old(tags), skill.value, newId);
        tags == f.tags && r == TagResponse(if f.created then 201 else 200, Some(f.tag))
    {
      if session.None? {
        return TagResponse(401, None);
      }
      if session.value.role != STUDENT {
        return TagResponse(403, None);
      }
      if skill.None? || storeFails {
        return TagResponse(500, None);
      }
      var name := skill.value;
      var existing := FindByName(tags, name);
      if existing.Some? {
        return TagResponse(200, existing);
      }
      FindOrCreateKeepsUnique(tags, name, newId);
      var created := SkillTag(newId, name);
      tags := tags + [created];
      r := TagResponse(201, Some(created));
    }

    /** `POST` as written: a student is always answered 500 and no tag is ever created. */
    method PostAsWritten(session: Option<SessionUser>, body: RequestBody, newId: string, storeFails: bool)
      returns (r: TagResponse)
      requires Valid()
      requires forall k :: 0 <= k < |tags| ==> tags[k].id != newId
      modifies this
      ensures Valid() && tags == old(tags)
      ensures session.None? ==> r == TagResponse(401, None)
      ensures session.Some? && session.value.role != STUDENT ==> r == TagResponse(403, None)
      ensures session.Some? && session.value.role == STUDENT ==> r == TagResponse(500, None)
    {
      r := Post(session, SkillAsWritten(body), newId, storeFails);
    }

    /** `POST` reading the name from a JSON body: find-or-create runs whenever a student names a skill. */
    method PostJson(session: Option<SessionUser>, body: RequestBody, newId: string, storeFails: bool)
      returns (r: TagResponse)
      requires Valid()
      requires forall k :: 0 <= k < |tags| ==> tags[k].id != newId
      modifies this
      ensures Valid()
      ensures session.None? ==> r == TagResponse(401, None) && tags == old(tags)
      ensures session.Some? && session.value.role != STUDENT ==>
        r == TagResponse(403, None) && tags == old(tags)
      ensures session.Some? && session.value.role == STUDENT && (storeFails || !(body.JsonBody? && body.skill.Some?)) ==>
        r == TagResponse(500, None) && tags == old(tags)
      ensures session.Some? && session.value.role == STUDENT && body.JsonBody? && body.skill.Some? && !storeFails ==>
        var f := FindOrCreate(old(tags), body.skill.value, newId);
        tags == f.tags && r == TagResponse(if f.created then 201 else 200, Some(f.tag))
    {
      r := Post(session, SkillFromJson(body), newId, storeFails);
    }
  }
}
