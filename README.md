# BeyondGPA core, modelled in Dafny

BeyondGPA is a project showcase for RPI students. This project models its core:

- **The quota-limited upload stream** (`QuotaStreams`). It counts bytes, forwards each chunk while the count stays within the quota, and ends in one of three ways: a clean end, "Quota exceeded", or the source's own error.
- **The project collection endpoint** (`ProjectRoute`):
  - `GET` validates its query parameters. Integer parsing follows JavaScript's `parseInt`.
  - It filters public projects by group, skill and keyword, ignoring case.
  - It returns one page, newest first, with a continuation token.
  - `POST` creates an empty project owned by the signed-in student, who becomes its only editor.
- **The skill-tag endpoint** (`SkillTagsRoute`): a name-ordered listing, and a find-or-create that only students may call.
- **The identity mapping of the sign-in providers**:
  - `LibAuthProviders` covers the RPI Shibboleth OpenID Connect profile and the development OAuth profile.
  - `AuthProviders` covers the development credentials login.
  - `Auth` covers the NextAuth configuration and how it picks providers by environment.
- **The client-side project editing state**:
  - `ClientProjects` holds the pure updaters that each successful server action applies.
  - The owner and contributor editing pages (`OwnerProjectEdit`, `ContributorEdit`) are modelled, along with the contributor list (`ContributorsList`) and the question editor (`QuestionEdit`).
  - So are three pickers: `SkillTagSelector`, `CourseGroupSelector` and `KeywordSelector`. They share their highlight arithmetic (`Highlight`).

Shared helpers:

- `Wrappers` (`Option`)
- `Strings`: JavaScript `toLowerCase`, `includes`, `split`, `trim`, `||` and template interpolation.
- `Lists`: the `filter`/`map` list updaters keyed by `id`.
- `Sessions`: the session user.

How the model is written:

- State the source updates in place is a class with `modifies` clauses: the stream and its reader, the project and tag tables, and each component's React state.
- Each method is proved against a specification function (`Run`, `ListProjects`, `PageOf`, `FindOrCreate`, `SortByName`, `Apply`, `FilteredTags`, `Down`/`Up`, `TrimmedNonBlank`).
- Lemmas state what the source promises about those functions.

## Model

| member | source | states |
|---|---|---|
| QuotaStreams.Message | src/lib/quota-stream.ts:23-31 | The error message is "Quota exceeded" for the quota error and the source's own message for a read failure. |
| QuotaStreams.EndStatus | src/lib/quota-stream.ts:17-19 | An exhausted source ends the stream cleanly. A failing source destroys it with exactly that source's error. |
| QuotaStreams.TotalLengthAppend | src/lib/quota-stream.ts:21 | The running count after a chunk is the previous count plus the chunk's byte length. |
| QuotaStreams.RunWithinQuota | src/lib/quota-stream.ts:14-32 | When the total fits the quota (equality included), or nothing is left to read, every chunk is forwarded unchanged and in order. The stream then ends as its source does. |
| QuotaStreams.RunOverQuota | src/lib/quota-stream.ts:21-28 | Over the quota, the stream is destroyed with "Quota exceeded". It has forwarded the longest prefix that fits. The chunk that crosses the quota is never forwarded, and nothing after it is. |
| QuotaStreams.RunStep | src/lib/quota-stream.ts:21-28 | A chunk that keeps the count within the quota is forwarded, and the run goes on with the next chunk from the raised count. |
| QuotaStreams.CrossingShift | src/lib/quota-stream.ts:21-26 | The chunk that crosses the quota in the tail is, seen from the whole source, one chunk later, with the count before it still within the quota. |
| QuotaStreams.RunQuotaExceededIff | src/lib/quota-stream.ts:21-26 | "Quota exceeded" is reported if and only if at least one chunk arrives and the total exceeds the quota. |
| QuotaStreams.RunForwardsWithinQuota | src/lib/quota-stream.ts:21-28 | What is forwarded is always a prefix of the source. When non-empty, its byte total is within the quota. |
| QuotaStreams.ChunkReader.constructor | src/lib/quota-stream.ts:8-12 | The reader starts at the first chunk of its source. |
| QuotaStreams.ChunkReader.Read | src/lib/quota-stream.ts:15-16 | `reader.read()` yields the next chunk, then either `done` or the source's error, and never moves past the end. |
| QuotaStreams.QuotaStream.constructor | src/lib/quota-stream.ts:6-12 | A new stream has read nothing, counted 0 bytes and pushed nothing. |
| QuotaStreams.QuotaStream.Read | src/lib/quota-stream.ts:14-32 | One `_read`. `done` ends the stream. A thrown read destroys it with that error. A chunk raises the count; the stream is destroyed if the count passes the quota, and otherwise pushes the chunk. The stream invariant (the count equals the bytes taken; what was pushed is what was taken, less the crossing chunk) is kept. Each call is one step of the reference behaviour `Run`. |
| QuotaStreams.QuotaStream.Consume | src/lib/quota-stream.ts:14-32 | Pulling until the stream finishes gives exactly the reference behaviour `Run` on the unread chunks: the same final status and the same forwarded chunks. |
| QuotaStreams.Transfer | src/lib/quota-stream.ts:6-32 | A fresh stream, drained, forwards exactly the source when it fits the quota. Otherwise it fails with "Quota exceeded" if and only if there is a chunk and the total exceeds the quota. It always forwards a prefix within the quota. |
| ProjectRoute.DigitRun | src/app/api/v1/project/route.ts:14-17 | `parseInt` reads the longest run of digits of the selected radix. |
| ProjectRoute.Decimal | src/app/api/v1/project/route.ts:14 | The decimal numeral of a number is non-empty and made only of decimal digits. |
| ProjectRoute.DecimalValue | src/app/api/v1/project/route.ts:14-17 | A decimal numeral denotes the number it was written from. |
| ProjectRoute.DigitIsPlain | src/app/api/v1/project/route.ts:14-17 | A decimal digit is not white space, not a sign and not a hex marker, so `parseInt` does not skip it or take it as a prefix. |
| ProjectRoute.DigitRunStops | src/app/api/v1/project/route.ts:14-17 | The digit run stops exactly at the first character that does not continue it. |
| ProjectRoute.ParseUnsignedDecimal | src/app/api/v1/project/route.ts:14-17 | Without a sign, a decimal numeral followed by a non-digit reads back as its number. |
| ProjectRoute.ParseIntDecimal | src/app/api/v1/project/route.ts:14-17 | `parseInt` reads back any decimal numeral and stops at trailing text, so "12abc" is 12. |
| ProjectRoute.ParseIntNegative | src/app/api/v1/project/route.ts:14-17 | A leading minus gives the negated value, which the limit check then refuses. |
| ProjectRoute.ParseIntNaN | src/app/api/v1/project/route.ts:14-17 | Text with no digit and no sign is `NaN`. |
| ProjectRoute.ParseIntDefault | src/app/api/v1/project/route.ts:15 | The default "24" reads as 24. |
| ProjectRoute.FilterList | src/app/api/v1/project/route.ts:8-12 | A missing parameter gives no filters. A present one is split on ",": at least one piece, no piece holds a comma, and joining the pieces gives the parameter back. |
| ProjectRoute.RequestedLimit | src/app/api/v1/project/route.ts:14-17 | The limit is 24 when the parameter is missing or empty, and otherwise `parseInt` of it capped at 100 (`NaN` stays `NaN`). It is never above 100. |
| ProjectRoute.ParseQuery | src/app/api/v1/project/route.ts:8-26 | An accepted query has a limit between 1 and 100 and at most ten entries in each filter list. |
| ProjectRoute.ParseQueryCases | src/app/api/v1/project/route.ts:18-26 | A request is refused with "Invalid limit parameter" if and only if the limit is `NaN` or not positive. It is refused with "Too many filter parameters" if and only if the limit is good and some list exceeds ten. An accepted query carries the parsed lists, the capped limit, and the token only when it is non-empty. |
| ProjectRoute.Matching | src/app/api/v1/project/route.ts:28-65 | Every row kept is public and satisfies the group, skill and keyword conditions, each ignoring case. |
| ProjectRoute.MatchingMembers | src/app/api/v1/project/route.ts:28-65 | A project is in the result exactly when it is in the table and satisfies the `where` clause. |
| ProjectRoute.PositionOf | src/app/api/v1/project/route.ts:76 | The cursor row is the first row carrying the token's identifier, or none when no row carries it. |
| ProjectRoute.FromCursor | src/app/api/v1/project/route.ts:76 | The range is always a suffix of the table. Without a token it is the whole table. With a token, a non-empty range starts at the first row carrying that identifier, and no earlier row carries it. The range is empty exactly when no row has the identifier. |
| ProjectRoute.FindMany | src/app/api/v1/project/route.ts:66-78 | `findMany` returns a prefix of the matching rows from the cursor on, in store order (newest first), of at most `take` rows. It has exactly `take` rows when that many match, and every match when fewer do. Every row returned satisfies the `where` clause. |
| ProjectRoute.PopSurplus | src/app/api/v1/project/route.ts:80-84 | Popping after fetching `limit + 1` leaves the first `limit` matches. An entry is popped exactly when more matches follow, and the popped entry is match number `limit`. |
| ProjectRoute.PageSound | src/app/api/v1/project/route.ts:66-84 | A page holds at most `limit` projects. They all match and are the first matches in order. A token is given if and only if more matches follow; without one the page is every match. |
| ProjectRoute.NextPageResumes | src/app/api/v1/project/route.ts:76-84 | With unique identifiers, following the token loses and repeats nothing: this page plus everything the next query ranges over is exactly what this query ranges over. |
| ProjectRoute.CursorAtRow | src/app/api/v1/project/route.ts:76 | With unique identifiers, a row's identifier used as the cursor starts exactly at that row. |
| ProjectRoute.CursorAtCursorRow | src/app/api/v1/project/route.ts:76-84 | With unique identifiers, the identifier of any row a cursor query ranges over, used as the next cursor, starts exactly at that row. |
| ProjectRoute.Summaries | src/app/api/v1/project/route.ts:86-105 | The response has one entry per fetched row, in the same order. |
| ProjectRoute.SummarizeFaithful | src/app/api/v1/project/route.ts:86-105 | Each entry carries its row's identifier, title and description, skill tags and group, and the contributor names in order. The thumbnail is `null` if and only if the row has none; otherwise its alt text is the row's `altText`. |
| ProjectRoute.NewProjectHasCreatorAsEditor | src/app/api/v1/project/route.ts:131-144 | The created project is owned by the user and has no tags, thumbnail or group. Its only contributor is the user, as an editor, with their email and the name "first last". |
| ProjectRoute.ProjectStore.constructor | src/app/api/v1/project/route.ts:66-78 | The store starts with the given rows. |
| ProjectRoute.ProjectStore.List | src/app/api/v1/project/route.ts:7-115 | `GET` answers exactly the reference behaviour: a 400 with its message, a 500 when the query throws, or the page and token of `PageOf`. |
| ProjectRoute.ProjectStore.FetchPage | src/app/api/v1/project/route.ts:66-109 | Fetching `limit + 1` matches, popping the surplus and handing out its id gives exactly the page and token of `PageOf`. |
| ProjectRoute.ProjectStore.Create | src/app/api/v1/project/route.ts:117-156 | `POST` answers 401 without a session and 403 for a non-student, leaving the table alone, and 500 with nothing stored when the insert throws. Otherwise it answers 200 with the new id, and the new project is the newest row. Identifiers stay unique. |
| SkillTagsRoute.NameLeTotal | src/app/api/v1/project/skill-tags/route.ts:10-12 | The name order is total. |
| SkillTagsRoute.Insert | src/app/api/v1/project/skill-tags/route.ts:10-12 | Inserting adds exactly one entry, and the head is the new tag or the old head. |
| SkillTagsRoute.SortByName | src/app/api/v1/project/skill-tags/route.ts:10-12 | Sorting keeps the number of tags. |
| SkillTagsRoute.InsertSorted | src/app/api/v1/project/skill-tags/route.ts:10-12 | Inserting into a name-ordered list keeps it ordered, and adds exactly that tag. |
| SkillTagsRoute.SortByNameCorrect | src/app/api/v1/project/skill-tags/route.ts:8-14 | `GET` returns every tag exactly once (a permutation), ordered by name ascending. |
| SkillTagsRoute.FindByName | src/app/api/v1/project/skill-tags/route.ts:36-38 | The lookup returns a tag of the table with that name, or none when no tag has it. |
| SkillTagsRoute.FindOrCreateExisting | src/app/api/v1/project/skill-tags/route.ts:36-42 | A name already in the table returns that tag and inserts nothing. |
| SkillTagsRoute.FindOrCreateNew | src/app/api/v1/project/skill-tags/route.ts:44-48 | A new name inserts exactly one tag, with that name and the generated id, and returns it as created. |
| SkillTagsRoute.FindOrCreateIdempotent | src/app/api/v1/project/skill-tags/route.ts:31-48 | A second `POST` with the same name changes nothing and returns the same tag, not as created. |
| SkillTagsRoute.FindOrCreateKeepsUnique | src/app/api/v1/project/skill-tags/route.ts:31-48 | Find-or-create keeps names unique, and keeps identifiers unique when the new one is fresh. |
| SkillTagsRoute.SkillTagTable.constructor | src/app/api/v1/project/skill-tags/route.ts:6-19 | The table starts with the given tags. |
| SkillTagsRoute.SkillTagTable.List | src/app/api/v1/project/skill-tags/route.ts:6-19 | `GET` answers 500 when the query throws, and otherwise every tag exactly once, sorted by name. |
| SkillTagsRoute.SkillTagTable.Post | src/app/api/v1/project/skill-tags/route.ts:21-54 | Once the name is read, `POST` answers 401 without a session and 403 for a non-student, with the table unchanged. A missing name or a store failure answers 500, with nothing inserted. Otherwise the table becomes the find-or-create result, answering 200 for an existing tag or 201 for a new one, with the tag in the body. |
| SkillTagsRoute.SkillAsWritten | src/app/api/v1/project/skill-tags/route.ts:31 | Reading `skill` off the request's body stream never yields a name. |
| SkillTagsRoute.SkillFromJson | src/app/api/v1/project/skill-tags/route.ts:31 | Reading the JSON body gives a name exactly when the body has a `skill` field, and then that field. |
| SkillTagsRoute.BodyReadDiffers | src/app/api/v1/project/skill-tags/route.ts:31 | For a JSON body naming a skill, the two readings differ: only the JSON reading yields the name. |
| SkillTagsRoute.SkillTagTable.PostAsWritten | src/app/api/v1/project/skill-tags/route.ts:21-54 | As written, the handler answers 401 and 403 as before, and always 500 to a student; the table never changes. |
| SkillTagsRoute.SkillTagTable.PostJson | src/app/api/v1/project/skill-tags/route.ts:21-54 | Reading the name from a JSON body, a student naming a skill gets find-or-create, answering 200 or 201 with the tag. A body with no name, or a store failure, answers 500 with nothing inserted. |
| LibAuthProviders.RcsidSpec | src/lib/authentication/providers.ts:40 | The RCS id is a non-empty `preferred_username`. Otherwise it is the part of `sub` before its first "@": a prefix of `sub` with no "@" in it, and all of `sub` when there is no "@". |
| LibAuthProviders.Role | src/lib/authentication/providers.ts:42 | The role is the affiliation when it is non-empty, and "student" otherwise. |
| LibAuthProviders.RpiProfilePaths | src/lib/authentication/providers.ts:28-63 | The fallback is used if and only if there is no access token or the userinfo fetch fails. Otherwise every field comes from userinfo, with missing names as "", the affiliation or "student" as the role, and the clock's reading as the verification date. |
| LibAuthProviders.FallbackUserSpec | src/lib/authentication/providers.ts:52-62 | The fallback keeps `sub` as the id and the token's email, sets the role to "student" and leaves no verification date. The family name is the text before the first " ,". The given name is the next segment, or "" when there is no separator, in which case the family name is the whole name. |
| LibAuthProviders.DevProfileSpec | src/lib/authentication/providers.ts:118-128 | The development profile keeps `sub` as the id, passes the names through unchanged, derives the RCS id and role as the RPI profile does, and has no verification date. |
| AuthProviders.AuthorizeSpec | src/authentication/providers.ts:114-129 | No credentials give no user. Otherwise: id and email are both the RCS id followed by "@rpi.edu"; the RCS id is passed unchanged; missing or empty names become ""; the role defaults to "student" and the department to "General Studies". |
| Auth.RpiProfileSpec | src/auth.ts:33-74 | The full record is produced if and only if there is an access token and the fetch succeeds; the id is always the token's `sub`. The full record takes userinfo's email, falling back to the token's, and the affiliation, falling back to "student". Its RCS id is `preferred_username`, falling back to `sub` before "@". Its first and last names are `given_name` and `family_name`, each falling back to "". It is verified now. The fallback is `sub`, name, email and "student". |
| Auth.AuthorizeSpec | src/auth.ts:85-98 | No credentials give no user. Otherwise: the id is the RCS id itself; the name is kept; the email is the RCS id followed by "@rpi.edu"; affiliation and department take their defaults. |
| Auth.Providers | src/auth.ts:7 | There is exactly one provider: the development login when `NEXTAUTH_ENV` is not "production", and RPI Shibboleth when it is. |
| Strings.ToLower | src/components/ProjectEdit/SkillTagSelector.tsx:32-35 | Lower-casing keeps the length and folds each character on its own. |
| Strings.ToLowerIdempotent | src/components/common/KeywordSelector.tsx:85-86 | Lower-casing twice is lower-casing once. |
| Strings.Contains | src/components/ProjectEdit/SkillTagSelector.tsx:35 | `includes` is true if and only if the text occurs at some position. |
| Strings.Split | src/lib/authentication/providers.ts:52 | `split` always yields at least one piece. |
| Strings.JoinSplit | src/app/api/v1/project/route.ts:8-12 | Joining the pieces of a split with its separator gives the string back. |
| Strings.SplitPiecesFree | src/app/api/v1/project/route.ts:8-12 | No piece of a split contains the separator. |
| Strings.BeforeFirstSpec | src/lib/authentication/providers.ts:40 | The first piece of a split is the longest prefix before the first separator. It is the whole string when there is no separator. |
| Strings.TrimEmptyIffBlank | src/components/ProjectEdit/SkillTagSelector.tsx:89 | `trim()` is empty (falsy) if and only if the string is all white space. |
| Strings.TrimmedNonBlank | src/components/ProjectEdit/SkillTagSelector.tsx:89-90 | A trimmed name exists if and only if the string has a non-space character. It is then the trimmed string, non-empty, and starts and ends with non-space. |
| Lists.RemoveById | src/components/ProjectEdit/OwnerProjectEdit.tsx:180-191 | `filter(x => x.id !== id)` never grows the list. |
| Lists.RemoveByIdMembers | src/components/ProjectEdit/OwnerProjectEdit.tsx:180-191 | An entry survives the removal if and only if it is in the list and carries another id. |
| Lists.RemoveByIdDrops | src/components/ProjectEdit/SkillTagSelector.tsx:66-86 | No entry with the removed id is left. |
| Lists.RemoveByIdConcat | src/components/ProjectEdit/OwnerProjectEdit.tsx:180-191 | Removal works entry by entry, so the survivors keep their order. |
| Lists.RemoveByIdAbsent | src/components/ProjectEdit/OwnerProjectEdit.tsx:180-191 | Removing an id that no entry carries changes nothing. |
| Lists.AppendThenRemove | src/components/ProjectEdit/SkillTagSelector.tsx:42-64 | Appending an entry and then removing its id restores a list that did not carry the id. |
| Lists.RemoveThenAppend | src/components/ProjectEdit/SkillTagSelector.tsx:66-86 | Removing an entry whose id is unique, then appending it, gives the same entries in another order. |
| Lists.RemoveAt | src/components/ProjectEdit/SkillTagSelector.tsx:66-86 | Removing an id that only entry `i` carries removes exactly that entry, and keeps the others in order. |
| Lists.MapById | src/components/ProjectEdit/OwnerProjectEdit.tsx:192-203 | `map` by id keeps the length and position. Each entry with that id is rewritten, and every other entry is kept. |
| Lists.MapByIdKeepsOthers | src/components/ProjectEdit/OwnerProjectEdit.tsx:192-203 | Rewriting by id (keeping the id) and then removing that id equals removing it straight away. |
| Lists.Filter | src/components/ProjectEdit/SkillTagSelector.tsx:33-37 | `filter` never grows the list, and everything it keeps passes the test. |
| Lists.FilterConcat | src/components/ProjectEdit/SkillTagSelector.tsx:33-37 | Filtering works entry by entry, so order is kept. |
| Lists.FilterMembers | src/components/ProjectEdit/SkillTagSelector.tsx:33-37 | An entry survives if and only if it is in the list and passes the test. |
| Lists.FilterPosition | src/app/api/v1/project/route.ts:75-84 | The m-th survivor sits at some position j. The entries before j give exactly the first m survivors, and the entries from j on give the rest. |
| Lists.SurvivorIndex | src/app/api/v1/project/route.ts:75-84 | For every survivor count m, some kept entry has exactly m survivors before it. |
| ClientProjects.ContributorAdded | src/components/ProjectEdit/OwnerProjectEdit.tsx:167-179 | Adding appends exactly one blank viewer carrying the returned id. Nothing but the contributor list changes. |
| ClientProjects.ContributorRemoved | src/components/ProjectEdit/OwnerProjectEdit.tsx:180-191 | Removing keeps exactly the contributors with another id, so none with that id is left. Nothing else changes. |
| ClientProjects.ContributorUpdated | src/components/ProjectEdit/OwnerProjectEdit.tsx:192-203 | Updating replaces the contributor wherever the id matched, and leaves the others in place. Nothing else changes. |
| ClientProjects.ContributorRoundTrip | src/components/ProjectEdit/OwnerProjectEdit.tsx:167-191 | Adding a contributor with a new id and then removing it restores the project. |
| ClientProjects.UpdateThenRemove | src/components/ProjectEdit/OwnerProjectEdit.tsx:180-203 | Removing after an update equals removing straight away. |
| ClientProjects.ThumbnailSet | src/components/ProjectEdit/OwnerProjectEdit.tsx:208-222 | A new thumbnail replaces the old one, and the remaining storage is the upload's. Nothing else changes. |
| ClientProjects.ThumbnailCaptioned | src/components/ProjectEdit/OwnerProjectEdit.tsx:223-235 | A caption change keeps the thumbnail's image and id, or makes a caption-only thumbnail when there was none. Nothing else changes. |
| ClientProjects.ThumbnailDeleted | src/components/ProjectEdit/OwnerProjectEdit.tsx:236-246 | A deletion clears the thumbnail and sets the remaining storage. Nothing else changes. |
| ClientProjects.ImageAdded | src/components/ProjectEdit/OwnerProjectEdit.tsx:247-257 | Adding appends the image and sets the remaining storage. Nothing else changes. |
| ClientProjects.ImageCaptioned | src/components/ProjectEdit/OwnerProjectEdit.tsx:258-276 | A caption change rewrites only the caption, and only of the images with that id. Nothing else changes. |
| ClientProjects.ImageDeleted | src/components/ProjectEdit/OwnerProjectEdit.tsx:277-287 | Deleting keeps exactly the images with another id and sets the remaining storage. Nothing else changes. |
| ClientProjects.ImageRoundTrip | src/components/ProjectEdit/OwnerProjectEdit.tsx:247-287 | Adding an image with a new id and then deleting it restores the project, except for the storage, which is the deletion's. |
| ClientProjects.TagAdded | src/components/ProjectEdit/OwnerProjectEdit.tsx:288-297 | Assigning appends the tag: to `skillTags` on the owner's page, to `skill_tags` on the contributor's page (ContributorEdit.tsx:178-187). Nothing else changes. |
| ClientProjects.OwnerTagRemoved | src/components/ProjectEdit/OwnerProjectEdit.tsx:298-307 | On the owner's page, unassigning keeps exactly the tags in `skillTags` with another id. Nothing else changes. |
| ClientProjects.ContributorTagRemoved | src/components/ProjectEdit/ContributorEdit.tsx:188-197 | On the contributor's page, unassigning keeps exactly the tags in `skill_tags` with another id. Nothing else changes. |
| ClientProjects.TagRoundTrip | src/components/ProjectEdit/OwnerProjectEdit.tsx:288-307 | Assigning a tag the project does not carry and then unassigning it restores the project. |
| ClientProjects.TagReassign | src/components/ProjectEdit/ContributorEdit.tsx:178-197 | Unassigning a tag carried once and assigning it again gives the same tags in another order. |
| ClientProjects.LinkAdded | src/components/ProjectEdit/OwnerProjectEdit.tsx:319-328 | Adding appends the link. Nothing else changes. |
| ClientProjects.LinkChanged | src/components/ProjectEdit/OwnerProjectEdit.tsx:329-340 | Changing replaces the link wherever the id matched, and leaves the others in place. Nothing else changes. |
| ClientProjects.LinkDeleted | src/components/ProjectEdit/OwnerProjectEdit.tsx:341-350 | Deleting keeps exactly the links with another id. Nothing else changes. |
| ClientProjects.QuestionAdded | src/components/ProjectEdit/OwnerProjectEdit.tsx:361-370 | Adding appends the question. Nothing else changes. |
| ClientProjects.QuestionChanged | src/components/ProjectEdit/OwnerProjectEdit.tsx:371-382 | Changing replaces the question wherever the id matched, and leaves the others in place. Nothing else changes. |
| ClientProjects.QuestionDeleted | src/components/ProjectEdit/OwnerProjectEdit.tsx:383-392 | Deleting keeps exactly the questions with another id. Nothing else changes. |
| ClientProjects.LinkRoundTrip | src/components/ProjectEdit/OwnerProjectEdit.tsx:319-350 | Adding a link with a new id and then deleting it restores the project. |
| ClientProjects.QuestionRoundTrip | src/components/ProjectEdit/OwnerProjectEdit.tsx:361-392 | Adding a question with a new id and then deleting it restores the project. |
| ClientProjects.FieldEdits | src/components/ProjectEdit/OwnerProjectEdit.tsx:135-165 | Visibility, group and description edits set that one field and nothing else (description at 351-360). |
| OwnerProjectEdit.OwnerProjectEditor.constructor | src/components/ProjectEdit/OwnerProjectEdit.tsx:48-52 | The page starts from the given project, with no groups or tags offered and no error. |
| OwnerProjectEdit.OwnerProjectEditor.OnTitleChange | src/components/ProjectEdit/OwnerProjectEdit.tsx:121-130 | The title changes only on ok. The banner shows the reply's message, or is cleared when there is none, on every reply. |
| OwnerProjectEdit.OwnerProjectEditor.OnEdit | src/components/ProjectEdit/OwnerProjectEdit.tsx:135-392 | Every other callback applies its updater, writing `skillTags`, only when the action reports ok, and otherwise changes nothing. |
| OwnerProjectEdit.OwnerProjectEditor.OnCreateGroup | src/components/ProjectEdit/OwnerProjectEdit.tsx:148-155 | A created group is appended to the groups offered, on ok only. |
| OwnerProjectEdit.OwnerProjectEditor.OnCreateSkillTag | src/components/ProjectEdit/OwnerProjectEdit.tsx:308-318 | A created tag is appended both to the project's tags and to the tags offered, on ok only. |
| ContributorEdit.ContributorEditor.constructor | src/components/ProjectEdit/ContributorEdit.tsx:37-40 | The page starts from the given project, with no tags offered and no error. |
| ContributorEdit.ContributorEditor.OnEdit | src/components/ProjectEdit/ContributorEdit.tsx:98-282 | A callback for an item a contributor may edit (neither visibility, group nor contributors) applies its updater, writing `skill_tags`, only on ok. |
| ContributorEdit.ContributorEditor.OnCreateSkillTag | src/components/ProjectEdit/ContributorEdit.tsx:198-208 | A created tag is appended to the project's `skill_tags` and to the tags offered, on ok only. |
| ContributorsList.ContributorsListView.constructor | src/components/ProjectEdit/ContributorsList.tsx:14-16 | The list starts from the given contributors. |
| ContributorsList.ContributorsListView.OnUpdate | src/components/ProjectEdit/ContributorsList.tsx:18-39 | A failed request shows its response text and keeps the list. A successful one replaces the entry wherever the id matched and leaves every other entry in place. |
| ContributorsList.ContributorsListView.OnDelete | src/components/ProjectEdit/ContributorsList.tsx:41-56 | A failed request shows its response text and keeps the list. A successful one keeps exactly the entries with another id, in order. |
| QuestionEdit.InitialMode | src/components/ProjectEdit/QuestionEdit.tsx:32-37 | A question starts in custom mode if and only if its prompt is non-empty and not a preset. The dropdown shows the placeholder, the preset or the custom entry accordingly (QuestionEdit.tsx:68-74). |
| QuestionEdit.SelectValueIsAnOption | src/components/ProjectEdit/QuestionEdit.tsx:68-84 | Whenever the prompt outside custom mode is empty or a preset, the dropdown's value is one of its entries. It is the custom entry if and only if the editor is in custom mode. |
| QuestionEdit.QuestionInput.constructor | src/components/ProjectEdit/QuestionEdit.tsx:32-37 | The editor starts with the given prompt and answer and an empty error. It is in custom mode exactly for a non-preset, non-empty prompt. |
| QuestionEdit.QuestionInput.SelectPrompt | src/components/ProjectEdit/QuestionEdit.tsx:39-51 | Choosing custom enters custom mode, clears the prompt and saves nothing. Choosing a preset leaves custom mode, sets the prompt and saves it. The dropdown then shows the entry chosen, and consistency is kept. |
| QuestionEdit.QuestionInput.PromptSaved | src/components/ProjectEdit/QuestionEdit.tsx:44-49 | A failed save shows its message, or "Failed to save prompt". |
| QuestionEdit.QuestionInput.PromptTextSaved | src/components/ProjectEdit/QuestionEdit.tsx:98-101 | The typed prompt's save sets the banner to its reply's message. |
| QuestionEdit.QuestionInput.AnswerChange | src/components/ProjectEdit/QuestionEdit.tsx:108-110 | Typing sets the local answer and nothing else. |
| QuestionEdit.QuestionInput.AnswerSaved | src/components/ProjectEdit/QuestionEdit.tsx:111-116 | A failed answer save shows its message, or "Failed to save answer". |
| Highlight.DownSpec | src/components/ProjectEdit/SkillTagSelector.tsx:102-106 | ArrowDown moves one place, but never past the last match, landing on it instead. From a valid position it stays non-negative when there is a match or no query match at all. |
| Highlight.UpSpec | src/components/ProjectEdit/SkillTagSelector.tsx:107-109 | ArrowUp moves one place up, or stays at 0, and never goes negative. |
| SkillTagSelector.FilteredTagsSpec | src/components/ProjectEdit/SkillTagSelector.tsx:31-38 | A tag is listed if and only if it is offered, contains the query ignoring case, and is not selected. Every unselected tag is listed for an empty query, and listing works entry by entry. |
| SkillTagSelector.DropdownSpec | src/components/ProjectEdit/SkillTagSelector.tsx:178-211 | The dropdown is closed if and only if the query is empty, and lists the matches if and only if there are any. With no matches, it says "already selected" if and only if a selected tag has the query's name ignoring case, and otherwise offers to create the query. |
| SkillTagSelector.TagSelector.constructor | src/components/ProjectEdit/SkillTagSelector.tsx:11-23 | The picker starts with nothing typed, selected or loading. |
| SkillTagSelector.TagSelector.Type | src/components/ProjectEdit/SkillTagSelector.tsx:171 | Typing sets the search box only. |
| SkillTagSelector.TagSelector.Settle | src/components/ProjectEdit/SkillTagSelector.tsx:26-29 | The debounce firing copies the search box into the filter query. |
| SkillTagSelector.TagSelector.Hover | src/components/ProjectEdit/SkillTagSelector.tsx:187-200 | Hovering an entry highlights it. |
| SkillTagSelector.TagSelector.BeginSelect | src/components/ProjectEdit/SkillTagSelector.tsx:45-48 | Optimistic selection appends the tag, clears the box and highlight, and marks the id loading. |
| SkillTagSelector.TagSelector.EndSelect | src/components/ProjectEdit/SkillTagSelector.tsx:52-61 | The id stops loading. On failure, every entry with that id leaves the selection. |
| SkillTagSelector.TagSelector.BeginRemove | src/components/ProjectEdit/SkillTagSelector.tsx:69-70 | Optimistic removal drops every entry with the id and marks it loading. |
| SkillTagSelector.TagSelector.EndRemove | src/components/ProjectEdit/SkillTagSelector.tsx:74-83 | The id stops loading. On failure, the tag is appended again. |
| SkillTagSelector.TagSelector.Select | src/components/ProjectEdit/SkillTagSelector.tsx:42-64 | With no interleaving: success appends the tag. A failure removes every entry with the tag's id from the appended selection, as line 60 filters, which rolls back to the previous selection for a tag not already selected. Box and highlight are cleared; the tags and the filter query are unchanged. |
| SkillTagSelector.TagSelector.Remove | src/components/ProjectEdit/SkillTagSelector.tsx:66-86 | With no interleaving: the selection loses every entry with the tag's id, and a failure appends the tag back. So success leaves no entry with the id, and a failure restores the same selected tags, reordered, when the tag was selected once. The tags, box, filter query and highlight are unchanged. |
| SkillTagSelector.TagSelector.CreateName | src/components/ProjectEdit/SkillTagSelector.tsx:88-90 | The name to create is the trimmed query. A blank query creates nothing. |
| SkillTagSelector.TagSelector.EndCreate | src/components/ProjectEdit/SkillTagSelector.tsx:91-95 | A created tag is selected, and the box and highlight cleared. No tag changes nothing. |
| SkillTagSelector.TagSelector.KeyDown | src/components/ProjectEdit/SkillTagSelector.tsx:99-121 | With an empty query, only Escape acts. The arrows move the highlight as `Down`/`Up` say. Escape clears box and highlight. Enter asks to create the trimmed query when nothing matches; otherwise it selects the highlighted tag, or asks for `undefined` when the highlight is past the end. |
| CourseGroupSelector.FilteredGroupsSpec | src/components/common/CourseGroupSelector.tsx:26-31 | A group is listed if and only if it is offered and contains the query ignoring case, whether or not it is selected. An empty query lists every group, and listing works entry by entry. |
| CourseGroupSelector.ListedMembers | src/components/common/CourseGroupSelector.tsx:26-31 | A group survives the filter if and only if it is offered and matches. |
| CourseGroupSelector.ListedConcat | src/components/common/CourseGroupSelector.tsx:26-31 | The filter keeps the order offered. |
| CourseGroupSelector.EmptyQueryListsAll | src/components/common/CourseGroupSelector.tsx:26-31 | The empty query lists every group. |
| CourseGroupSelector.DropdownSpec | src/components/common/CourseGroupSelector.tsx:105-133 | The dropdown is closed if and only if the query is empty, and lists the matches if and only if there are any. With no matches, it says "already selected" if and only if a selected group equals the query ignoring case, and "does not exist" otherwise. |
| CourseGroupSelector.GroupSelector.constructor | src/components/common/CourseGroupSelector.tsx:10-18 | The picker starts with nothing typed and the first entry highlighted. |
| CourseGroupSelector.GroupSelector.Type | src/components/common/CourseGroupSelector.tsx:98 | Typing sets the search box only. |
| CourseGroupSelector.GroupSelector.Settle | src/components/common/CourseGroupSelector.tsx:20-24 | The debounce firing copies the box into the filter query. |
| CourseGroupSelector.GroupSelector.Hover | src/components/common/CourseGroupSelector.tsx:114 | Hovering a listed group highlights it. |
| CourseGroupSelector.GroupSelector.Select | src/components/common/CourseGroupSelector.tsx:35-42 | Selecting clears the box and highlight and forwards the group as it is. |
| CourseGroupSelector.GroupSelector.Remove | src/components/common/CourseGroupSelector.tsx:44-49 | Removing forwards the group to the page unchanged. |
| CourseGroupSelector.GroupSelector.KeyDown | src/components/common/CourseGroupSelector.tsx:51-70 | With an empty query, only Escape acts. The arrows move the highlight as `Down`/`Up` say. Escape clears. Enter forwards the highlighted group, or `undefined` past the end of the list, and clears box and highlight. |
| KeywordSelector.DropdownSpec | src/components/common/KeywordSelector.tsx:83-100 | The dropdown is closed if and only if the query is empty. It shows the notice if and only if a selected keyword equals the query ignoring case, and otherwise the add entry with the query as typed. |
| KeywordSelector.KeywordInput.constructor | src/components/common/KeywordSelector.tsx:9-15 | The box starts empty. |
| KeywordSelector.KeywordInput.Type | src/components/common/KeywordSelector.tsx:76 | Typing sets the box only. |
| KeywordSelector.KeywordInput.Settle | src/components/common/KeywordSelector.tsx:18-21 | The debounce firing copies the box into the filter query. |
| KeywordSelector.KeywordInput.Select | src/components/common/KeywordSelector.tsx:23-30 | Selecting clears the box and forwards the keyword unchanged. |
| KeywordSelector.KeywordInput.Remove | src/components/common/KeywordSelector.tsx:32-37 | Removing forwards the keyword unchanged. |
| KeywordSelector.KeywordInput.ClickAdd | src/components/common/KeywordSelector.tsx:92-97 | Clicking the add entry forwards the query untrimmed and clears the box. |
| KeywordSelector.KeywordInput.KeyDown | src/components/common/KeywordSelector.tsx:39-49 | With an empty query, only Escape acts. Enter forwards the trimmed query and clears the box unless the query is blank, without checking for duplicates. Escape clears the box. |

## Left out

- Network and clocks are parameters or left out:
  - Fetching userinfo is a `Fetch` parameter (fetched body or failure), and the clock's reading is a `now` parameter.
  - A throwing database call is a `storeFails` flag.
  - Each server action's result is an `ok` flag, plus the data the reply carries.
- Console logging, rendering and styling are left out.
- `QuotaStreams.QuotaStream`:
  - Node's backpressure is not modelled; each `_read` pulls one chunk.
  - Overlapping `_read` calls are not modelled: each pull finishes before the next starts, and none follows the end or a `destroy`.
- `ProjectRoute.Matching`:
  - Database collation and case folding are reduced to ASCII lower-casing, in `Strings.ToLower`.
  - The store's `createdAt` descending order is the order of the row sequence. Ties are not modelled.
  - The contributor `createdAt` ascending order is the order of each project's contributor sequence.
- `ProjectRoute.Params`:
  - Query strings are taken after percent-decoding.
  - Only the first value of a repeated parameter is seen, which is what `get` returns.
- `ProjectRoute.ParseInt`: a JavaScript number has limited precision; the model uses unbounded integers. Digits beyond 2^53 are not rounded.
- `ProjectRoute.NewProject`: the schema's column defaults (title, description, visibility) are a parameter, because the Prisma schema is not part of this model.
- `SkillTagsRoute.SortByName`: names are ordered by code unit; the database collation's order is not modelled.
- `SkillTagsRoute.SkillTagTable.Post`:
  - `Post` takes the name as already read. `PostAsWritten` and `PostJson` are the two readings of the request; see "## Findings". A missing name is modelled as the lookup throwing, which gives 500.
  - A request with no body throws a `TypeError` before the `try`, which the framework answers with 500. `SkillTagsRoute.SkillAsWritten` reads no name from it, so the model gives the same 500 answer.
  - The database unique constraint is the `UniqueNames` invariant.
- `ClientProjects.Apply`, AddContributor: the action wrapper's reply for a new contributor carries no id in its declared type; the id is taken as an input.
- The owner's page writes `skillTags`, while the project type declares only `skill_tags`, which the contributor's page writes. The model keeps both fields, so each page changes only its own.
- Transfer of ownership and project deletion only forward to server actions; they are not modelled.
- The pages' initial fetches of groups and tags, and of the project, are network reads and are not modelled; each page's class starts from its given state.
- Image and thumbnail upload pipelines (`MultiImageUpload`, `SingleImageUpload`) are not part of this model; only the state updates after them are.
- The groups listing route (`src/app/api/v1/project/groups/route.ts`) is not part of this model.
- Debouncing is modelled by a `Settle` method that copies the search box into the filter query; timers are not modelled.
- Asynchronous handlers:
  - They are split at their `await` into a Begin and an End method.
  - `Select` and `Remove` in `SkillTagSelector.TagSelector` compose the two halves with no other handler in between. Interleavings of several pending requests are not stated.
- `SkillTagSelector.TagSelector.KeyDown`: Enter on a highlight past the end of a shrunk list returns `SelectUndefined` and changes nothing. The source appends `undefined` to the selection and then fails reading its id. The model does not carry an undefined element in the selection.
- `SkillTagSelector.TagSelector.constructor`: the picker's initial selection is empty, as the component initialises it; the tags already on the project are not preloaded.
- `QuestionEdit.QuestionInput.PromptTextSaved`: saving the typed prompt does not update `localPrompt`, as in the source. The text field's own displayed value is not modelled.
- `QuestionEdit.QuestionInput.AnswerSaved`: the saved answer is the local answer; the rich-text editor is not modelled.
- `Strings.ToLower`: only ASCII letters are folded; full Unicode case mapping is not modelled.
- `Strings`: a string is a sequence of Unicode scalar values, while JavaScript counts UTF-16 code units. For a character outside the Basic Multilingual Plane, lengths and indices differ: JavaScript counts two units where the model counts one character.
- `LibAuthProviders.FallbackUser`: the `name` claim is taken as always present. In the source, `profile.name.split` at src/lib/authentication/providers.ts:52 throws when the ID token carries no `name` claim, and sign-in fails. That failure is not modelled.

## Findings

| source | as written | input that shows it | evidently intended | confidence | as-written member | corrected member |
|---|---|---|---|---|---|---|
| src/app/api/v1/project/skill-tags/route.ts:31 | `request.body.skill` reads a property of the App Router request's body stream, which is always `undefined`; with no body, the read throws. A student's `POST` is always answered 500, and no tag is found or created. | A student posting the JSON body `{"skill": "rust"}` is answered 500; `SkillTagsRoute.BodyReadDiffers` shows that this body yields no name as written. | Read the name from the JSON body with `await request.json()`, as the sibling routes do. Find-or-create then runs on that name. | not executed | SkillTagsRoute.SkillTagTable.PostAsWritten | SkillTagsRoute.SkillTagTable.PostJson |
