# devconnector post and profile rules in Dafny

This project models the document-mutation rules of the devconnector API:
- the post routes (`routes/api/posts.js`);
- the profile routes (`routes/api/profile.js`).

A handler loads a document, checks the request against it, edits the
loaded copy's embedded list (`likes`, `comments`, `experience`) or fields,
and writes the document back. It answers with the JSON value, or with an
error status and `{ errors: [...] }` body.

The store is a class, `Store.Database`:
- users and posts are maps keyed by id;
- profiles are a sequence, and a lookup by owner takes the first match.

Its `Valid()` invariant says three things:
- every post holds at most one like per user;
- every post's comment ids are distinct;
- there is at most one profile per user.

Every state-changing handler keeps `Valid()`. It states its error answers
exactly, and gives the new store as a function of the old one.

Modules:
- `Api`: ids, `Option`, responses, and the declarative non-empty field checks.
- `Seqs`: order-preserving filtering, subsequences, removal by index.
- `Text`: JavaScript `split` with one separator character, and `trim`.
- `Posts`: post documents, the likes invariant, the like/unlike list rules, comment lookup.
- `Profiles`: profile documents, the field builder with skills parsing, the upsert, and the experience list rules.
- `Store`: the database class.
- `PostRoutes`: the handlers of the post routes.
- `ProfileRoutes`: the handlers of the profile routes.

Modelling choices:
- Ids are strings compared with equality. They stand for the `toString()`
  comparisons in the handlers.
- The caller is a parameter: the id the authentication middleware puts on
  the request.
- Ids the database would generate are parameters: of a new post, comment or
  experience entry. Each handler requires its new id to be fresh where
  freshness matters.
- Request-body values are `Option<string>`. A value counts as supplied when
  it is present and non-empty. This is both what the field checks accept and
  what the handlers' `if (field)` tests treat as truthy.
- Reduce loops that rebuild a list by pushing the kept entries are methods
  with loops. Each is proved equal to a filter function.

The code is followed where it differs from its own comments:
- Experience delete keeps the entries whose id matches (see Findings).
- A failed add-experience check answers with status 500, and the failed
  checks are wrapped in one message.

## Model

| member | source | states |
|---|---|---|
| Api.ValidationErrors | routes/api/profile.js:46-49 | the error list is empty iff every declared field is present and non-empty; every reported error belongs to a failed check, and every failed check's error is reported |
| Api.ValidationErrorsInOrder | routes/api/profile.js:46-49 | the errors come in declaration order: error k is the error of the k-th failed check, taken by the order-preserving filter |
| Api.SingleCheckErrors | routes/api/posts.js:14-18 | a route with one check reports exactly that check's error when its field is missing or empty, and nothing otherwise |
| Seqs.FirstIndex | routes/api/posts.js:262-264 | the position of the first element passing the test, or -1 when none does: what `indexOf`, `find` and `findOne` look up |
| Seqs.RemoveAt | routes/api/posts.js:262-265 | `splice(i, 1)` shortens the list by one, keeps the entries before `i`, shifts those after it, and removes exactly the element at `i` (multiset) |
| Text.Split | routes/api/profile.js:76 | splitting on a character gives one more piece than there are separators, and no piece holds the separator |
| Text.JoinSplit | routes/api/profile.js:76 | splitting loses nothing: joining the pieces with the separator gives the input back |
| Text.SplitJoin | routes/api/profile.js:76 | separator-free pieces survive a join followed by a split unchanged |
| Text.Trim | routes/api/profile.js:76 | `trim` returns the slice of the input left once leading and trailing whitespace is removed, and the result has no whitespace at either end |
| Text.TrimOfTrimmed | routes/api/profile.js:76 | trimming a string without whitespace at its ends changes nothing |
| Posts.LikesBy | routes/api/posts.js:125-127 | the filter holds only the caller's likes, and holds one iff the list does |
| Posts.HasLiked | routes/api/posts.js:125-127 | "already liked" holds iff the likes contain the caller's entry |
| Posts.LikesNotBy | routes/api/posts.js:173-177 | after unlike the caller has no like, every other user's like is kept, and the result is a subsequence of the old list |
| Posts.RemoveLikesOf | routes/api/posts.js:173-177 | the reduce loop that pushes every other user's like computes exactly `LikesNotBy` |
| Posts.OneLikePerUserIsNoDuplicates | routes/api/posts.js:125-137 | one like per user is the same as no duplicate like entries |
| Posts.LikeKeepsOneLikePerUser | routes/api/posts.js:129-137 | prepending the caller's like to a list that lacks it keeps one like per user |
| Posts.UnlikeKeepsOneLikePerUser | routes/api/posts.js:173-177 | unlike keeps one like per user |
| Posts.UnlikeRemovesOneEntry | routes/api/posts.js:163-177 | under the invariant, unliking by a user who has liked removes exactly one entry |
| Posts.LikeThenUnlike | routes/api/posts.js:135-177 | liking then unliking, from a list without the caller, gives the original list back |
| Posts.FindComment | routes/api/posts.js:250-254 | the lookup succeeds iff some comment has that id and that author, and returns the first such comment |
| Posts.IndexOfId | routes/api/posts.js:262-264 | the index is that of the first comment with the id, or -1 when there is none |
| Posts.AddCommentKeepsDistinctIds | routes/api/posts.js:220-226 | a new comment with a fresh id in front keeps comment ids distinct |
| Posts.RemoveCommentKeepsDistinctIds | routes/api/posts.js:262-265 | removing a comment keeps comment ids distinct |
| Posts.DeleteCommentTargetsFoundComment | routes/api/posts.js:250-265 | when the author lookup succeeds, an index for the id exists; with distinct ids it is the looked-up comment |
| Profiles.ProfileCheckErrors | routes/api/profile.js:39-49 | a missing status is reported before missing skills, with the route's messages, and nothing when both are given |
| Profiles.TrimEach | routes/api/profile.js:76 | trimming each piece keeps the count and trims piece by piece |
| Profiles.ParseSkills | routes/api/profile.js:75-76 | skill i is the trimmed i-th comma-separated piece of the input, in order; there are as many skills as commas plus one, and no skill holds a comma or has whitespace at its ends |
| Profiles.ParseSkillsOfJoined | routes/api/profile.js:75-76 | a comma-joined list of trimmed, comma-free names parses back to exactly that list, in order |
| Profiles.CopyIfSupplied | routes/api/profile.js:69-74 | a field is set iff its input is supplied, and then to that input |
| Profiles.ProfileFieldsFor | routes/api/profile.js:67-84 | the built fields carry the caller as user; every optional field and social link is present iff its input is supplied, with that value; skills are present iff supplied, as the parsed list |
| Profiles.BuildProfileFields | routes/api/profile.js:67-84 | the successive conditional assignments build exactly `ProfileFieldsFor` |
| Profiles.BuildSocial | routes/api/profile.js:79-84 | the social object starts empty and gets each link iff it is supplied |
| Profiles.ApplyFields | routes/api/profile.js:92-96 | `$set` overwrites each stored field that the built fields carry, keeps the others, replaces `social` as a whole and keeps `experience` |
| Profiles.ProfileIndex | routes/api/profile.js:89 | the lookup finds the first profile of the user, or reports there is none |
| Profiles.Upsert | routes/api/profile.js:88-101 | an existing profile is updated in place and a new one is appended otherwise; other profiles are unchanged, and one profile per user is kept |
| Profiles.ReplaceKeepsOneProfilePerUser | routes/api/profile.js:92-96 | replacing a profile by one with the same owner keeps one profile per user |
| Profiles.ProfileIndexAfterAppend | routes/api/profile.js:97-100 | a profile created for a user without one is the one found afterwards |
| Profiles.UpsertIdempotent | routes/api/profile.js:88-101 | submitting the same fields twice stores what the first submission stored |
| Profiles.RemoveProfileOf | routes/api/profile.js:159 | removing the user's profile drops exactly one profile if there is one, keeps every other user's, and leaves none of that user under the invariant |
| Profiles.ExperienceCheckErrors | routes/api/profile.js:179-187 | missing fields are reported in the order title, company, from date, with the route's messages |
| Profiles.ExperienceWithId | routes/api/profile.js:243-249 | as written, delete-experience keeps exactly the entries whose id equals the requested one, as a subsequence |
| Profiles.KeepExperienceWithId | routes/api/profile.js:243-249 | the reduce loop as written computes exactly `ExperienceWithId` |
| Profiles.DeleteExperienceIdempotent | routes/api/profile.js:243-249 | deleting the same id twice, as written, changes nothing the second time |
| Profiles.DeleteExperienceKeepsTheTarget | routes/api/profile.js:241-249 | on two entries with distinct ids, deleting the first as written keeps it and drops the other; the intended filter does the opposite |
| Profiles.ExperienceWithoutId | routes/api/profile.js:241-242 | the intended delete keeps exactly the entries with another id, as a subsequence |
| Profiles.RemoveExperienceWithId | routes/api/profile.js:241-249 | the corrected reduce loop computes exactly `ExperienceWithoutId` |
| Profiles.AddThenDeleteExperience | routes/api/profile.js:200-249 | adding an entry with a fresh id and deleting that id with the intended filter gives the original list back |
| Profiles.DeleteExperienceSplits | routes/api/profile.js:243-249 | the entries kept as written and those kept by the intended filter together make up the whole list |
| PostRoutes.CreatePost | routes/api/posts.js:12-44 | an empty text gives 400 and an unknown user 404, with no change; otherwise the new post carries the caller, the text and the caller's current name and avatar, with no likes or comments |
| PostRoutes.GetPost | routes/api/posts.js:62-80 | an unknown id gives 404 "Post not found"; otherwise the stored post is the answer |
| PostRoutes.DeletePost | routes/api/posts.js:85-111 | an unknown id gives 404 and a non-author 401 "Not authorized", with no change; the author removes exactly that post, and other posts are untouched |
| PostRoutes.LikePost | routes/api/posts.js:116-149 | an unknown post gives 404 and a second like 400 "Post already liked", with no change; otherwise the caller's like is prepended and the new likes are the answer |
| PostRoutes.UnlikePost | routes/api/posts.js:154-190 | an unknown post gives 404 and a caller without a like 400 "Post has not yet been liked", with no change; otherwise the likes lose exactly the caller's one entry, in order |
| PostRoutes.AddComment | routes/api/posts.js:195-234 | the checks run in order text (400), user (404), post (404), each with no change; then one comment with the caller's snapshot is prepended and the old comments are kept |
| PostRoutes.DeleteComment | routes/api/posts.js:239-278 | an unknown post or no comment with that id and author gives 404, with no change; otherwise the first comment with the id is removed, and it is the caller's comment |
| ProfileRoutes.GetProfileOf | routes/api/profile.js:11-29 | no profile for the user gives 404 "Profile not found"; otherwise the user's profile is the answer (the handler at routes/api/profile.js:130-149 does the same lookup) |
| ProfileRoutes.CreateOrUpdateProfile | routes/api/profile.js:34-109 | a missing status or skills gives 400 with the failed checks and no change; otherwise the profiles become the upsert of the built fields, and the stored profile is the answer |
| ProfileRoutes.DeleteAccount | routes/api/profile.js:154-169 | the caller's profile and user record are removed and no profile of the caller remains; posts are untouched |
| ProfileRoutes.AddExperience | routes/api/profile.js:174-225 | a missing title, company or from date gives status 500 with the wrapped checks, and no profile gives 404 "No profile found", each with no change; otherwise the new entry is prepended to the caller's experience |
| ProfileRoutes.DeleteExperience | routes/api/profile.js:230-257 | no profile gives 404 "No profile found"; otherwise the caller's experience becomes, as written, the entries whose id equals the requested one |

## Left out

- The list routes (all posts sorted by date, all profiles): these are plain store queries with no rule to state.
- The `populate` of the owner's name and avatar on profile lookups: it joins in user data and changes nothing.
- Dates and timestamps on posts, comments and experience entries: they are set by the store.
- The `error.kind === 'ObjectId'` branches and the catch-all 500 answers: they map store exceptions, and the store here does not fail.
- Partial failure of a multi-step handler: each handler's writes are atomic in this model.
- The authentication middleware (`middleware/auth.js`): its only logic is to verify a token. The caller id is a parameter instead.
- `routes/api/users.js` and `routes/api/auth.js` are not part of this model.
  They are calls into password hashing, token signing and avatar libraries.
- Generation of new document ids: these ids are parameters, and a handler requires its new id to be fresh.
- Concurrent requests on the same document, with the last write winning.
- Validator internals beyond "present and not empty".
- `console` output and the Express routing plumbing.
- Body values that are not strings. Every body value is a string or absent, so "truthy" and "non-empty" coincide. The `current` flag of an experience entry is copied through as given.

## Findings

| source | as written | input that shows it | evidently intended | confidence | as-written member | corrected member |
|---|---|---|---|---|---|---|
| routes/api/profile.js:243-249 | the reduce pushes each entry whose id equals the requested id, so the requested entry is the only one kept | experience `[a, b]` with distinct ids, delete `a.id`: the result is `[a]` | remove the entries with the requested id and keep the others, as the comment at routes/api/profile.js:241-242 says: the result is `[b]` | not executed | Profiles.DeleteExperienceKeepsTheTarget | Profiles.RemoveExperienceWithId |
