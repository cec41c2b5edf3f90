# DevConnector: post, profile and profile-reducer logic in Dafny

DevConnector is a developer social network. It has an Express/MongoDB API and a React/Redux client. This project models the logic inside three parts of it:

- **Post routes** (`routes/api/posts.js`). A post document carries a `likes` list of `{user}` and a `comments` list of `{id, user, text, name, avatar}`. `Posts.Post` is a class with those two lists as `seq` fields. Each handler is one method. The method edits the lists in place, with the handler's own `unshift`/`splice` after an index lookup. It returns a `Reply`: 200, a `{msg}` error with 400/401/404, or a validation error list. `Posts.PostStore` maps post identifiers to posts for creating, reading and deleting posts.
- **Profile routes** (`routes/api/profile.js`).
  - The create-or-update handler builds `profileFields` one truthy field at a time. It splits the skills string on `,` and trims each piece. It then `$set`s the result on the requester's profile, or creates a profile.
  - The experience and education handlers `unshift` new entries. They remove entries with `splice(list.map(i => i.id).indexOf(id), 1)`.
  - `Profiles.Profile` is a class with `fields`, `experience` and `education`. `Profiles.ProfileStore` maps each user to their one profile.
- **Profile reducer** (`client/src/reducers/profile.js`). `ProfileReducer.Reduce` is a pure function from the slice `{profile, profiles, repos, loading, error}` and an action to the next slice.

Shared modules:

- `Http`: the reply type and express-validator's `not().isEmpty()` checks.
- `JsArray`: JavaScript's `indexOf` and `splice(start, 1)`, including the negative start that counts from the end.
- `JsString`: `split` on one character and `trim`, with its ECMAScript white-space set.
- `Wrappers`: `Option`, standing for undefined/null.

The experience and education delete routes take the entry to remove as `:exp_id` and `:edu_id`. For an identifier that is not in the list, they still answer 200, and `splice(-1, 1)` drops the last entry. The model keeps that behaviour; see "## Findings".

## Model

| member | source | states |
|---|---|---|
| `Http.Present` | routes/api/profile.js:47 | a field passes `not().isEmpty()`, and is truthy, exactly when it is a non-empty string |
| `Http.Errors` | routes/api/profile.js:43-55 | the validation result is empty iff every checked field is a non-empty string; every failing check contributes its message, and every message comes from a failing check |
| `Http.ErrorsAppend` | routes/api/profile.js:43-55 | the errors of two runs of checks are the first run's errors followed by the second's, so the messages keep declaration order |
| `Http.Validate` | routes/api/posts.js:215-224 | the handler stops with a 400 error list exactly when some check fails |
| `JsArray.IndexOf` | routes/api/posts.js:199 | `indexOf` gives -1 iff the value is absent, else the first index that holds it |
| `JsArray.SpliceStart` | routes/api/profile.js:272 | `splice` starts at `start` for an index in range, at `len + start` for a negative one down to `-len`, at 0 below that, and at `len` past the end |
| `JsArray.Splice1` | routes/api/profile.js:272 | `splice(start, 1)` removes nothing when `start` is at or past the end, exactly one element otherwise on a non-empty array, and never adds an element |
| `JsArray.SpliceAt` | routes/api/posts.js:201 | `splice(i, 1)` at a valid index removes exactly element `i` and keeps the rest in order |
| `JsArray.SpliceMinusOne` | routes/api/profile.js:272 | `splice(-1, 1)` removes the last element of a non-empty array and leaves an empty one alone |
| `JsArray.SpliceIndexOf` | routes/api/profile.js:268-272 | removal by `indexOf` key: the first element with the key goes when it occurs; otherwise the last element goes; a non-empty array shrinks by one |
| `JsArray.RemoveAtDistinct` | routes/api/posts.js:199-201 | removing one element from a duplicate-free array keeps it duplicate-free, and the removed value no longer occurs |
| `JsString.IsWhiteSpace` | routes/api/profile.js:119 | the characters `trim` removes: the ECMAScript WhiteSpace and LineTerminator sets |
| `JsString.TrimStart` | routes/api/profile.js:119 | only leading white space is dropped, and the result does not start with white space |
| `JsString.TrimEnd` | routes/api/profile.js:119 | only trailing white space is dropped, and the result does not end with white space |
| `JsString.Trim` | routes/api/profile.js:119 | `trim` gives a contiguous piece of the input with only white space cut off on both sides, and the piece has no outer white space |
| `JsString.TrimIdempotent` | routes/api/profile.js:119 | trimming twice equals trimming once |
| `JsString.Split` | routes/api/profile.js:119 | `split` on one character always gives at least one piece; `SplitShape` and the round trips below characterise it |
| `JsString.Join` | routes/api/profile.js:119 | the inverse of `split`: pieces joined by the separator, as `JoinSplit` and `SplitJoin` prove |
| `JsString.SplitShape` | routes/api/profile.js:119 | `split(sep)` gives one more piece than there are separators, and no piece holds the separator |
| `JsString.JoinSplit` | routes/api/profile.js:119 | joining the split pieces with the separator restores the string |
| `JsString.SplitJoin` | routes/api/profile.js:119 | splitting the join of separator-free pieces restores the pieces |
| `Posts.Likers` | routes/api/posts.js:199 | `likes.map(like => like.user)` keeps length and order |
| `Posts.Authors` | routes/api/posts.js:271 | `comments.map(comment => comment.user)` keeps length and order |
| `Posts.CommentIds` | routes/api/posts.js:258 | the comment ids that `find` compares, in order |
| `Posts.LikesBy` | routes/api/posts.js:168 | the `filter` of likes by a user has as many entries as that user has likes, and is empty iff the user has not liked |
| `Posts.FindComment` | routes/api/posts.js:258 | `find` by id succeeds iff the id occurs, and returns the comment at the id's first index |
| `Posts.PrependLikeDistinct` | routes/api/posts.js:168-174 | a like list with each user once keeps each user once after a new user's like is prepended |
| `Posts.RemoveLikeDistinct` | routes/api/posts.js:199-201 | removing a user's like from a list with each user once leaves no like by that user |
| `Posts.FirstAuthoredNotAfterFound` | routes/api/posts.js:258-271 | when the found comment is the requester's, the requester's earliest comment sits at or before it |
| `Posts.UnlikeRemovesFirstLike` | routes/api/posts.js:194-201 | the unlike removal takes out the requester's first like and keeps the others in order; with each user once the requester is then gone and the rest still appear once |
| `Posts.DropFirstAuthoredShape` | routes/api/posts.js:258-273 | the comment-delete removal takes out the requester's earliest comment, at or before the looked-up one, and keeps the others in order |
| `Posts.Post.constructor` | routes/api/posts.js:28-33 | a new post has its author and text, and no likes or comments |
| `Posts.Post.Like` | routes/api/posts.js:163-178 | a repeat like gives 400 "Post already liked" with likes unchanged; otherwise the like is prepended; a list with each user once keeps that property |
| `Posts.Post.Unlike` | routes/api/posts.js:189-205 | unliking without a like gives 400 "Post has not yet been liked" with likes unchanged; otherwise exactly the requester's first like goes, the rest keep their order, and with each user once the requester no longer appears |
| `Posts.Post.AddComment` | routes/api/posts.js:215-241 | an empty text gives the validation error with comments unchanged; otherwise the requester's comment is at index 0 and the old comments follow unchanged |
| `Posts.Post.DeleteComment` | routes/api/posts.js:253-277 | an unknown id gives 404 and another author's comment gives 401, both with comments unchanged; otherwise the list becomes `DropFirstAuthored` of the old one: the requester's earliest comment is removed, at or before the requested one |
| `Posts.PostStore.constructor` | routes/api/posts.js:6 | the post collection starts empty |
| `Posts.PostStore.CreatePost` | routes/api/posts.js:14-37 | an empty text gives the validation error and stores nothing; otherwise a new empty post by the requester is added and the other posts stay |
| `Posts.PostStore.GetPost` | routes/api/posts.js:63-74 | an unknown post gives 404 |
| `Posts.PostStore.DeletePost` | routes/api/posts.js:128-146 | an unknown post gives 404; another user's post gives 401 and stays; the author's post is removed and nothing else changes |
| `Posts.DropFirstAuthored` | routes/api/posts.js:271-273 | the removal as written: a list holding a comment by the user loses exactly one comment; otherwise the last comment goes; nothing is added |
| `Posts.RemoveCommentById` | routes/api/posts.js:253-273 | intended removal: the comment with the requested id goes, and nothing changes when there is none |
| `Posts.RemoveCommentByIdRemovesTarget` | routes/api/posts.js:253-273 | with distinct ids, the intended removal leaves no comment with that id and keeps every other comment |
| `Posts.DeleteCommentRemovesAnother` | routes/api/posts.js:271-273 | counterexample: deleting comment "b" removes the requester's comment "a" instead |
| `Profiles.ProfileChecks` | routes/api/profile.js:47-48 | the create-or-update request passes validation exactly when status and skills are non-empty strings |
| `Profiles.ExperienceChecks` | routes/api/profile.js:221-223 | an experience passes validation exactly when title, company and from are non-empty strings |
| `Profiles.EducationChecks` | routes/api/profile.js:291-294 | an education entry passes validation exactly when school, degree, field of study and from are non-empty strings |
| `Profiles.EntryIds` | routes/api/profile.js:268-270 | `map(item => item.id)` keeps length and order |
| `Profiles.KeepTruthy` | routes/api/profile.js:111 | a field is set iff its request value is truthy, and then it holds that value |
| `Profiles.ParseSkills` | routes/api/profile.js:117-120 | one skill per comma-separated piece, in order, each the trimmed piece |
| `Profiles.ParsedSkillsAreClean` | routes/api/profile.js:119 | there is one skill more than there are commas; no skill holds a comma or has outer white space |
| `Profiles.ParseSkillsExample` | routes/api/profile.js:119 | "go, rust" parses to ["go", "rust"] |
| `Profiles.ProfileFieldsOf` | routes/api/profile.js:107-128 | `user` is the requester; each optional field and social link is present iff its input is truthy and then equals it; `social` is always present; skills, when given, are parsed |
| `Profiles.BuildProfileFields` | routes/api/profile.js:107-128 | the field-by-field assignments build exactly `ProfileFieldsOf` |
| `Profiles.BuildSocial` | routes/api/profile.js:122-128 | the social object holds exactly the truthy links |
| `Profiles.SetField` | routes/api/profile.js:134-138 | `$set` of a field replaces it when the update holds it and keeps it otherwise |
| `Profiles.SetFields` | routes/api/profile.js:134-138 | `$set: profileFields` always replaces `user` and `social`; each of company, website, location, bio, status, githubusername and skills is replaced when the update holds it and kept otherwise |
| `Profiles.SetFieldsIdempotent` | routes/api/profile.js:130-141 | repeating the same update changes nothing more, and the given status, company and skills win |
| `Profiles.SpliceOutEntry` | routes/api/profile.js:268-272 | the removal as written: a non-empty list always loses exactly one entry, an empty one stays empty, and nothing is added |
| `Profiles.RemoveEntryById` | routes/api/profile.js:268-272 | intended removal: the entry with the id goes, and nothing changes for an unknown id |
| `Profiles.SpliceOutEntryVersusIntended` | routes/api/profile.js:339-343 | the written removal equals the intended one when the id occurs; for an unknown id on a non-empty list it drops the last entry instead |
| `Profiles.DeleteUnknownEntryDropsLast` | routes/api/profile.js:268-272 | counterexample: deleting unknown id "x" from the list [a] leaves [] |
| `Profiles.Profile.constructor` | routes/api/profile.js:143-146 | a new profile holds exactly the built fields and no entries |
| `Profiles.Profile.Update` | routes/api/profile.js:133-138 | the stored fields become the `$set` of the update on them |
| `Profiles.Profile.AddExperience` | routes/api/profile.js:216-252 | an empty title, company or from gives the validation errors with experience unchanged; otherwise the new entry is at index 0 and the length grows by one |
| `Profiles.Profile.DeleteExperience` | routes/api/profile.js:263-276 | always 200 and the list becomes `SpliceOutEntry` of the old one; a present id loses its first entry with the others in order; an absent id loses the last entry; a non-empty list shrinks by one |
| `Profiles.Profile.AddEducation` | routes/api/profile.js:286-323 | an empty school, degree, field of study or from gives the validation errors with education unchanged; otherwise the new entry is at index 0 and the length grows by one |
| `Profiles.Profile.DeleteEducation` | routes/api/profile.js:334-347 | always 200 and the list becomes `SpliceOutEntry` of the old one, with the same three cases as the experience delete |
| `Profiles.ProfileStore.constructor` | routes/api/profile.js:10 | no profiles at first |
| `Profiles.ProfileStore.Upsert` | routes/api/profile.js:40-147 | an empty status or skills gives 400 before any change; otherwise an existing profile gets the built fields `$set` and a missing one is created from them with no experience or education entries; the requester then has exactly one profile, whose `user` and `fields.user` are the requester; other profiles and all entry lists stay |
| `Profiles.ProfileStore.Me` | routes/api/profile.js:18-30 | a requester without a profile gets 400 |
| `Profiles.ProfileStore.ByUser` | routes/api/profile.js:171-181 | a user without a profile is answered with 500 |
| `ProfileReducer.Reduce` | client/src/reducers/profile.js:18-58 | each slice field is written only by the actions that name it, and no action turns loading back on |
| `ProfileReducer.Run` | client/src/reducers/profile.js:18-58 | the slice after dispatching a sequence of actions in order; the three run lemmas below are about it |
| `ProfileReducer.InitialStateShape` | client/src/reducers/profile.js:10-18 | the initial state is no profile, empty lists, loading, empty error; an undefined state starts from it |
| `ProfileReducer.GetProfileFrame` | client/src/reducers/profile.js:22-28 | GET_PROFILE and UPDATE_PROFILE set the profile and clear loading; profiles, repos and error stay |
| `ProfileReducer.GetProfilesFrame` | client/src/reducers/profile.js:29-34 | GET_PROFILES sets profiles and clears loading; the rest stays |
| `ProfileReducer.ProfileErrorFrame` | client/src/reducers/profile.js:35-41 | PROFILE_ERROR sets the error, drops the profile and clears loading; profiles and repos stay |
| `ProfileReducer.ClearProfileFrame` | client/src/reducers/profile.js:42-48 | CLEAR_PROFILE drops profile and repos and clears loading; profiles and error stay; applying it twice equals once |
| `ProfileReducer.GetReposFrame` | client/src/reducers/profile.js:49-54 | GET_REPOS sets repos and clears loading; the rest stays |
| `ProfileReducer.OtherActionsKeepState` | client/src/reducers/profile.js:55-56 | an unhandled action returns the state unchanged; after a handled one loading is false |
| `ProfileReducer.ProfilesOnlyFromGetProfiles` | client/src/reducers/profile.js:18-58 | over any run of dispatches without GET_PROFILES, the profile list stays |
| `ProfileReducer.ErrorOnlyFromProfileError` | client/src/reducers/profile.js:18-58 | over any run of dispatches without PROFILE_ERROR, the error stays |
| `ProfileReducer.LoadingNeverResumes` | client/src/reducers/profile.js:18-58 | once loading is false, no run of dispatches sets it back |

## Left out

- Database access is left out: `findById`, `findOne`, `save`, `populate`, `sort`, `find`, `deleteMany`, `findOneAndRemove`. Handlers act on the document already fetched. The store classes stand in for collections as maps.
- A handler that dereferences a missing document throws, and the `catch` answers 500. This applies to like, unlike, comment, and experience/education add and delete. It also applies to post creation, which reads `user.name` after `User.findById` (routes/api/posts.js:26-30). The `err.kind === "ObjectId"` branches are also left out. Both depend on library exception shapes.
- The profile delete cascade (routes/api/profile.js:197-211) is left out. It is three separate database deletions.
- The avatar upload and URL rewriting (routes/api/profile.js:77-105) go to a third-party image service. The GitHub repository proxy (routes/api/profile.js:357-377) is network I/O. Both are left out.
- `Profiles.ProfileStore.Upsert`: assumes the avatar step (routes/api/profile.js:78-105) completes, so a valid request always answers 200. The step runs whenever `avatar !== ""`, including when the body has no `avatar` and the upload is called with `undefined`. Whether that throws, and so answers 500, depends on the image library.
- `GET /api/posts` lists every post newest first (routes/api/posts.js:52). `GET /api/profile` lists every profile in database order (routes/api/profile.js:160). Both are left out.
- Authentication is left out: the token middleware, registration and login. They wrap signing and hashing libraries. The requester's identifier is a parameter.
- Database-assigned identifiers and copied account data are parameters. This covers the comment `id`, post `id`, entry `id`, and a comment author's `name` and `avatar`. A post's `name` and `avatar` (routes/api/posts.js:30-31) are copied from the account and are not modelled: `Posts.Post` has no such fields and `CreatePost` does not take them. The comment's and post's `date` defaults come from the clock and are not modelled. Like entries' own `_id` is not modelled.
- Request fields are modelled as absent-or-string (`Option<string>`). JSON bodies holding numbers, arrays or objects in those fields are not modelled. `current` is an optional boolean.
- express-validator's `check(field)` looks for the field in the body, cookies, headers, route parameters and query string. The handlers read only `req.body` (routes/api/posts.js:17 and 29, 218 and 231; routes/api/profile.js:47-48 and 58-74, 221-223 and 232-233, 291-294 and 303-304). The model uses one `Option<string>` for both, so a request that carries `status`, `skills`, `text` or an entry field only outside the body is not modelled. Such a request passes validation while the handler sees `undefined`. This affects `Upsert`, `AddComment`, `AddExperience` and `AddEducation`.
- Requests are modelled one at a time. The like guard (routes/api/posts.js:168-176) and the upsert's look-up-then-create (routes/api/profile.js:130-147) read and then write without a lock. Two concurrent requests can therefore add two likes by one user or two profiles for one user. "Each user once" in `Like` holds only for sequential requests. "Exactly one profile per user" in `Upsert` also holds only for sequential requests, and the map makes it true by construction.
- Validation errors keep only each error's message: the `Invalid` reply of `Http.Reply` holds a list of strings. `errors.array()` (routes/api/posts.js:22 and 223; routes/api/profile.js:54, 229 and 300) returns objects carrying the value, message, field name and location; the other three parts are not modelled.
- ObjectId-to-string comparisons (`like.user.toString() === req.user.id`) are modelled as string equality.
- Profile documents are assumed to keep fields that `$set` does not name. That is MongoDB's `$set` semantics, which the model states but cannot check.
- The reducer's action-type constants come from a module that is not part of this model. Each is taken to be the string of its own name, and all are taken to be distinct. JSON numbers in payloads are integers here, not floating point.
- `Posts.PostStore.CreatePost`: requires a fresh identifier, which the database guarantees.
- The project route, its schema, the client components, the store setup and the server bootstrap have no handler logic. They are not part of this model.

## Findings

| source | as written | input that shows it | evidently intended | confidence | as-written member | corrected member |
|---|---|---|---|---|---|---|
| routes/api/posts.js:271-273 | the comment to delete is located by author, not by the requested `comment_id` | comments [a (id "a", by u), b (id "b", by u)]; u deletes "b"; comment "a" is removed | remove the comment whose id was requested | high; not executed | `Posts.DeleteCommentRemovesAnother` | `Posts.RemoveCommentByIdRemovesTarget` |
| routes/api/profile.js:268-272 | an unknown `exp_id` gives `indexOf` -1, and `splice(-1, 1)` removes the last experience | experience [a]; delete "x"; the list becomes [] | leave the list unchanged for an unknown id | high; not executed | `Profiles.DeleteUnknownEntryDropsLast` | `Profiles.RemoveEntryById` |
| routes/api/profile.js:339-343 | the same removal for an unknown `edu_id` drops the last education entry | any non-empty education list and an id not in it | leave the list unchanged for an unknown id | high; not executed | `Profiles.SpliceOutEntryVersusIntended` | `Profiles.RemoveEntryById` |

The handler methods `Posts.Post.DeleteComment`, `Profiles.Profile.DeleteExperience` and `Profiles.Profile.DeleteEducation` keep the behaviour as written, so that the model describes the running system. The corrected definitions sit beside them, with their intended properties proved.
