# DevelopersTalk mutation layer in Dafny

This project models the part of the DevelopersTalk backend that changes data:
the handlers of the posts router (`routes/api/posts.js`) and the profile
router (`routes/api/profile.js`), plus the token check in front of them
(`middleware/auth.js`). Everything is stated for one request against an
in-memory view of the database; the proofs say what each handler answers and
exactly how the stored documents change.

- `common.dfy` (`Common`): user ids, `Option`, and `Reply`, the handler's
  answer. `Done` is a 200 with the updated document or collection (for a
  deleted post, the message "Post Removed"). `Rejected(status, msg)` is an
  error answer with that status and message: most are `{ msg }` JSON, while
  several 500 answers send the message as plain text. `Invalid(errors)` is the 400
  that lists the failed request checks.
- `seqs.dfy` (`Seqs`): the JavaScript array methods the handlers use.
  `Filter` is `filter`, `Any` is `some` and `Find` is `find` (the first match).
  Lemmas state what a filter keeps: order (as a subsequence), multiplicity, no duplicates, and
  idempotence.
- `text.dfy` (`Text`): `String.prototype.trim` over the ECMAScript whitespace
  set, and `split` on one character, with `Join` as its inverse.
- `auth.dfy` (`Auth`): the 401 guard of the auth middleware. Signature
  checking is a parameter.
- `posts.dfy` (`Posts`): `Post` is a loaded post document. Its `likes` and
  `comments` sequences are changed in place by the like, dislike, add-comment
  and delete-comment logic. `PostStore` is the `posts` collection keyed by
  post id. Its methods are the route handlers: look the post up, then call
  the `Post` method, or delete the post.
- `profile.dfy` (`Profiles`): the `profileFields` builder (skills, website,
  social links) and the upsert keyed by user id. Also `Profile`, a loaded
  profile document, with experience/education add and delete. `ProfileStore`
  holds at most one profile per user; its methods are the route handlers.

Behaviours of the source worth knowing:

- A repeated like and a dislike without a like are answered 400.
- Deleting someone else's post or comment is answered 401.
- Like, dislike, add comment and delete comment on a post id with no post
  never reach a not-found answer. The handler dereferences the missing
  document and answers 500 "Server Error". The experience and education
  handlers do the same when the user has no profile: 500 "Server Error" on
  add, 500 "Server error" on delete. `Posts.LikeScenario` walks through one
  such sequence.
- Deleting an experience or education entry with an unknown id succeeds and
  changes nothing.
- The skills string keeps a leading space on every element:
  `" " + trim(piece)`.

## Model

| member | source | states |
|---|---|---|
| `Seqs.Filter` | routes/api/posts.js:137-139 | The result holds exactly the elements of the input that pass the test, and is never longer than the input. |
| `Seqs.Any` | routes/api/posts.js:109 | `some` is true iff some position of the sequence passes the test. |
| `Seqs.Find` | routes/api/posts.js:196-198 | `find` is absent iff no element passes; otherwise it is the element at the first passing position. |
| `Seqs.FilterIsSubsequence` | routes/api/posts.js:208-210 | A filtered collection is a subsequence of the original: entries are only removed, never reordered. |
| `Seqs.FilterKeepsAll` | routes/api/profile.js:215-217 | A filter whose test every element passes returns the collection unchanged. |
| `Seqs.FilterIdempotent` | routes/api/profile.js:290-292 | Filtering twice with the same test equals filtering once. |
| `Seqs.FilterMultiset` | routes/api/posts.js:137-139 | Every kept value keeps its number of occurrences; every rejected value has none left. |
| `Seqs.FilterDistinct` | routes/api/posts.js:137-139 | Filtering a duplicate-free sequence yields a duplicate-free sequence. |
| `Text.LeadingWhitespace` | routes/api/profile.js:75 | The length of the longest all-whitespace prefix; the next character, if any, is not whitespace. |
| `Text.TrailingWhitespace` | routes/api/profile.js:75 | The length of the longest all-whitespace suffix; the character before it, if any, is not whitespace. |
| `Text.Trim` | routes/api/profile.js:75 | `trim` returns a slice of the input with no whitespace at either end, and only whitespace around the slice. |
| `Text.TrimPadded` | routes/api/profile.js:75 | Trimming a trimmed string padded with whitespace on both sides returns that string, so `Trim` is unique. |
| `Text.TrimIdempotent` | routes/api/profile.js:75 | Trimming twice equals trimming once. |
| `Text.Split` | routes/api/profile.js:75 | `split(",")` returns one more piece than there are commas, and no piece contains a comma. |
| `Text.JoinSplit` | routes/api/profile.js:75 | Joining the pieces of a split with the separator restores the input. |
| `Text.SplitJoin` | routes/api/profile.js:75 | Splitting the join of separator-free pieces restores the pieces. |
| `Auth.Authenticate` | middleware/auth.js:6-19 | A request is authenticated iff it carries a token that verifies, as the user the token names. Otherwise it gets 401, with the no-token message exactly when the token is missing. |
| `Posts.CommentErrors` | routes/api/posts.js:157-163 | Adding a comment fails validation iff the text is empty, with the single message "Text is required". |
| `Posts.Post.Like` | routes/api/posts.js:109-113 | If the user already likes the post: 400 "Post already liked" and likes unchanged. Otherwise: likes become the user followed by the old likes. No duplicate like is introduced. |
| `Posts.Post.Dislike` | routes/api/posts.js:132-139 | If the user does not like the post: 400 "Post has not yet been liked" and likes unchanged. Otherwise: every like of that user is filtered out and no duplicate is introduced. |
| `Posts.Post.AddComment` | routes/api/posts.js:169-176 | The new comment, by the acting user with the given text, is at index 0, and the old comments follow unchanged. |
| `Posts.Post.DeleteComment` | routes/api/posts.js:196-210 | Comment missing: 404 and comments unchanged. First comment with that id has another author: 401 and comments unchanged. Otherwise: comments filtered by id. Success iff a comment with that id was removed. |
| `Posts.PostStore.DeletePost` | routes/api/posts.js:79-90 | No such post: 404. Caller is not the author: 401. In both cases the store is unchanged. Otherwise exactly that post is removed, and every remaining post is the same document as before. |
| `Posts.PostStore.Like` | routes/api/posts.js:106-117 | Missing post: 500. Otherwise the `Post.Like` outcome on the stored post. Only that post's likes can change; no other field and no other post. |
| `Posts.PostStore.Dislike` | routes/api/posts.js:129-142 | Missing post: 500. Otherwise the `Post.Dislike` outcome on the stored post. Only that post's likes can change. |
| `Posts.PostStore.AddComment` | routes/api/posts.js:160-180 | Empty text: validation error, checked before the lookup. Missing post: 500. Otherwise the comment is prepended. Success iff the text is non-empty and the post exists. Only that post's comments can change. |
| `Posts.PostStore.DeleteComment` | routes/api/posts.js:193-214 | Missing post: 500. Otherwise the three outcomes of `Post.DeleteComment` on the stored post. Only that post's comments can change. |
| `Posts.LikeThenDislikeRestores` | routes/api/posts.js:113-139 | A like followed by a dislike by a user who had not liked the post restores the original likes. |
| `Posts.DislikeKeepsOthers` | routes/api/posts.js:137-139 | A dislike keeps the other users' likes in order and with their multiplicity, and removes all of the user's. |
| `Posts.DeleteCommentRemovesOne` | routes/api/posts.js:196-210 | With unique comment ids, deleting an existing comment removes exactly one entry and keeps every other comment. |
| `Profiles.ProfileErrors` | routes/api/profile.js:39-47 | Create-or-update fails validation iff the status is empty or the skills are empty. The status message comes first. |
| `Profiles.ExperienceErrors` | routes/api/profile.js:162-171 | Add-experience fails validation iff the title, the company or the from date is empty. |
| `Profiles.EducationErrors` | routes/api/profile.js:236-246 | Add-education fails validation iff the school, the degree, the field of study or the from date is empty. |
| `Profiles.SkillsField` | routes/api/profile.js:73-75 | An array of skills passes through unchanged. A string gives one element per comma-separated piece (commas + 1), each a single space followed by a trimmed, comma-free piece. |
| `Profiles.SkillsInOrder` | routes/api/profile.js:75 | For comma-free words joined by commas, the skills are `" " + trim(word)` for each word, in input order. |
| `Profiles.SocialLinks.With` | routes/api/profile.js:84 | Replacing one social link leaves the other four unchanged. |
| `Profiles.NormalizeAll` | routes/api/profile.js:84 | Every link of the result is the normalized input link. |
| `Profiles.BuildSocial` | routes/api/profile.js:80-87 | A social object is built iff all five links are non-empty. If built, each of the five is the normalized input link. |
| `Profiles.WebsiteField` | routes/api/profile.js:71 | A website equal to the sentinel `" "` is kept as `" "`; any other value becomes its normalized form. `BuildProfileFields` proves the built document's website is exactly this value. |
| `Profiles.BuildProfileFields` | routes/api/profile.js:65-87 | The user is the acting user. Status, company, location, bio and experience are copied. A website of `" "` is kept; any other is normalized. Skills follow `SkillsField`. `social` is present iff all five links are given, each normalized. |
| `Profiles.Profile.constructor` | routes/api/profile.js:90-94 | An upsert that creates the profile stores the computed fields. Social is set only if built and experience only if given. Education is empty. |
| `Profiles.Profile.SetFields` | routes/api/profile.js:90-94 | `$set` overwrites every field the document carries. A missing `social` or `experience` leaves the stored one as it was. Education is untouched. |
| `Profiles.Profile.AddExperience` | routes/api/profile.js:195 | The new entry is at index 0 and the old entries follow unchanged. |
| `Profiles.Profile.DeleteExperience` | routes/api/profile.js:215-217 | Experience becomes the old list filtered by id. The remaining entries are exactly those with another id. |
| `Profiles.Profile.AddEducation` | routes/api/profile.js:270 | The new entry is at index 0 and the old entries follow unchanged. |
| `Profiles.Profile.DeleteEducation` | routes/api/profile.js:290-292 | Education becomes the old list filtered by id. The remaining entries are exactly those with another id. |
| `Profiles.ProfileStore.Upsert` | routes/api/profile.js:44-94 | Invalid input: the errors; the store and the caller's existing profile are unchanged. Otherwise the caller has exactly one profile: the same document if it existed, a fresh one if not. It carries the computed fields; social is replaced only when all five links were given. Every other user's profile is the same document. |
| `Profiles.ProfileStore.AddExperience` | routes/api/profile.js:169-199 | Validation first, then a missing profile gives 500. Otherwise the entry is prepended. Success iff the entry is valid and the profile exists. Only the caller's experience can change. |
| `Profiles.ProfileStore.DeleteExperience` | routes/api/profile.js:213-220 | Missing profile: 500. Otherwise success, with the caller's experience filtered by id. There is no not-found and no per-entry owner check. Only the caller's experience can change. |
| `Profiles.ProfileStore.AddEducation` | routes/api/profile.js:244-274 | Validation first, then a missing profile gives 500. Otherwise the entry is prepended. Only the caller's education can change. |
| `Profiles.ProfileStore.DeleteEducation` | routes/api/profile.js:288-295 | Missing profile: 500. Otherwise success, with the caller's education filtered by id. Only the caller's education can change. |
| `Profiles.DeleteExperienceLaws` | routes/api/profile.js:215-217 | Deleting an unknown id changes nothing. Deleting is idempotent. The remaining entries keep their order. |
| `Profiles.DeleteEducationLaws` | routes/api/profile.js:290-292 | Deleting an unknown id changes nothing. Deleting is idempotent. The remaining entries keep their order. |

## Left out

- The read-only routes (GET posts, a post, profiles, a profile), the create-post route, and the delete-profile-and-user route: plain database calls with no decision logic.
- The GitHub repository proxy (routes/api/profile.js:305-321): an outbound HTTP call.
- Persistence is whole-document replacement. A store maps ids to document objects, and `save` is the in-place update of that object. Sorting by date is not modelled.
- Storage failures, and the errors that the delete routes swallow without answering, are not modelled.
- Concurrency is not modelled: each request is one atomic step, whereas the system resolves concurrent writes to one document by last-write-wins.
- Ids the database generates (comment ids, experience and education ids) are parameters, as is the acting user id.
- Each like subdocument also carries its own `_id`; a like is modelled by its user id only.
- `middleware/checkObjectId` is not part of this model. A malformed post id is treated like any other id.
- `normalize-url` is an uninterpreted function parameter, and `jsonwebtoken` verification is the `verify` parameter of `Auth.Authenticate`.
- Absent request fields are modelled as empty strings. The JavaScript distinction between `undefined`, `null` and `""` is not modelled.
- An absent `website` is not modelled: `normalize` would throw outside the handler's `try`.
- An absent body `experience` is modelled as a key the `$set` document lacks.
- Profiles.ProfileStore.Upsert: on an update, an absent `company`, `location` or `bio` overwrites the stored value with `""` in the model, while the source (routes/api/profile.js:65-72, 92) sends `undefined` for them exactly as it does for an absent `experience`, which the model keeps; what the database does with an `undefined` key is not modelled.
- The author's `name` and `avatar` for a new comment are parameters. A user record that has disappeared (`user.name` on null, a 500) is not modelled.
- Profiles.ProfileErrors: request validation is modelled as emptiness of strings only. For an array-valued `skills`, only the empty array is rejected; the validator's per-element checks are not modelled.
- A concrete instance of the skills split (such as "react, node, go") is not stated as a lemma. `Profiles.SkillsInOrder` with `Text.TrimPadded` states the general case.
