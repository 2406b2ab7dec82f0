# Blogging platform backend: authorization rules and store mutations

This project models the request handlers of a multi-user blogging backend
(Express routes over a MongoDB store) in Dafny and proves what each handler
does to the store and which status code it answers with.

- **Store.** `Types.Store` is an object with two fields: the `users` collection
  (`map<Id, User>`) and the `blogs` collection (`map<Id, Blog>`). Every route
  handler is a method that takes the store, checks its gates in the source's
  order, returns the HTTP status, and updates the store in place. Each
  method's postcondition gives the whole new state for every branch.
- **Middleware.** `requireRole(role)` and `notBlocked` are pure functions that
  return a `Gate`: pass the request on, or reject it with a status. The
  handlers run the same gates the routes declare: `requireRole("admin")` for
  `/admin`, and `notBlocked` for every mutating `/blogs` route.
- **Embedded lists.** Likes, followers and comments are sequences. The
  JavaScript array operations the handlers use (`filter`, `includes`/`push`,
  `findIndex`/`splice`) are recursive functions in `Lists`, with lemmas about
  them. For example, toggling twice restores membership, and a filter that
  matches nothing is the identity.
- **Pagination.** `Pagination` gives `skip = (page - 1) * limit` and
  `pages = Math.ceil(total / limit)` on integers. It proves that with a
  positive limit every item lies on exactly one page within `1..pages`.
- **Library calls.** bcrypt (`hash`, `compare`) and the case-insensitive
  regex test (`matches`) and the pattern syntax check behind `new RegExp`
  (`validPattern`) are function-valued parameters. Fresh ObjectIds,
  the random reset token and `Date.now()` are plain parameters.
- **The acting user.** The token decoder is not part of this model. Its
  result, `req.user`, is a `Principal`: an id plus the role carried by the
  token.

The model follows the code, quirks included:

- The follow toggle edits the **actor's own** `followers` list, adding or
  removing the target's id. The profile view reads that same list for
  `isFollowing`.
- A user who deletes a comment they do not own gets 200, and nothing changes.
- Blog update and delete answer 200 even when no blog matched the owner
  filter. The update body is applied as given, so an owner can overwrite
  `author` and hand the blog to someone else.
- Self-delete (`DELETE /users/me`) leaves the user's blogs in the store.
  Admin delete removes them.
- Follow, when the actor has no user record, and the profile view, when the
  current user has no record, dereference null. That throws, so they answer
  500.

Further behaviour of the code that the model keeps:

- `PUT /users/:id/follow` has no `notBlocked` gate, so
  `ProfileRoutes.ToggleFollow` does not check blocking.
- Registering with role "admin" gets 403.
- Self-actions on the admin routes get 400. A non-owner's blog edit or
  delete gets 200 and changes nothing.
- The `/blogs` routes have no admin bypass of the ownership filter; admins
  use the separate `/admin` routes.
- A non-empty search text that is not a valid regular expression (such as
  `(`) makes `new RegExp` throw, so the user search and the admin lists
  answer 500.
- A negative skip (page below 1 with a positive limit, or page above 1 with
  a negative limit) is refused by the store, so the admin lists answer 500.
- Forgot-password saves the reset token before sending the mail; when the
  mail fails the reply is 500, but the token stays stored and usable.
- A profile update whose body has no `bio` (the client's image-only upload)
  keeps the stored bio. This assumes Mongoose 6 or later, which drops keys
  whose value is `undefined` from an update; Mongoose 5 would store null.

## Model

| member | source | states |
|---|---|---|
| `Middleware.RequireRole` | backend/middleware/roles.js:1-5 | 401 exactly when there is no principal, whatever role is required (the missing-user check comes first), 403 exactly when the token role differs from the required one, pass exactly when it equals it |
| `Middleware.NotBlocked` | backend/middleware/notBlocked.js:4-7 | 401 exactly when the actor has no user record, 403 exactly when the stored record is blocked, pass exactly otherwise |
| `Middleware.NotBlockedIgnoresTokenRole` | backend/middleware/notBlocked.js:4 | the decision depends on the stored `isBlocked` only, never on the role in the token |
| `Lists.Without` | backend/routes/blog.js:118 | the filtered list holds exactly the old members other than the removed value, and is shorter by that value's number of occurrences |
| `Lists.WithoutAbsent` | backend/routes/userprofile.js:149-151 | filtering out an absent value returns the list unchanged |
| `Lists.Toggle` | backend/routes/blog.js:116-122 | the toggled value's membership is flipped, no other value's membership changes; an absent value is appended at the end, and a present value is filtered out with every copy |
| `Lists.ToggleTwice` | backend/routes/userprofile.js:146-156 | two toggles restore membership; an absent value leaves the list exactly as it was; a present value ends up once, at the end |
| `Lists.KeepComments` | backend/routes/blog.js:99-101 | a comment survives exactly when its id differs or its author is not the actor |
| `Lists.KeepCommentsNonOwner` | backend/routes/blog.js:99-101 | when the actor owns no comment with that id, the filter returns the comments unchanged |
| `Lists.FindComment` | backend/routes/admin.js:170 | -1 exactly when no comment has the id; otherwise the first index that has it |
| `Lists.RemoveAt` | backend/routes/admin.js:176 | one element shorter; elements before the index are kept in place and later ones shift down by one |
| `Lists.RemoveAtMultiset` | backend/routes/admin.js:176 | the splice loses exactly one copy of the removed comment and nothing else |
| `Pagination.CeilDiv` | backend/routes/admin.js:46 | for a positive limit the result is the least r with r * limit >= total; for a negative limit it is JavaScript's ceiling of the negative quotient |
| `Pagination.PagesBound` | backend/routes/admin.js:46 | with a positive limit, pages * limit >= total, and (pages - 1) * limit < total when total > 0 |
| `Pagination.PageOfItem` | backend/routes/admin.js:31-37 | with a positive limit, item i lies in the skip/limit window of page i / limit + 1, which is within 1..pages, and of no other page |
| `AdminRoutes.IsSelf` | backend/routes/admin.js:10 | true exactly when a principal is present and its id equals the target id |
| `AdminRoutes.WithoutAuthor` | backend/routes/admin.js:101 | keeps exactly the blogs whose author is someone else, each unchanged |
| `AdminRoutes.ListUsers` | backend/routes/admin.js:17-50 | after the admin gate: a non-empty q that is not a valid pattern, or a negative skip, gives 500 with no result; otherwise 200 with the users matching the q/role/isBlocked filter, their count, skip = (page-1)*limit and pages = ceil(total/limit), with defaults page 1 and limit 10 |
| `AdminRoutes.ListBlogs` | backend/routes/admin.js:114-141 | after the admin gate: a non-empty q that is not a valid pattern, or a negative skip, gives 500 with no result; otherwise 200 with the blogs matching the title/author filter, their count, and the same page arithmetic |
| `AdminRoutes.ChangeRole` | backend/routes/admin.js:54-65 | invalid role gives 400 before the self check; self gives 400; unknown id gives 404; all with no change; otherwise only that user's role changes |
| `AdminRoutes.ToggleBlock` | backend/routes/admin.js:72-86 | self gives 400 and unknown id 404, with no change; otherwise exactly the target's `isBlocked` flips, and the reply reports the new flag |
| `AdminRoutes.DeleteUser` | backend/routes/admin.js:93-103 | self gives 400 and unknown id 404, with no user or blog deleted; otherwise the user and every blog they authored go, and other blogs are untouched |
| `AdminRoutes.DeleteBlog` | backend/routes/admin.js:145-150 | unknown id gives 404 with no change; otherwise exactly that blog is removed |
| `AdminRoutes.DeleteComment` | backend/routes/admin.js:160-179 | missing blog or comment id gives 404 with no change; otherwise exactly the first comment with that id is spliced out |
| `BlogRoutes.ApplyPatch` | backend/routes/blog.js:51-55 | every field present in the body overwrites the stored one, `author` included; absent fields keep their values; comments and likes are never changed; an empty body changes nothing |
| `BlogRoutes.CreateBlog` | backend/routes/blog.js:9-17 | a blocked or unknown actor changes nothing; otherwise exactly one new blog with no comments or likes, whose author is the actor whatever the body says |
| `BlogRoutes.UpdateBlog` | backend/routes/blog.js:49-56 | after the block gate, only a blog that exists and is the actor's is patched; otherwise nothing changes, and the reply is 200 either way |
| `BlogRoutes.DeleteBlog` | backend/routes/blog.js:63-66 | after the block gate, only a blog that exists and is the actor's is removed; otherwise nothing changes, and the reply is 200 either way |
| `BlogRoutes.AddComment` | backend/routes/blog.js:73-87 | after the block gate: a missing blog gives 404; otherwise exactly one comment by the actor is appended, and the earlier comments are unchanged |
| `BlogRoutes.DeleteComment` | backend/routes/blog.js:94-104 | after the block gate: a missing blog gives 404; otherwise the comments become the owner filter's result, and a non-owner's request leaves the store unchanged |
| `BlogRoutes.ToggleLike` | backend/routes/blog.js:111-125 | after the block gate: a missing blog gives 404; otherwise likes become the toggle of the actor, whose membership flips |
| `ProfileRoutes.ProfileUpdate` | backend/routes/userprofile.js:37-40 | a bio in the body is stored and a missing one keeps the stored bio; the image is set only with an upload, to `/uploads/` + actor id + extension; nothing else changes |
| `ProfileRoutes.UpdateProfile` | backend/routes/userprofile.js:35-44 | the actor's record gets the profile update and is returned; with no record, nothing changes and null is returned; always 200 |
| `ProfileRoutes.DeleteAccount` | backend/routes/userprofile.js:63-66 | removes only the actor's user record; every blog stays |
| `ProfileRoutes.Search` | backend/routes/userprofile.js:83-94 | 400 exactly when q is missing or empty; 500 exactly when a non-empty q is not a valid pattern; otherwise 200 with the users whose username matches |
| `ProfileRoutes.ViewProfile` | backend/routes/userprofile.js:97-105 | 404 for an unknown profile, 500 when the current user has no record; otherwise `isFollowing` is true exactly when the viewed id is in the current user's `followers` |
| `ProfileRoutes.ToggleFollow` | backend/routes/userprofile.js:134-158 | unknown target gives 404 before the self check, actor without a record 500, self 400, all with no change; otherwise only the actor's `followers` is toggled, and the reply reflects the state before the toggle |
| `AuthRoutes.NewUser` | backend/routes/auth.js:25-31 | a registered user has role "user", is not blocked, follows no one and holds no reset token |
| `AuthRoutes.Register` | backend/routes/auth.js:10-35 | an existing email gives 400 before the role check; role "admin" gives 403; otherwise 201 and one new user with role "user"; unique emails stay unique |
| `AuthRoutes.LoginDecision` | backend/routes/auth.js:59-70 | a blocked account gives 403 whatever the password; a wrong password gives 400; success gives 200 and a token carrying exactly the user's id and role |
| `AuthRoutes.Login` | backend/routes/auth.js:51-72 | an unknown email gives 400 and no token; otherwise the login decision for a user with that email |
| `AuthRoutes.WithResetToken` | backend/routes/auth.js:96-98 | the stored token is usable exactly at times before now + 3600000; nothing else changes |
| `AuthRoutes.ClearedReset` | backend/routes/auth.js:138-140 | sets the new password hash and leaves no usable reset token; nothing else changes |
| `AuthRoutes.ForgotPassword` | backend/routes/auth.js:90-123 | an unknown email gives 400 with no change; otherwise a user with that email gets the token, usable for one hour, and the reply is 200 if the mail is sent and 500 if sending fails, the token staying stored in both cases |
| `AuthRoutes.ResetPassword` | backend/routes/auth.js:128-143 | 400 with no change unless some user holds the token unexpired; that user gets the new hash and loses the token, so the token is no longer usable on that record |
| `Scenarios.BlockTwice` | backend/routes/admin.js:80 | two successful block toggles restore the user table exactly |
| `Scenarios.FollowTwice` | backend/routes/userprofile.js:146-158 | two successful follow toggles restore the target's membership, and the two reply messages alternate |
| `Scenarios.LikeTwice` | backend/routes/blog.js:116-122 | two successful like toggles restore the actor's membership in likes |
| `Scenarios.BlockThenPost` | backend/middleware/notBlocked.js:6 | once an admin blocks a user, that user's next post gets 403 and creates nothing |
| `Scenarios.RegisterLoginPost` | backend/routes/auth.js:25-70 | in an empty store, register then log in with the right password gives a token for the new id with role "user", and the posted blog is owned by that id |

## Left out

- Read-only routes other than the admin lists, search and profile view are not modelled. They are `GET /blogs`, `GET /blogs/:id`, `GET /blogs/me/blogs`, `GET /users/me`, `GET /users/me/followers`, `GET /users/:id/followers` and `GET /users/:id/blogs`. They only look documents up and populate them.
- `PUT /users/me/password` is not part of this model. It is a single hash-and-store update outside the authorization rules.
- Token decoding is not part of this model: `req.user` is given as a `Principal`. JWT signing and its one-hour lifetime are also left out; a login returns only the token payload.
- bcrypt, the regex test, `crypto.randomBytes`, multer's file storage and `path.extname` are parameters, not models. So is `Date.now()`.
- Sending the reset email (nodemailer) is left out; only whether it succeeded is a parameter.
- Query execution details are left out: the sort by `createdAt`, `populate`, `select("-password")`, and the Mongo field casting of ids and booleans.
- `AdminRoutes.ListUsers`: returns the set of matching ids and the page arithmetic, not the page's items, because their order comes from the store's sort.
- `AdminRoutes.ListBlogs`: as `ListUsers`.
- `Number()` conversion of query strings is left out. Page and limit arrive as integers, so non-numeric input (NaN) is not modelled. A zero limit is modelled as a non-finite `pages`.
- The 500 answers from thrown exceptions are left out where they come from malformed ids, store failures and validation errors. Modelled are the two null dereferences in the follow and profile-view routes, the store refusing a negative skip in the admin lists, an invalid search pattern in the search and admin lists, and a failed reset mail.
- `BlogRoutes.UpdateBlog`: the body is modelled with `title`, `content` and `author` only. A body that overwrites `comments`, `likes` or timestamps is not modelled.
- Blog and comment timestamps are left out, except the comment's `createdAt`, which is the `now` parameter. The schema's other defaults are also left out; a new user gets an empty bio and no image.
- `AuthRoutes.Login`: when several records share an email, `findOne` returns the first in the store's natural order. The model picks any one. The same holds for `ForgotPassword` and for `ResetPassword` when several records hold the same token.
- `AdminRoutes.DeleteUser`: the two deletions run as one step. The store failing between them is not modelled.
- Concurrency is left out: two toggles racing on one document can lose an update.
- `Lists.Without`: the contract states membership and length. That the kept elements stay in order follows from the definition and from `WithoutAppend`, not from a postcondition.
- `Lists.KeepComments`: the contract states membership and a length bound, not order. `KeepCommentsNonOwner` gives the exact result in the non-owner case.
- The frontend is not modelled: React pages, the client-side `canDeleteComment` check, `localStorage` and the HTTP client.
