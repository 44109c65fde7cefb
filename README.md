# Bug tracker backend: a verified model of its routes and audit log

This project models the request handlers of a small bug-tracking service
written for Express and Mongoose:

- the account routes (signup, signin, signout, current user),
- the bug routes (list, get, create, partial update, delete),
- the user routes (team listing, lookup, own-profile update),
- the admin routes (dashboard counters, activity feed, user and bug
  management),
- the Activity model, the append-only audit log these handlers write.

The database is one `Storage.Store` object. It holds the `users` and `bugs`
collections as maps keyed by id, the activity collection as a sequence, and a
logical clock `tick`. Every new document takes the clock as its id and its
creation time, the way an ObjectId starts with its creation time. Every save
and every log entry advances the clock. So "newest first" means "largest id
first".

`Store.Valid()` is the invariant every handler keeps:

- every id is below the clock;
- every bug's creation time is its id and is no later than its last save;
- the log is in strictly increasing creation time, and every entry has its
  required message.

The handlers that change data are methods on the store, with `modifies`
clauses. Each one states its whole new state for every branch: error code,
message, and which collections stay as they were. The handlers that only read
are functions over the collections. The properties of their results (order,
completeness, projection, counts) are proved as lemmas. Each method that
changes users also keeps email uniqueness.

The authentication middleware is represented by what it hands a handler: an
`Option<Claim>` holding the requester's id and role. `None` stands for a
missing or invalid token. The admin routes add the `requireAdmin` step:

- no identity gives 401;
- a role other than admin gives 403;
- in both cases the request never reaches the handler and the store does not
  change.

Three behaviours of the code are worth stating because a reader might expect otherwise:

- Signup checks the password length before the email format.
- Admin user creation checks only that the fields are present. It does not
  check the email format or the password length.
- An activity-feed entry whose user or bug no longer exists shows that
  reference as `null`, not as "Unknown".

`Walkthrough.AnnReportsAndResolves` proves an end-to-end scenario against a
fresh store: signup, a refused and an accepted signin, a bug report, its
resolution, and the admin feed showing the status change.

## Model

| member | source | states |
|---|---|---|
| ActivityLog.ParseType | src/models/Activity.js:4-8 | a `type` string is accepted iff it is one of the six schema names, and then denotes exactly that type |
| ActivityLog.TypeRoundTrip | src/models/Activity.js:4-8 | every activity type's stored name is admitted by the enum and reads back as the same type |
| Storage.Store.Record | src/models/Activity.js:3-27 | appends exactly one entry with the given type, user, optional bug, non-empty message and optional metadata, stamped with the current time; nothing else in the store changes and the log stays chronological |
| Storage.Store.RemoveBug | src/routes/bugs.js:144 | reports whether the bug existed; afterwards it is gone, and nothing else changes |
| Storage.Store.RemoveUser | src/routes/admin.js:195 | reports whether the user existed; afterwards it is gone, and nothing else changes |
| EmailFormat.IsEmailMatchesPattern | src/routes/auth.js:20-23 | the executable email check holds iff the string splits as a non-empty run without whitespace or `@`, then `@`, a non-empty run, `.`, and a non-empty run, with no whitespace or second `@` anywhere |
| JsParseInt.ParseDecimal | src/routes/admin.js:74 | `parseInt` reads back every canonical decimal numeral as its value |
| JsParseInt.ParsePlusDecimal | src/routes/admin.js:74 | a `+` before a numeral does not change what `parseInt` reads |
| JsParseInt.ParseMinusDecimal | src/routes/admin.js:74 | a `-` before a numeral negates it |
| JsParseInt.ParseSkipsWhitespace | src/routes/admin.js:74 | leading whitespace and line terminators do not change what `parseInt` reads |
| JsParseInt.NotANumber | src/routes/admin.js:74 | a string whose first visible character is neither a sign nor a digit is NaN |
| BugRoutes.ReportedByFallback | src/routes/bugs.js:18 | `reportedBy` is the reporter's name when the reporter exists with a non-empty name, and `Unknown` when the reporter is gone |
| BugRoutes.NewestListsAllNewestFirst | src/routes/bugs.js:11-19 | the listing holds every stored bug, each as its view, and only those, in strictly decreasing creation time |
| BugRoutes.ListBugs | src/routes/bugs.js:9-26 | 401 without an identity; otherwise 200 with a listing that holds every stored bug once, as its view, in strictly decreasing creation time |
| BugRoutes.GetBug | src/routes/bugs.js:29-49 | succeeds iff authenticated and the id exists; 401 and 404 otherwise; the reply is the stored bug's full view, with the resolved reporter name |
| BugRoutes.ApplyPatch | src/routes/bugs.js:105-112 | a title or description supplied non-empty replaces the stored one, a supplied severity, priority or status replaces the stored one, everything else (reporter, creation time) is kept; `updatedAt` moves only when some field changed |
| BugRoutes.EmptyPatchKeepsBug | src/routes/bugs.js:105-112 | an update that supplies nothing leaves the bug, including `updatedAt`, as it was |
| BugRoutes.PatchIdempotent | src/routes/bugs.js:105-112 | applying the same update again leaves the bug as the first application did |
| BugRoutes.StatusEntries | src/routes/bugs.js:114-123 | at most one entry; exactly one iff a status is supplied and differs from the old one, and then it is a `status_changed` entry by the requester about this bug with metadata `{oldStatus, newStatus}` |
| BugRoutes.CreateBug | src/routes/bugs.js:52-91 | 401 or 400 (missing or empty title or description) leave the store unchanged; otherwise exactly one new bug (severity and priority default to medium, status open, reporter the requester) and exactly one `bug_created` entry by the requester about that bug, and 201 with its view |
| BugRoutes.UpdateBug | src/routes/bugs.js:94-139 | 401 and 404 leave the store unchanged; otherwise only the target bug changes, as the patch says, users are untouched, and the log grows by exactly the status entries |
| BugRoutes.DeleteBug | src/routes/bugs.js:142-155 | never touches users or the log; 401 and 404 change nothing; otherwise only the target bug is removed |
| AuthRoutes.SignupProblem | src/routes/auth.js:12-23 | accepts iff all three fields are present and non-empty, the password has at least 6 characters and the email matches the pattern; presence is reported first, then length, then format |
| AuthRoutes.Signup | src/routes/auth.js:8-52 | 400 and 409 (an existing user with exactly this email) leave the store unchanged; otherwise exactly one new user with the hashed password and the user role, exactly one `user_created` entry about them, and 201 with the password-free user and a token for them; emails stay unique |
| AuthRoutes.Signin | src/routes/auth.js:55-95 | 400 without both fields; an unknown email and a wrong password give the same 401 and change nothing; with a unique email it succeeds iff the password matches; success sets that user Online, appends one `user_login` entry and returns that user |
| AuthRoutes.Signout | src/routes/auth.js:98-113 | 401 without an identity; otherwise the requester (if still stored) goes Offline, one `user_logout` entry is appended, nothing else changes |
| AuthRoutes.Me | src/routes/auth.js:116-127 | succeeds iff authenticated and the requester still exists; 401 and 404 otherwise; the reply is the requester's stored record without the password |
| AuthRoutes.SignupThenSignin | src/routes/auth.js:8-95 | after a valid signup with a fresh email, signing in with the same email and password succeeds for the new account and shows it Online |
| UserRoutes.RosterListsEveryone | src/routes/users.js:9-17 | the team listing holds every user exactly once as id, name, email, status and role (no password field), oldest account first |
| UserRoutes.ListUsers | src/routes/users.js:7-23 | 401 without an identity; otherwise 200 with every user once, as the five-field summary, oldest first |
| UserRoutes.GetUser | src/routes/users.js:26-39 | succeeds iff authenticated and the id exists; 401 and 404 otherwise; the reply is that user's stored record without the password |
| UserRoutes.ProfilePatch | src/routes/users.js:44-50 | a supplied name or status replaces the stored one and an absent one keeps its value; email, role, password and creation time are kept |
| UserRoutes.UpdateProfile | src/routes/users.js:42-61 | only the requester's own record changes, as the patch says; 404 when it no longer exists; bugs, log and clock are untouched |
| AdminRoutes.Denied | src/routes/admin.js:9-10 | the middleware refusal: 401 exactly when there is no identity, 403 exactly when there is one without the admin role |
| AdminRoutes.StatusPartition | src/routes/admin.js:28-32 | the four status counts add up to the number of bugs |
| AdminRoutes.SeverityPartition | src/routes/admin.js:33-36 | the four severity counts add up to the number of bugs |
| AdminRoutes.Stats | src/routes/admin.js:15-63 | totals are the collection sizes; each status and severity counter is the number of bugs with that value, `resolvedToday` the number of resolved bugs saved since the start of the day, `adminUsers` the number of admins; status and severity counts each sum to the total; `resolvedToday` is at most `resolvedBugs`; `adminUsers` is at most `totalUsers` |
| AdminRoutes.ResolvedTodayCountsToday | src/routes/admin.js:41-47 | a resolved bug is among those `Stats` counts in `resolvedToday` iff its last save is at or after the start of the day |
| AdminRoutes.GetStats | src/routes/admin.js:13-69 | non-admins are refused by the middleware; admins get the counters |
| AdminRoutes.Render | src/routes/admin.js:83-90 | a feed entry keeps the activity's id, type, message and time; its user is present iff the acting user still exists, with that user's name, and its bug is present iff a bug is referenced and still exists, with its title |
| AdminRoutes.FeedLimit | src/routes/admin.js:74 | the limit is always positive and 10 when the query parameter is missing |
| AdminRoutes.FeedLimitOfNumeral | src/routes/admin.js:74 | a positive decimal limit, with or without a sign, is taken by its magnitude |
| AdminRoutes.FeedLimitDefaults | src/routes/admin.js:74 | `limit=0` and every limit `parseInt` reads as NaN give 10, among them `+`, `-x`, `0x` and `0xg` |
| JsParseInt.SignOrPrefixAloneIsNaN | src/routes/admin.js:74 | a bare sign, a sign before a non-digit, and a hexadecimal prefix without a hexadecimal digit are NaN |
| AdminRoutes.RecentIsNewestFirst | src/routes/admin.js:76-80 | the feed holds min(limit, log size) entries, the last ones logged, in strictly decreasing time, and every entry left out is older than every entry shown |
| AdminRoutes.GetActivities | src/routes/admin.js:72-96 | non-admins are refused; admins get the recent feed with the parsed limit |
| AdminRoutes.AccountsListEveryone | src/routes/admin.js:101-110 | the admin user listing holds every user exactly once without the password, oldest first |
| AdminRoutes.ListUsers | src/routes/admin.js:98-116 | non-admins are refused; admins get every user once without the password, oldest first |
| AdminRoutes.CreateUser | src/routes/admin.js:119-154 | non-admins, 400 (a missing field) and 409 (duplicate email) change nothing; otherwise exactly one new user with the requested role (default user), no activity entry, and 201 with the password-free user; emails stay unique |
| AdminRoutes.EditUser | src/routes/admin.js:159-165 | each supplied name, email, role and status replaces the stored one and each absent one keeps its value; the password and creation time are kept; an empty edit keeps the user |
| AdminRoutes.UpdateUser | src/routes/admin.js:157-185 | non-admins and 404 change nothing; an email another user holds is rejected by the unique index and changes nothing; otherwise only that user changes, and the reply has id, name, email, role and status; emails stay unique |
| AdminRoutes.DeleteUser | src/routes/admin.js:188-206 | the requester's own id gives 400 before any lookup, and nothing changes; a missing id gives 404; otherwise only that user is removed; bugs and log are never touched |
| AdminRoutes.AllBugsNewestFirst | src/routes/admin.js:211-226 | the admin bug listing holds every bug exactly once, with the reporter's name, in strictly decreasing creation time |
| AdminRoutes.ListBugs | src/routes/admin.js:208-232 | non-admins are refused; admins get every bug once, as its row with the reporter's name, in strictly decreasing creation time |
| AdminRoutes.DeleteBug | src/routes/admin.js:235-248 | non-admins and 404 change nothing; otherwise only that bug is removed; users and log are never touched |
| Walkthrough.AnnSignupValid | src/routes/auth.js:12-23 | the scenario's signup input passes every validation |
| Walkthrough.AnnSignsUp | src/routes/auth.js:8-52 | signup on a store without the email gives 201 and an account whose password matches |
| Walkthrough.AnnSignsIn | src/routes/auth.js:55-95 | a wrong password gives 401, the right one then gives 200 |
| Walkthrough.AnnResolves | src/routes/bugs.js:52-123 | creating a bug gives 201, status open and the reporter's name; resolving it gives 200 and leaves a `status_changed` entry about it last in the log |
| Walkthrough.AnnReportsAndResolves | src/routes/admin.js:72-96 | the full scenario: 201, 401, 200, 201 (open, reported by Ann), 200, and an admin feed with `limit=5` whose newest entry is the status change of bug "T" |

## Left out

- The middleware file, the User model and the Bug model are not part of this model. Token signing, verification and expiry are replaced by the `Option<Claim>` handed to each handler. The 403 message "Admin access required" is a placeholder.
- Password hashing is the store's `digest` function: a one-way function given as a parameter. Salting and the asynchronous bcrypt comparison are not modelled.
- The User model's default presence is the store's `defaultPresence` constant.
- Request bodies arrive already typed: text fields are strings and enum fields (severity, priority, status, role) are values of their Dafny datatype. Out-of-type input is not modelled, and it behaves differently by route:
  - Through `create` or `save` (signup, signin, bug create and update, admin create), a value outside an enum fails schema validation and the route answers 500.
  - Through `findByIdAndUpdate` (profile update, admin user update), no validators run by default, so an out-of-enum `status` or `role` is stored and returned with 200.
  - A non-string password such as the number 12345 has no `length`, so it passes the length check and signup can succeed with it.
- Every 500 path that comes from a database failure or a malformed ObjectId (a cast error) is left out. The one exception is the duplicate-key rejection in `AdminRoutes.UpdateUser`.
- Emails are unique: signup and admin create refuse a taken email, and a unique index on the User model's `email` rejects an update to a taken one. The User model is not part of this model, so that index is an assumption.
- Concurrency is left out. The handlers run one at a time, each as one atomic step. Two concurrent signups with the same email, or a crash between a save and its log entry, are not modelled.
- Time is the logical clock. The start of "today" for `resolvedToday` is a parameter.
- `findByIdAndUpdate` drops fields that are `undefined`, as Mongoose 7 and later do. An absent field is left untouched.
- Mongoose's `timestamps` moves `updatedAt` on `save` only when a field changed. `ApplyPatch` models exactly that.
- `AuthRoutes.Signin`: which user `findOne` returns when several share an email is the storage's choice. The model picks one arbitrarily, and its success iff-clause is stated only when the email is unique. The store keeps emails unique.
- `AuthRoutes.SignupProblem`: the length check counts Unicode code points. JavaScript counts UTF-16 code units, so a password with characters outside the Basic Multilingual Plane counts shorter here.
- `UserRoutes.ListUsers` and `AdminRoutes.ListUsers`: `User.find()` without a sort returns the collection's natural order. The model lists users in insertion order (ids ascending).
- `BugRoutes.ListBugs` and `BugRoutes.GetBug`: the populated `reporterId` (an object with the reporter's name and email) is shown in `BugView` as the plain id. The name is in `reportedBy`.
- The success-message strings in response bodies (for example "Bug created successfully") are not modelled. Only the status codes and data of successful replies are.
- `JsParseInt.ParseInt` returns an exact integer. JavaScript's `parseInt` returns a double, so numerals above 2^53 round and very long ones become `Infinity`.
- `AdminRoutes.DeleteUser` compares abstract ids. The route compares the id strings, while `findByIdAndDelete` casts its argument to an ObjectId. So the requester's own id written differently (in upper-case hexadecimal, say) passes the guard and deletes the requester. The model does not capture this.
- The listing routes take the store's clock as the bound below which ids are listed, and require the store's invariant for it.
- A repeated `limit` query parameter (which Express parses as an array) is not modelled. The parameter is an optional string.
- The Express wiring, the CORS list, the health route, the database connection and the seed script are left out. They are plumbing with no contract.
