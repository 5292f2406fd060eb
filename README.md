# Job-application tracker: authentication and dashboard list, modelled in Dafny

This project models two parts of a small job-application tracker.

The first is the authentication logic of the Express API server (`server.js`). It covers:

- the `user` table of `(email, password)` rows;
- email normalisation;
- the `POST /api/create-account` and `POST /api/login` routes, including lazy migration of legacy plaintext passwords to bcrypt hashes;
- the `authenticateToken` bearer-token guard;
- the two protected routes, `/api/auth/me` and `/api/users`.

The second is the in-memory list logic of the dashboard page (`frontend/src/pages/dashboard.jsx`). It covers:

- `normalize` and the status-pill class name;
- the `metrics` and `filteredApplications` memos;
- the add, delete and refresh handlers that replace the component's state.

Files:

- `wrappers.dfy`: the `Option` type.
- `text.dfy`: the string operations both sides use.
  - `trim`, `toLowerCase`, `startsWith` and `includes`.
  - The `replace(/\s+/g, "-")` of the status pill.
- `auth.dfy`: the server.
  - The table is the field `users` of class `Auth.Server`.
  - The two POST routes are methods that change it.
  - The guard and the two GET routes are functions of the table.
  - bcrypt and JWT are a value `Crypto` of four functions, bound to the server's secret.
    - `SoundHasher`: a hash has a bcrypt prefix and `compare` accepts its password.
    - `SoundSigner`: a signed token verifies to its email until one hour after signing, and fails from then on.
  - The salt bcrypt draws, the clock JWT reads and each database failure are parameters of the handlers.
- `dashboard.dfy`: the dashboard.
  - The memos are functions.
  - The component state is class `Dashboard.Board`. Its invariant is that ids are unique and every reminder belongs to a listed application.
  - `localeCompare` is a parameter `collate`, where `collate(a, b)` means `a.localeCompare(b) <= 0`. Sortedness is proved for any total preorder.

## Model

| member | source | states |
|---|---|---|
| Text.TrimLowerCommute | frontend/src/pages/dashboard.jsx:72-74 | lower-casing then trimming (the page) equals trimming then lower-casing (the server) |
| Text.LowerChar | server.js:86 | `A`-`Z` move to `a`-`z`; every other character, whitespace included, is left as it is |
| Text.ToLower | server.js:86 | lower-casing keeps the length; at every position an upper-case letter `A`-`Z` becomes the letter 32 code points later and any other character is kept; no upper-case letter remains |
| Text.ToLowerAppend | server.js:86 | lower-casing distributes over concatenation |
| Text.ToLowerNoUpper | server.js:86 | a string without upper-case letters is its own lower case |
| Text.ToLowerTake | server.js:86 | lower-casing a prefix gives the prefix of the lower-cased string |
| Text.ToLowerDrop | server.js:86 | lower-casing a suffix gives the suffix of the lower-cased string |
| Text.ToLowerKeepsSpaces | server.js:86 | lower-casing never turns whitespace into a non-space or a non-space into whitespace |
| Text.TrimStart | frontend/src/pages/dashboard.jsx:73 | the result is a suffix of the input; everything cut is whitespace; the result does not start with whitespace |
| Text.TrimEnd | frontend/src/pages/dashboard.jsx:73 | the result is a prefix of the input; everything cut is whitespace; the result does not end with whitespace |
| Text.ToLowerIdempotent | server.js:86 | lower-casing twice is lower-casing once |
| Text.TrimIdempotent | server.js:86 | trimming twice is trimming once |
| Text.TrimStartLower | server.js:86 | dropping leading whitespace commutes with lower-casing |
| Text.TrimEndLower | server.js:86 | dropping trailing whitespace commutes with lower-casing |
| Text.Trim | frontend/src/pages/dashboard.jsx:73 | the trimmed string is the slice of the input between two cut points, everything cut before and after it is whitespace, and it neither starts nor ends with whitespace |
| Text.TrimFixedPoint | frontend/src/pages/dashboard.jsx:73 | a string with no whitespace at either end is its own trim |
| Text.TrimKeepsNoUpper | frontend/src/pages/dashboard.jsx:73 | trimming a string without upper-case letters leaves none |
| Text.TrimBlank | frontend/src/pages/dashboard.jsx:141 | a whitespace-only string trims to the empty string |
| Text.Includes | frontend/src/pages/dashboard.jsx:146-148 | every string includes the empty string; a string that `s` includes is no longer than `s` |
| Text.IncludesIff | frontend/src/pages/dashboard.jsx:146-148 | `includes` holds exactly when the substring occurs at some start position |
| Text.DashSpaceRuns | frontend/src/pages/dashboard.jsx:77 | replacing whitespace runs never lengthens the string |
| Text.DashSpaceRunsLeavesNoSpace | frontend/src/pages/dashboard.jsx:77 | after the replacement no whitespace is left |
| Text.DashSpaceRunsWord | frontend/src/pages/dashboard.jsx:77 | a whitespace-free prefix is kept as it is in front of the replaced rest |
| Text.DashSpaceRunsLeading | frontend/src/pages/dashboard.jsx:77 | a leading whitespace run of any length, followed by a non-space or nothing, becomes exactly one `-` |
| Text.DashSpaceRunsNoSpace | frontend/src/pages/dashboard.jsx:77 | a string without whitespace is left as it is |
| Text.TrimStartRun | frontend/src/pages/dashboard.jsx:77 | dropping the leading whitespace of a whitespace run followed by a string that starts with a non-space leaves exactly that string |
| Text.DashSpaceRunsRun | frontend/src/pages/dashboard.jsx:77 | a whitespace-free word, then a whitespace run of any length, then a rest starting with a non-space, gives the word, one `-`, and the replaced rest |
| Text.DashTrimRun | frontend/src/pages/dashboard.jsx:72-77 | trimming then replacing two whitespace-free words around a whitespace run joins them with one `-` |
| Text.LowerRun | frontend/src/pages/dashboard.jsx:72-77 | lower-casing two words around a whitespace run lower-cases each part; the words stay free of whitespace and the run stays whitespace |
| Auth.NormalizeEmailShape | server.js:86 | a normalised email has no upper-case letter and no whitespace at either end |
| Auth.NormalizeEmail | server.js:86 | the normalised email is never longer than the input, so an absent email becomes `""` |
| Auth.NormalizeEmailFixedPoint | server.js:86 | an email normalises to itself iff it has no upper-case letter and no whitespace at either end |
| Auth.MissingCredentials | server.js:88-90 | an absent email or password is refused; a request that is not refused has a non-empty email and a non-empty password |
| Auth.NormalizeEmailIdempotent | server.js:117 | normalising a normalised email changes nothing |
| Auth.BearerToken | server.js:38-40 | the token is a suffix of the header: seven characters shorter when the header starts with `"Bearer "`, the whole header otherwise |
| Auth.BearerTokenStripsScheme | server.js:38-40 | a header `"Bearer " + t` yields exactly `t` |
| Auth.BearerTokenBare | server.js:38-40 | a header not starting with `"Bearer "` is taken as the token unchanged |
| Auth.ExtractToken | server.js:37-44 | the guard answers 401 exactly when the header is absent, empty or the bare `"Bearer "`; otherwise the token is non-empty; a `"Bearer "` header yields the text after the scheme, and any other non-empty header is the token as it is |
| Auth.LooksHashed | server.js:137-139 | a stored password counts as hashed iff it starts with `$2a$`, `$2b$` or `$2y$`, spelled character by character |
| Auth.FirstMatch | server.js:126-135 | the lookup returns the first row whose lower-cased email equals the key; it returns none iff no row matches |
| Auth.FirstMatchUnique | server.js:126-135 | under the unique index, a matching row is the one the lookup returns |
| Auth.InsertNew | server.js:96-99 | inserting a normalised email that matches no row keeps emails unique, and the new row is then found |
| Auth.Server.Insert | server.js:96-99 | the INSERT appends exactly the row `(key, hash)`, keeps the emails unique, and a lookup of `key` then finds the new row |
| Auth.SetPasswordOneRow | server.js:158-161 | under the unique index, the UPDATE keyed by a row's email rewrites that row's password and no other row |
| Auth.SetPasswordKeepsUnique | server.js:158-161 | the UPDATE keeps the emails unique |
| Auth.SetPassword | server.js:158-161 | the UPDATE keeps the number of rows |
| Auth.Emails | server.js:189 | the email list has one entry per row |
| Auth.Server.CreateAccount | server.js:84-112 | missing fields give 400 and a failed store gives 500, each with no change; an existing email gives 409 with no change; otherwise 201 and exactly one new row `(normalised email, hash(password))` is appended |
| Auth.Server.Rehash | server.js:156-162 | row `i` gets `hash(password)` in its password column; every other row and every email stay |
| Auth.PasswordOutcome | server.js:141-170 | after a found row the table keeps its length and that row's email; a 200 comes only when `compare` accepts the password for a hashed column, or the password equals a legacy column exactly |
| Auth.Server.CheckPassword | server.js:135-170 | see the bullets after this table |
| Auth.Server.Login | server.js:115-178 | missing fields give 400; a lookup failure gives 500; an unknown email gives 401; each leaves the table unchanged; a found row answers as `CheckPassword` states |
| Auth.Server.Authenticate | server.js:36-74 | no token gives 401; a token that does not verify gives 403; with verified claims, a database failure gives 500, no matching row gives 403, and otherwise the request passes with the claims; passing implies that a row with the claimed email exists |
| Auth.Server.Me | server.js:198-200 | 200 with the claimed email exactly when the guard passes; otherwise the guard's answer |
| Auth.Server.ListUsers | server.js:181-195 | 200 exactly when the guard passes and the SELECT succeeds; the list is every stored email in table order |
| Auth.SignUpThenLogIn | server.js:84-178 | under sound crypto, creating an account then logging in with the same password and the email in any case or spacing gives 201, then a token for the normalised email, and that token opens `/api/auth/me` within the hour |
| Auth.LegacyPasswordMigrates | server.js:141-162 | a legacy plaintext row logs in; its column then holds a bcrypt hash that differs from the plaintext; the same password logs in again |
| Auth.ExpiredTokenRefused | server.js:46-49 | a token issued an hour or more ago is answered with 403 |
| Dashboard.NormalizeIdempotent | frontend/src/pages/dashboard.jsx:72-74 | `normalize` is idempotent |
| Dashboard.NormalizeMissing | frontend/src/pages/dashboard.jsx:72-74 | a missing value normalises to `""` |
| Dashboard.Normalize | frontend/src/pages/dashboard.jsx:72-74 | `normalize` never lengthens its input, so a missing value becomes `""` |
| Dashboard.NormalizeShape | frontend/src/pages/dashboard.jsx:72-74 | a normalised value has no upper-case letter and no whitespace at either end |
| Dashboard.NormalizeFixedPoint | frontend/src/pages/dashboard.jsx:72-74 | a value normalises to itself iff it has no upper-case letter and no whitespace at either end |
| Dashboard.StatusPillClass | frontend/src/pages/dashboard.jsx:76-78 | the class starts with `"status-pill status-"`, and what follows contains no whitespace |
| Dashboard.StatusPillTwoWords | frontend/src/pages/dashboard.jsx:76-78 | two whitespace-free words separated by any whitespace run give the prefix, the first word lower-cased, one `-`, and the second word lower-cased |
| Dashboard.StatusPillOneWord | frontend/src/pages/dashboard.jsx:76-78 | a status without whitespace gives the prefix followed by the lower-cased status |
| Dashboard.Filter | frontend/src/pages/dashboard.jsx:143-153 | `filter` never lengthens the list, and every element it keeps passes the test |
| Dashboard.FilterCount | frontend/src/pages/dashboard.jsx:143-153 | `filter` keeps every passing element as often as it occurs, and no failing element |
| Dashboard.FilterMembership | frontend/src/pages/dashboard.jsx:143-153 | an element is in the filtered list iff it is in the list and passes |
| Dashboard.FilterIsSubsequence | frontend/src/pages/dashboard.jsx:143-153 | the filtered list is a subsequence of the input, so relative order is kept |
| Dashboard.FilterAll | frontend/src/pages/dashboard.jsx:143-153 | when every element passes, the list is returned unchanged |
| Dashboard.Reverse | frontend/src/pages/dashboard.jsx:156 | the reversed list has the same length and the same elements with the same multiplicities |
| Dashboard.ReverseIndex | frontend/src/pages/dashboard.jsx:156 | position `k` of the reversed list holds the element `k` places from the end |
| Dashboard.Insert | frontend/src/pages/dashboard.jsx:157-158 | one insertion step adds exactly the inserted element |
| Dashboard.SortBy | frontend/src/pages/dashboard.jsx:157-158 | sorting is a permutation |
| Dashboard.InsertSorted | frontend/src/pages/dashboard.jsx:157-158 | under a total preorder, inserting into a sorted list keeps it sorted |
| Dashboard.SortBySorted | frontend/src/pages/dashboard.jsx:157-158 | under a total preorder, the sorted list is ordered by the key |
| Dashboard.ContactsOf | frontend/src/pages/dashboard.jsx:135 | a missing contact count counts 0; a present one counts as it is |
| Dashboard.TotalContacts | frontend/src/pages/dashboard.jsx:135 | when no application has a negative count, the contact total is not negative |
| Dashboard.TotalContactsAppend | frontend/src/pages/dashboard.jsx:135 | the contact total of a concatenation is the sum of the two totals |
| Dashboard.ReduceContacts | frontend/src/pages/dashboard.jsx:135 | the left fold `reduce` from `acc` equals `acc` plus the contact total, missing values counting 0 |
| Dashboard.ComputeMetrics | frontend/src/pages/dashboard.jsx:132-138 | the three cards are the application count, the contact total and the reminder count |
| Dashboard.SeedMetrics | frontend/src/pages/dashboard.jsx:3-70 | the seed data shows 6 applications, 5 contacts and 3 reminders |
| Dashboard.MatchesQuery | frontend/src/pages/dashboard.jsx:144-148 | an empty query matches every application; a non-empty query matches only one no longer than the title, the company or the location |
| Dashboard.MatchesStatus | frontend/src/pages/dashboard.jsx:150 | `"all"` matches every application; a filter value that is not itself normalised matches none |
| Dashboard.Matching | frontend/src/pages/dashboard.jsx:143-153 | the matches are never more than the list, and every one matches the normalised query and the status filter |
| Dashboard.Arrange | frontend/src/pages/dashboard.jsx:155-160 | every ordering is a permutation of the filtered list |
| Dashboard.FilteredApplications | frontend/src/pages/dashboard.jsx:140-161 | the memo is a permutation of the matching applications and never longer than the list |
| Dashboard.FilteredMembership | frontend/src/pages/dashboard.jsx:143-153 | an application is shown iff it matches the query (empty, or a substring of the normalised title, company or location) and the status filter (`"all"`, or equal to the normalised status) |
| Dashboard.BlankQueryShowsAll | frontend/src/pages/dashboard.jsx:141-145 | a whitespace-only query, with status `"all"` and order `"newest"`, shows the whole list as it is |
| Dashboard.FilteredNewest | frontend/src/pages/dashboard.jsx:155 | "newest" and any unknown order show the matches as a subsequence of the list |
| Dashboard.ArrangeOldest | frontend/src/pages/dashboard.jsx:156 | "oldest" is the exact reverse of the matches |
| Dashboard.FilteredSorted | frontend/src/pages/dashboard.jsx:157-158 | "company" and "status" order the matches by that field under any total preorder |
| Dashboard.MaxId | frontend/src/pages/dashboard.jsx:164 | `Math.max(0, ...ids)` is non-negative, bounds every id, and is 0 or some application's id |
| Dashboard.NewApplication | frontend/src/pages/dashboard.jsx:165-174 | the new record carries the given id and no contacts |
| Dashboard.NewApplicationSaved | frontend/src/pages/dashboard.jsx:165-174 | the new record shows under the `"saved"` status filter |
| Dashboard.AddApplicationMetrics | frontend/src/pages/dashboard.jsx:163-176 | adding one application raises the count by one and keeps the contact and reminder cards |
| Dashboard.RemoveApplication | frontend/src/pages/dashboard.jsx:184 | exactly the applications with another id remain, each with its multiplicity |
| Dashboard.DetachReminders | frontend/src/pages/dashboard.jsx:185 | exactly the reminders of other applications remain, each with its multiplicity |
| Dashboard.DeleteKeepsOrder | frontend/src/pages/dashboard.jsx:183-186 | what remains of both lists keeps its relative order |
| Dashboard.RemoveAbsentId | frontend/src/pages/dashboard.jsx:184 | deleting an id no application carries leaves the applications unchanged |
| Dashboard.DetachAbsentId | frontend/src/pages/dashboard.jsx:185 | deleting an id no reminder refers to leaves the reminders unchanged |
| Dashboard.FilterKeepsUniqueIds | frontend/src/pages/dashboard.jsx:184 | filtering a list with unique ids keeps the ids unique |
| Dashboard.SeedsValid | frontend/src/pages/dashboard.jsx:3-70 | the seed ids are unique and every seed reminder belongs to a seed application |
| Dashboard.Board.constructor | frontend/src/pages/dashboard.jsx:124-130 | the initial state holds the seeds, `""`, `"all"`, `"newest"` and `"cards"`, and satisfies the invariant |
| Dashboard.Board.AddApplication | frontend/src/pages/dashboard.jsx:163-176 | the new record with id `max(0, ids) + 1` is placed first and the previous list follows unchanged; its id is positive and differs from every earlier id; the invariant holds |
| Dashboard.Board.Delete | frontend/src/pages/dashboard.jsx:183-186 | both lists are filtered; no application with the id and no reminder of it remain; the invariant, including reminder-to-application references, still holds |
| Dashboard.Board.Refresh | frontend/src/pages/dashboard.jsx:188-195 | the seeds and the four default control values are restored |

`Auth.Server.CheckPassword` states the login outcome for a found row:

- A hashed column is judged only by `compare`, even when the password equals the hash string, and the table is unchanged.
- A legacy column logs in iff the password equals it exactly. The row is then rewritten to `hash(password)` before the token for the row's stored email is issued.
- A failed UPDATE gives 500 and no change.

## Left out

- bcrypt and JWT are not modelled inside. They are the abstract functions of `Crypto`.
  - The handlers and the scenario methods rely only on `SoundHasher` and `SoundSigner`.
  - The cost factor 10, the salt format and the token's text are not represented.
- The clock is a parameter `now` in seconds, and `expiresIn: '1h'` is `TokenLifetime = 3600`.
  - JWT's `iat`, `exp` and rounding to whole seconds are subsumed by `SoundSigner`.
- MySQL is not modelled.
  - The connection, the SQL text and `connection.end()` are left out.
  - Any failure of the connection or of a statement is a boolean parameter that leads to the route's 500.
- MySQL's `ER_DUP_ENTRY` is modelled as a lookup by lower-cased email before the insert.
  - This relies on a unique index under a case-insensitive collation, stated as `UniqueEmails`.
  - A failing store is checked before the duplicate test.
  - The rehash UPDATE's `email = ?` compares under the same collation, case-insensitively, and writes only the password column. Under `UniqueEmails` it rewrites exactly the found row (`Auth.SetPasswordOneRow`).
- Auth.Server.Login: the rehash is not best-effort. A failed UPDATE answers 500, as `server.js` lines 156-162 and 174-176 do.
- Auth.Server.CheckPassword: a NULL password column, which `String(user.password || '')` turns into `""`, is modelled as a stored `""`.
- Non-string request bodies are not modelled. An email or password that is a number or an object, coerced by `String(...)` or by truthiness, is out of scope.
  - A body field is either absent or a string.
- Only ASCII is modelled for text.
  - `toLowerCase` maps `A`-`Z`.
  - `trim` and `\s` recognise space, tab, line feed, vertical tab, form feed and carriage return.
  - Unicode case mapping and Unicode whitespace are not modelled.
- `localeCompare` is not modelled for any locale. It is the parameter `collate`.
  - Sortedness is proved assuming only that it is a total preorder.
  - `Array.prototype.sort` is modelled as a stable insertion sort. Stability holds because an inserted element goes before the first element whose key it does not exceed.
- Logging (`console.error`) and Express plumbing are not modelled. This includes JSON parsing, static files, the SPA fallback and `app.listen`.
- `frontend/src/pages/login.jsx` and `frontend/src/App.jsx` are not part of this model. They are fetch, `localStorage` and rendering glue.
- Rendering is not modelled: JSX, `window.alert` in `handleOpenDetails`, and the `onChange` handlers that only store a control's value.
  - The four control values are plain fields of `Dashboard.Board`.
- Dashboard.Board.AddApplication, Dashboard.Board.Delete and Dashboard.Board.Refresh require the component invariant.
  - The constructor establishes it and every handler keeps it, so every reachable state satisfies it.
  - React's asynchronous state batching is not modelled: each handler's updates take effect together.
