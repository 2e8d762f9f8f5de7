# DamageTrack request handlers, modelled in Dafny

DamageTrack lets citizens file damage reports (a photo, an address, a
category and an urgency) and lets administrators browse them. This project
models the logic of its Express router `routes.js` over an abstract store:

- **Report intake** (`POST /report`): the upload checks, the urgency table,
  at-most-once placement of the image under `public/images/<name>`,
  find-or-create of the Location (by the whole address) and of the Category
  (by name), and the insert of a `Pending` report with no likes. Failures of
  the file system or the store are an input (`failAt`, the first step that
  fails); nothing is rolled back.
- **Admin listing** (`GET /admin`): page and page-size defaults, page count,
  skip offset, the urgency/status filter and the page window, in store order,
  with references expanded.
- **Session gate**: login binds an identity once per session, logout clears
  it, the sign-in page is shown only to unnamed sessions, the home page lists
  the reports of the bound id, and signup appends a user.

Layout:

- `entities.dfy` (module `Entities`): the records, handler outcomes, and the
  store's `findOne` (`FindFirst`), `find` (`Where`) and `populate` (`Populate`).
- `intake.dfy` (module `Intake`): the submission as a function `Submit` from
  the store before to the store after and the answer, with its invariants
  (one Location per address, one Category per name, no dangling reference).
- `admin.dfy` (module `Admin`): the listing as a function `ListReports`.
- `gate.dfy` (module `Gate`): login, logout, sign page, home page.
- `server.dfy` (module `Server`): classes `Store` and `Session` whose fields
  the handlers update step by step; each handler method is proved to compute
  exactly the function that specifies it.

Documents are identified by their position in their collection (all
collections are append-only here), so a Report's `location`, `category` and
`user` are positions.

Behaviours of `routes.js` a reader might not expect:

- The page count divides the number of ALL reports, not of the filtered ones
  (`countDocuments()` has no filter); `Admin.PageCountIgnoresFilter` shows a
  filtered listing announcing pages that are empty.
- A request with no files object at all makes the destructuring of
  `req.files` throw, which the handler's `catch` answers with a 500, not a 400.
- An empty `urgency` or `status` query value is falsy and adds no predicate,
  like an absent one or `"all"`.
- `parseInt` may give a negative page or size, which `|| default` keeps. A
  negative skip offset is refused by the document store (a 500); a negative
  size is read by the store's driver as its absolute value.
- An urgency index outside `0..2` is stored as no urgency rather than rejected.

## Model

| member | source | states |
|---|---|---|
| `Entities.FindFirst` | routes.js:109 | `findOne` gives the first document in store order that matches, or None exactly when none matches |
| `Entities.FindFirstAppend` | routes.js:39-42 | documents appended later never change an existing first match; otherwise the first match among the new ones, shifted |
| `Entities.Where` | routes.js:164 | `find` selects a document iff it is stored and passes the predicate, and never more documents than stored |
| `Entities.WhereAppend` | routes.js:164-169 | selection keeps store order: selecting over a grown store is the old selection followed by the new one |
| `Entities.Populate` | routes.js:164-169 | expanding references leaves every stored report unchanged and in order, resolves each present Location and Category, and expands a dangling reference to nothing |
| `Intake.UrgencyOf` | routes.js:84-85 | index 0, 1, 2 give Low, Medium, High; every other index gives undefined (None) |
| `Intake.IndexOf` | routes.js:109 | the found position holds a document equal to the key; None exactly when no document equals it |
| `Intake.FindOrCreate` | routes.js:109-120 | the collection gains at most the key, nothing when it is present; the returned position holds the key; failure exactly when the lookup fails or the needed save fails, and a failure adds nothing |
| `Intake.FindOrCreateIdempotent` | routes.js:109-113 | resolving the same key twice finds what the first call returned and adds nothing |
| `Intake.Submit` | routes.js:79-141 | 400 exactly for a missing image or a non-image MIME type, with nothing written; 500 for no files object, and for an accepted upload a failing step gives a 500 exactly when that step runs (the image write only when nothing is at the path, a save only when its lookup found nothing); no overwrite of an existing image; at most one Location and one Category added, none when present; on success exactly one report, Pending, no likes, the session's user, the uploaded name, the mapped urgency, and references to the resolved Location and Category |
| `Intake.SubmitPreservesValid` | routes.js:108-135 | whatever step fails, a submission keeps one Location per address, one Category per name and no dangling report reference |
| `Intake.ResubmitReusesEntities` | routes.js:108-120 | two accepted submissions with the same address and category create at most one Location and one Category, and both reports reference the same ones |
| `Intake.FirstImageWriteWins` | routes.js:99-106 | a second upload under the same file name leaves the first content on disk |
| `Intake.FailedStepKeepsEarlierWrites` | routes.js:99-139 | when a step that runs fails, the answer is a 500, no report is added, whatever the steps before it wrote remains, and nothing after it is written |
| `Intake.OutOfRangeUrgencyIsStored` | routes.js:84-85 | an urgency index of 3 is accepted and the report is stored without an urgency |
| `Intake.FirstPotholeReport` | routes.js:79-137 | on an empty store a High-urgency pothole report creates exactly one Location, one Category, one Pending report and the image file |
| `Admin.OrDefault` | routes.js:147-148 | NaN and 0 fall back to the default; any other parsed number is kept; the result is never 0 |
| `Admin.CeilDiv` | routes.js:150 | the page count is the least integer whose pages cover the count (with the bounds flipped for a negative size) |
| `Admin.Window` | routes.js:167-168 | skip then limit: empty past the end, else as many items as the limit and the rest allow (all the rest for a limit of 0, which the store reads as no limit), each the item at skip plus its position |
| `Admin.ListReports` | routes.js:145-175 | 500 exactly when the count or find query fails or the skip offset is negative; otherwise the current page is the defaulted page, the page count is over all reports, the page is the filtered reports from the skip offset in store order, filled as far as the size and the selection allow, each with its Location and Category looked up |
| `Admin.SelectedExactly` | routes.js:153-162 | a report is listed iff it meets each added predicate; an absent, empty or "all" parameter constrains nothing |
| `Admin.SelectedAppend` | routes.js:164 | filtering keeps store order across a grown store |
| `Admin.PageOfPosition` | routes.js:147-151 | with a positive size, the selected report at position i is on page i / size + 1 at position i % size |
| `Admin.SeventhReportAloneOnThirdPage` | routes.js:147-169 | seven reports with the default size give three pages, the third holding only the seventh report |
| `Admin.PageCountIgnoresFilter` | routes.js:149-150 | filtering seven reports down to one still announces three pages, and page two is empty |
| `Gate.Login` | routes.js:38-58 | no matching user: session unchanged and redirect to /sign; a named session is never rebound; a fresh session gets the marker name and the first user, in store order, with these credentials |
| `Gate.Logout` | routes.js:28-36 | an unnamed session is unchanged; a named one is cleared; always a redirect home |
| `Gate.SignPageFor` | routes.js:16-26 | the sign-in page is shown iff the session has no name, otherwise a redirect home |
| `Gate.Home` | routes.js:7-14 | the home page lists exactly the stored reports whose owner equals the session's id, each once and in store order, with its Location and Category looked up, under the session's name |
| `Gate.GateKeepsValid` | routes.js:28-58 | login and logout keep a session named exactly when it carries an id |
| `Gate.SecondLoginKeepsFirstBinding` | routes.js:49-56 | after a successful login a second login, with any credentials, changes nothing |
| `Gate.LoginLogoutRoundTrip` | routes.js:28-58 | login then logout returns a fresh session to anonymous, and a second logout changes nothing |
| `Gate.SignupThenLogin` | routes.js:60-72 | without a duplicate check, a signup with credentials already on record is never the user a login with those credentials binds (the earlier one is); fresh credentials bind the new user |
| `Server.Session.Login` | routes.js:38-58 | the session fields and the answer after login are those `Gate.Login` gives |
| `Server.Session.Logout` | routes.js:28-36 | the session fields and the answer after logout are those `Gate.Logout` gives |
| `Server.Session.Sign` | routes.js:16-26 | answers as `Gate.SignPageFor` on the current session |
| `Server.Session.Home` | routes.js:7-14 | answers as `Gate.Home` on the current session and store |
| `Server.Store.FindOrCreateLocation` | routes.js:109-113 | the Location collection and the returned position are those `Intake.FindOrCreate` gives; only that collection changes |
| `Server.Store.FindOrCreateCategory` | routes.js:116-120 | the Category collection and the returned position are those `Intake.FindOrCreate` gives; only that collection changes |
| `Server.Store.SubmitReport` | routes.js:79-141 | the store and answer after the handler are those `Intake.Submit` gives, and the store invariants hold afterwards |
| `Server.Store.SignUp` | routes.js:60-73 | exactly the given user is appended, unconditionally; nothing else changes; redirect home |
| `Server.Store.ListAdmin` | routes.js:145-175 | answers as `Admin.ListReports` on the current store and the given store failure |

## Left out

- Express routing, template rendering and `GET /report` (it only renders the form): presentation; handler answers are the `Outcome` datatype.
- The document store's engine: `findOne`, `find`, `populate`, `countDocuments`, `save` are modelled by their observable effect on in-memory sequences; a failing `save` is assumed to write nothing.
- Concurrency: each handler is one atomic step, so the race between `findOne` and `save` across simultaneous requests, which can duplicate a Location or Category, is not modelled.
- The file system is a map from path to content; `fs.access` failing for reasons other than absence is treated as absence.
- `parseInt` string parsing: page and size arrive as an optional integer (None for NaN); the urgency index arrives as an integer, so string keys such as `"01"` are not modelled.
- Form fields are strings; absent fields and the schema's type casting (the schema file is not part of this model) are not modelled.
- Error message texts, logging and the session `destroy` callback.
- The failure of `save` in signup and of `find` in login and on the home page: those handlers have no `catch`, so the failure is an unhandled rejection with no answer.
- The home page's query with no bound id is modelled as selecting reports stored without a user, the reading of `{user: undefined}` as a match on a missing field.
- Credential handling (plain-text passwords): a security matter, not logic.
- Admin.ListReports: page, size, skip offset and page count are unbounded integers; JavaScript number arithmetic (exact only up to 2^53, then rounding) is not modelled for them.
