# Vacation tracker: the in-memory core

A model of the vacation-request tracker with its file I/O, HTTP plumbing and
React rendering removed. What is left works on one document `{users, vacations}`:

- `Types`: a user (email, role `manager` or `employee`), a vacation request (id,
  employee email, start and end date, status `pending`/`approved`/`rejected`,
  request time), and the document.
- `UserRoute`: `GET /api/user`, the first user whose email is exactly the query, or `null`.
- `VacationsRoute`: `GET /api/vacations`, a filter chosen by the `role` parameter alone;
  and the class `JsonStore`, the persisted document, whose `Post` appends a request
  as given and whose `Put` overwrites the status of the first request with a given
  id or answers 404. A counter `writes` stands for the writes of the whole file.
- `Dashboard`: the page. It covers the choice between the sign-in prompt and the two
  dashboards, the request the employee form builds, the pending/processed split, and
  the classes `EmployeeDashboard` and `ManagerDashboard`. These hold the component
  state that the page's handlers replace.
- `Seqs`: the `filter` every listing uses, with its order and partition lemmas.

Query parameters are `Option<string>`, because `searchParams.get` gives `null` for a
missing one. A strict comparison with `null` never matches, so a missing `email`
finds no user, and an employee listing without an email is empty. Ids, dates and timestamps are opaque strings.

Where the code differs from what one would expect of a vacation tracker, the model follows the code:

- The listing reads `role` and never `status`. With any role other than `employee` or
  `manager`, or with none, it returns `[]`. Both dashboards fetch the listing without a
  role, so both always load an empty list (`Dashboard.DashboardFetchesListNothing`).
  This includes the manager's `?status=pending` fetch.
- No `history` is kept by the PUT handler, and the employee form always files a request
  under `current_user@example.com`, whoever is signed in.

## Model

| member | source | states |
|---|---|---|
| `Seqs.Filter` | app/api/vacations/route.ts:18 | the kept elements are exactly those of the input that pass the test; nothing else is added |
| `UserRoute.FindUser` | app/api/user/route.ts:13-15 | a found user has the query as email and no earlier user has it; `null` exactly when no user's email equals the query, so a missing query gives `null` and never an error |
| `UserRoute.FindUserIsFirst` | app/api/user/route.ts:13 | when user k is the first with the email, the lookup returns user k |
| `UserRoute.Get` | app/api/user/route.ts:5-16 | the route only reads the document; its answer is one of the document's users with the queried email; it is `null` exactly when no user has that email, so always for a missing query |
| `VacationsRoute.ListVacations` | app/api/vacations/route.ts:6-25 | never longer than the store; with role `employee` the result holds exactly the store's vacations whose employee email equals the query; with role `manager` it is the whole sequence; with any other role or none it is empty |
| `VacationsRoute.EmployeeListingKeepsOrder` | app/api/vacations/route.ts:16-18 | the employee listing keeps store order: listing two parts of a store, one after the other, gives the listing of the whole |
| `VacationsRoute.EmployeeSeesAllOwnVacations` | app/api/vacations/route.ts:16-18 | when every stored vacation belongs to the queried email, the employee listing is the whole sequence, in order |
| `VacationsRoute.FindIndex` | app/api/vacations/route.ts:54 | -1 exactly when no vacation has the id; otherwise the first index holding the id |
| `VacationsRoute.StatusUpdated` | app/api/vacations/route.ts:54-57 | same length; every other field of every record unchanged; the status set only at the first index with the id, whatever it was before; later records with that id untouched; no change when the id is absent |
| `VacationsRoute.StatusUpdatedKeepsIndex` | app/api/vacations/route.ts:54-57 | an update leaves the index that a later lookup of the same id finds unchanged |
| `VacationsRoute.LastUpdateWins` | app/api/vacations/route.ts:57 | two updates of one id leave the document as the second alone would: the overwrite is unguarded |
| `VacationsRoute.UpdateIdempotent` | app/api/vacations/route.ts:57 | repeating the same update leaves the document as one update does |
| `VacationsRoute.JsonStore.constructor` | app/api/vacations/route.ts:11-13 | the store holds the loaded document and nothing has been written yet |
| `VacationsRoute.JsonStore.Save` | app/api/vacations/route.ts:37 | each save is one more write of the file |
| `VacationsRoute.JsonStore.Get` | app/api/vacations/route.ts:6-25 | answers the listing of the current document and modifies nothing, so it never writes |
| `VacationsRoute.JsonStore.Post` | app/api/vacations/route.ts:27-44 | the vacations become the old ones followed by the body, with no check made; the users are unchanged; one write; the reply is the body itself |
| `VacationsRoute.JsonStore.Put` | app/api/vacations/route.ts:46-68 | the vacations become `StatusUpdated` of the old ones and the users are unchanged. With the id present: one write, and the reply is the updated record at the first matching index. With the id absent: no change, no write, and the 404 reply "Vacation not found" |
| `Dashboard.SignedInUser` | app/page.tsx:15-21 | a missing or empty email parameter leaves the user `null`; a user found is one of the document's users and carries that email |
| `Dashboard.ChooseView` | app/page.tsx:23-41 | sign-in prompt exactly when there is no user; employee dashboard exactly for role `employee`; manager dashboard for any other role |
| `Dashboard.SignInPromptIffUnknown` | app/page.tsx:15-32 | the sign-in prompt shows exactly when the email parameter is missing or empty, or no user has that email |
| `Dashboard.ViewFollowsFirstMatch` | app/page.tsx:37-41 | for a known email the view follows the role of the first user with that email |
| `Dashboard.NewRequest` | app/page.tsx:89-96 | a new request is `pending` and filed under `current_user@example.com`; its id, dates and time are the given ones |
| `Dashboard.RequestNotListedForOthers` | app/page.tsx:91 | once stored, a new request does not appear in the listing of a signed-in employee whose email is not the placeholder |
| `Dashboard.PendingOf` | app/page.tsx:146 | exactly the pending vacations of the list |
| `Dashboard.ProcessedOf` | app/page.tsx:147 | exactly the vacations of the list that are not pending |
| `Dashboard.TabsPartitionList` | app/page.tsx:146-147 | the two tabs partition the list: lengths add up to its length, and together they hold each vacation as often as the list does |
| `Dashboard.TabsKeepOrder` | app/page.tsx:146-147 | both tabs keep list order |
| `Dashboard.SubmittedRequestIsPendingFirst` | app/page.tsx:121 | after a submit the new request heads the pending tab and the processed tab is unchanged |
| `Dashboard.WithoutId` | app/page.tsx:405 | exactly the entries whose id is not the actioned one, and no longer than the list |
| `Dashboard.RemovalKeepsOrder` | app/page.tsx:405 | the removal keeps list order |
| `Dashboard.RemovingAbsentIdKeepsList` | app/page.tsx:405 | acting on an id not in the list leaves the list unchanged |
| `Dashboard.DashboardFetchesListNothing` | app/page.tsx:365 | the listing without a role, as both dashboards fetch it (the employee's at app/page.tsx:69, the manager's at app/page.tsx:365), is empty for every document |
| `Dashboard.EmployeeDashboard.constructor` | app/page.tsx:56-62 | the list starts empty, both form dates empty, no error |
| `Dashboard.EmployeeDashboard.Load` | app/page.tsx:65-83 | a successful fetch replaces the list; a failed one sets the error "Failed to fetch vacations" and keeps the list |
| `Dashboard.EmployeeDashboard.EditStartDate` | app/page.tsx:168 | only the start date of the form changes |
| `Dashboard.EmployeeDashboard.EditEndDate` | app/page.tsx:181 | only the end date of the form changes |
| `Dashboard.EmployeeDashboard.SubmitVacation` | app/page.tsx:85-129 | requires both form dates filled in, as the `required` date inputs ensure. The request sent is built from the form. On success the list becomes that request followed by the old list, and both form dates are reset to empty. On failure the list and form are unchanged and the error is the failure message |
| `Dashboard.ManagerDashboard.constructor` | app/page.tsx:357-359 | the pending list starts empty, with no error |
| `Dashboard.ManagerDashboard.Load` | app/page.tsx:361-379 | a successful fetch replaces the pending list; a failed one sets the error "Failed to fetch pending vacations" |
| `Dashboard.ManagerDashboard.Act` | app/page.tsx:381-410 | on success the pending list keeps exactly the entries with another id, in order; on failure only the error is set |

## Left out

- Reading and writing `app/db.json`: the file system, the path and the working directory. The document is a value or the fields of `JsonStore`, and a write is the `writes` counter.
- JSON parsing and printing, including bodies that are not valid vacations. A role or status outside the enumerations of `types.ts` is not representable.
- The 500 replies of POST and PUT from their shared `catch`: a request body that is not JSON (app/api/vacations/route.ts:29, 48), a file that cannot be read or parsed, and a failed write after the in-memory update (app/api/vacations/route.ts:37, 59). GET's uncaught failure on an unreadable file is left out too.
- The lost update between two concurrent load/save cycles. It is a concurrency effect, and the code has no locking to model.
- Dashboard.EmployeeDashboard.SubmitVacation: each submit is modelled as one atomic step on the current list. The page instead prepends to the list it captured at its last render, before awaiting the reply. Two overlapping submits therefore end as `[r2, ...L]` on the page, losing `r1` from the list although the server stored it; the model gives `[r2, r1, ...L]`.
- Dashboard.ManagerDashboard.Act: each action is modelled as one atomic step on the current pending list. The page filters the list captured at its last render, so of two overlapping actions the later reply restores the entry the earlier one removed; the model removes both.
- Once `error` is set, a dashboard shows only the error, so no further submit or action starts there; the classes do not gate their methods on `error`.
- Logging: the `console.error` calls in the route handlers' `catch` blocks (app/api/vacations/route.ts:41, 65) and in the page's handlers (app/page.tsx:126, 407).
- HTTP: `NextResponse`, the `fetch` calls of the page, and `lib/db.ts`. The page's responses are parameters (`Reply`, `Outcome`).
- The error text the page extracts from a failed response, which depends on `JSON.parse`. It reaches the model as the message of `Outcome.Failed`. A network exception thrown during a dashboard load is not modelled either.
- `crypto.randomUUID()` and `new Date().toISOString()`. The id and the request time are parameters of `NewRequest` and `SubmitVacation`.
- Rendering, styling, `Suspense`, the loading flags and the active tab. The tab contents are `PendingOf` and `ProcessedOf`.
- The approve/reject value of a manager action. It only goes into the PATCH request, so it does not affect the page state.
- The PATCH handler of `app/api/vacations/[id]/route.ts` and its `history` entries are not part of this model.
- The sign-in page, `app/signin/page.tsx`: form state and navigation only.
