# Todoos core in Dafny

A model of the server side of Todoos, a multi-user to-do list. Users sign in through an identity provider. A free user may not create a todo once they own three. A subscription lifts that limit, and an admin console can grant or cancel subscriptions. The model covers the five pieces of real logic behind the HTTP route handlers:

- **Todo listing and creation** (`TodosRoute`). GET filters the caller's todos by a case-insensitive search term, orders them newest first and cuts out one 10-item page, with `totalPages = ceil(count / 10)`. POST refuses a fourth todo to an unsubscribed user.
- **Self-service subscription** (`SubscriptionRoute`). POST always grants a subscription that runs for one month. GET applies lazy expiry: a subscription whose end has passed is reset, and the reset is written back.
- **Admin facade** (`AdminRoute`). GET looks a user up by email and returns one page of that user's todos. PATCH grants a subscription and PUT cancels one; each is refused when the stored flag already says so. `isAdmin` is an async function whose Promise is never awaited. A Promise is always truthy, so the "Only Admin" branch can never run. The model keeps that branch and proves it dead (`AdminCheckNeverRejects`).
- **Webhook user sync** (`WebhookRoute`). The handler checks the secret, the three svix headers and the signature. On `user.created` it picks the primary email with a first-match search and inserts an unsubscribed user.
- **Routing redirects** (`Middleware`). This is a pure function from (who is signed in, the role lookup, the path) to an optional redirect target. The rules are tried in source order.

The database is one object, `Store.Store`. Its fields are `users` (a map keyed by the identity provider's user id) and `todos` (a sequence in insertion order). Each handler is a method on that object:

- A read-only handler (`GetTodos`, `AdminLookup`) has no `modifies` clause. Its `ensures` describe the reply.
- A handler that writes is proved equal to a transition function of its route module, of the shape `Db -> Outcome(reply, Db)`. Properties that span several requests are lemmas about those functions.
- Every method keeps `Records.Inv`. This invariant says:
  - each user is stored under its own id, and emails are unique;
  - `isSubscribed` holds exactly when an end date is stored;
  - todo ids are unique, and every todo's owner exists.

Things the code base leaves to other systems are inputs:

- the caller id from `auth()`;
- the role strings from the identity provider;
- the clock (`now`), and the instant one calendar month later (`monthLater`), which the handlers compute with `setMonth(getMonth() + 1)`;
- the id and creation time the database assigns to a new todo (`newId`, `now`);
- `WEBHOOK_SECRET`, the request headers and the body;
- svix signature verification, a function parameter of type `Verifier`.

JavaScript truthiness is modelled where the code depends on it. `userId`, `svixId`, `email` and `clientId` are falsy for both `null` and `""`, so the guards `!userId`, `!svixId`, `if (email)` and `if (clientId)` treat the two alike (`Records.Present`).

Where the code behaves differently from what its messages or a reader might expect, the model follows the code:

- POST /api/todos does not trim or validate the title.
- The admin grant and cancel refuse with status 401, not with a separate conflict code.
- Every authenticated caller passes the admin check.
- The webhook answers 500 on a duplicate user rather than deduplicating.

## Model

| member | source | states |
|---|---|---|
| `Records.OwnedBy` | app/api/todos/route.ts:54 | a user's todos are exactly the stored todos with that `userId`, each as often as it is stored, so its length is the quota count `user.todos.length` |
| `Seqs.Filter` | app/api/todos/route.ts:17-23 | a `where` filter keeps exactly the elements that satisfy it, each as many times as it occurs in the input, and nothing else |
| `Seqs.FilterConcat` | app/api/todos/route.ts:17-23 | filtering a concatenation gives the filtered parts in the same order, so the filter keeps the input's order |
| `TextSearch.HasInfixIff` | app/api/todos/route.ts:20 | the substring scan succeeds exactly when the needle occurs at some position |
| `TextSearch.ContainsInsensitive` | app/api/todos/route.ts:14-22 | an empty search term (the default) matches every title |
| `TextSearch.ContainsInsensitiveIff` | app/api/todos/route.ts:19-22 | a title matches exactly when the search term occurs in it at some position, letter case ignored |
| `TextSearch.BuyMilkExamples` | app/api/todos/route.ts:19-22 | "Buy Milk" is found by "milk", "MILK" and "y mi" |
| `TodosRoute.Matching` | app/api/todos/route.ts:17-23 | a todo is listed exactly when the caller owns it and its title contains the search term with case ignored, as often as it is stored, so its length is the `count` of line 30 |
| `TodosRoute.EmptySearchMatchesAllOwned` | app/api/todos/route.ts:14-23 | with no search term, the filter selects every todo the caller owns |
| `Ordering.SortNewestFirst` | app/api/todos/route.ts:24-26 | the result is in descending `createdAt` order and is a permutation of the input |
| `Ordering.NewestFirstPairwise` | app/api/todos/route.ts:24-26 | in a newest-first sequence every earlier todo is at least as new as every later one |
| `Pagination.PageOf` | app/api/todos/route.ts:27-28 | a page has at most 10 rows, and row k of page p is row (p-1)*10+k of the ordered result |
| `Pagination.TotalPages` | app/api/todos/route.ts:39 | the page count is the ceiling of count/10: enough pages for every row, with no page left empty |
| `Pagination.PageEmptyExactlyPastLast` | app/api/todos/route.ts:27-39 | pages 1..totalPages are non-empty; every later page is empty, not an error |
| `Pagination.PagesArePrefix` | app/api/todos/route.ts:27-28 | pages 1..k, concatenated, are the first k*10 rows |
| `Pagination.AllPagesGiveEverything` | app/api/todos/route.ts:27-39 | pages 1..totalPages, concatenated, are the whole ordered result |
| `TodosRoute.ListTodos` | app/api/todos/route.ts:16-40 | GET echoes `page` as `currentPage`, returns at most 10 todos, and reports `totalPages = ceil(n/10)` for the same filter |
| `TodosRoute.ListTodosOnlyMatchingNewestFirst` | app/api/todos/route.ts:16-29 | every listed todo belongs to the caller and matches the search, and the page is newest first |
| `TodosRoute.ListedPagesGiveAllMatches` | app/api/todos/route.ts:16-40 | requesting pages 1..totalPages yields every matching todo exactly once, newest first, given one order for equal `createdAt` across page requests |
| `Store.Store.GetTodos` | app/api/todos/route.ts:7-45 | no caller gives 401; a page below 1 gives 500 (the query rejects a negative `skip`); otherwise 200 with that listing; GET never modifies the store |
| `TodosRoute.Post` | app/api/todos/route.ts:47-69 | no caller or no user row gives 401 and no change; 403 exactly for an unsubscribed user with 3 or more todos; 201 adds exactly the new todo and changes nothing else; a subscribed user is never refused by count |
| `TodosRoute.PostAddsOneTodoToCaller` | app/api/todos/route.ts:61-63 | a successful POST gives the caller one more todo and every other user the same number |
| `TodosRoute.PostKeepsFreeUsersWithinQuota` | app/api/todos/route.ts:58-63 | a POST never takes an unsubscribed user past 3 todos |
| `TodosRoute.PostPreservesInv` | app/api/todos/route.ts:54-63 | POST keeps the store consistent: unique todo ids and existing owners |
| `Store.Store.PostTodo` | app/api/todos/route.ts:47-69 | the method's reply and new state are those of `Post`, and the invariant is kept |
| `SubscriptionRoute.SelfGrant` | app/api/subscription/route.ts:5-29 | no caller or no user row gives 401 and no change; otherwise the grant always overwrites, with no conflict check, only the caller's row changes, and the new end date is returned |
| `SubscriptionRoute.ReadStatus` | app/api/subscription/route.ts:30-59 | an end date strictly before now is reset and written back, and false/null is returned; otherwise the stored values are returned unchanged, including an end date equal to now |
| `SubscriptionRoute.ReadStatusPersistsWhatItReports` | app/api/subscription/route.ts:43-54 | after a GET the stored record says exactly what GET reported and is no longer pending cleanup |
| `SubscriptionRoute.ReadStatusIdempotent` | app/api/subscription/route.ts:43-54 | a second GET at the same instant returns the same answer and makes no further change |
| `SubscriptionRoute.ReadStatusStableOnceCleared` | app/api/subscription/route.ts:44-54 | once GET has reported no end date, a GET at any later time returns the same answer with no change |
| `SubscriptionRoute.ReadStatusReapsOnlyPending` | app/api/subscription/route.ts:44-52 | GET moves a pending-cleanup subscription to unsubscribed and leaves the active and unsubscribed phases alone |
| `SubscriptionRoute.GrantThenRead` | app/api/subscription/route.ts:16-54 | POST then GET at the same instant reports subscribed, ending a month later |
| `SubscriptionRoute.SelfGrantPreservesInv` | app/api/subscription/route.ts:18-23 | the grant keeps the store consistent (flag and end date set together) |
| `SubscriptionRoute.ReadStatusPreservesInv` | app/api/subscription/route.ts:45-51 | the lazy reset keeps the store consistent |
| `Store.Store.Subscribe` | app/api/subscription/route.ts:5-29 | the method's reply and new state are those of `SelfGrant` |
| `Store.Store.CheckSubscription` | app/api/subscription/route.ts:30-59 | the method's reply and new state are those of `ReadStatus` |
| `AdminRoute.IsAdmin` | app/api/admin/route.ts:7-10 | calling `isAdmin` yields a Promise that settles to "role is admin" |
| `AdminRoute.AdminCheckNeverRejects` | app/api/admin/route.ts:15-20 | the un-awaited guard never rejects, whatever the role; awaited, it would reject exactly the non-admins |
| `AdminRoute.AdminGrant` | app/api/admin/route.ts:50-90 | 401 with no change for no caller, an unknown user, or a raw flag already set; without `userId`, 200 with no updated user and no change; otherwise only that user's row becomes subscribed until a month later |
| `AdminRoute.AdminCancel` | app/api/admin/route.ts:92-130 | 401 with no change for no caller, an unknown user, or a raw flag not set; without `userId`, 200 with no change; otherwise only that user's row is cleared |
| `AdminRoute.AdminUpdatesIgnoreRole` | app/api/admin/route.ts:53-58 | PATCH and PUT answer the same whatever the caller's role |
| `AdminRoute.GrantThenCancelRestores` | app/api/admin/route.ts:72-123 | PATCH then PUT on an unsubscribed user gives back exactly the starting database |
| `AdminRoute.AdminGrantPreservesInv` | app/api/admin/route.ts:77-83 | PATCH keeps the store consistent |
| `AdminRoute.AdminCancelPreservesInv` | app/api/admin/route.ts:117-123 | PUT keeps the store consistent |
| `AdminRoute.TodosOfEmail` | app/api/admin/route.ts:38-40 | the admin count covers exactly the todos whose owner has that email, each as often as it is stored |
| `AdminRoute.TodosOfEmailAreOwned` | app/api/admin/route.ts:26-40 | with unique emails, the todos counted by email are exactly that user's todos |
| `AdminRoute.TodosOfUnusedEmail` | app/api/admin/route.ts:38-41 | an email nobody holds counts no todos |
| `AdminRoute.UserPage` | app/api/admin/route.ts:27-36 | the looked-up user comes with at most 10 of their own todos, newest first, starting at (page-1)*10 |
| `Store.Store.AdminLookup` | app/api/admin/route.ts:12-48 | no caller gives 401; no email gives 200 with no user and 0 pages; with an email, a page below 1 gives 500 (the query rejects a negative `skip`); otherwise the user with that email, if one exists, with one page of todos and `totalPages = ceil(their todo count/10)`; no change to the store |
| `Store.Store.AdminSubscribe` | app/api/admin/route.ts:50-90 | the method's reply and new state are those of `AdminGrant` |
| `Store.Store.AdminUnsubscribe` | app/api/admin/route.ts:92-130 | the method's reply and new state are those of `AdminCancel` |
| `WebhookRoute.FindPrimary` | app/api/webhook/register/route.ts:46-47 | returns the first address whose id is the primary id, or none when no address has it |
| `WebhookRoute.Receive` | app/api/webhook/register/route.ts:6-64 | a missing secret gives 500 before any other check; missing headers or a failed signature give 400; the only change is inserting one unsubscribed user for a verified `user.created` with a primary email and unused id and email |
| `WebhookRoute.ReceiveCreatesUser` | app/api/webhook/register/route.ts:51-57 | a verified `user.created` inserts exactly one user with the event's id and primary email, unsubscribed, and leaves the others untouched |
| `WebhookRoute.ReceiveIgnoresOtherEvents` | app/api/webhook/register/route.ts:42-64 | verified events of other types give 200 and change nothing |
| `WebhookRoute.ReceiveNeedsPrimaryEmail` | app/api/webhook/register/route.ts:46-50 | with no address matching the primary id, the reply is 400 and nothing is inserted |
| `WebhookRoute.ReceiveInsertConflict` | app/api/webhook/register/route.ts:51-61 | an insert that repeats an existing id or email gives 500 and no change |
| `WebhookRoute.ReceiveDuplicateDelivery` | app/api/webhook/register/route.ts:51-61 | delivering the same creation event twice fails the second time with 500 and no change |
| `WebhookRoute.ReceivePreservesInv` | app/api/webhook/register/route.ts:51-57 | the insert keeps ids and emails unique |
| `Store.Store.RegisterWebhook` | app/api/webhook/register/route.ts:6-64 | the method's reply and new state are those of `Receive` |
| `Middleware.PublicRoutesExactly` | middleware.ts:5 | the public routes are exactly `/`, `/api/webhook/register`, `/sign-in` and `/sign-up` |
| `Middleware.Redirect` | middleware.ts:7-34 | an anonymous request is redirected, always to `/sign-in`, exactly when the path is not public; for a signed-in user a failed role lookup redirects to `/error`; after a successful lookup an admin on `/dashboard` goes to `/admin/dashboard`, a non-admin under `/admin` to `/dashboard`, a public route to the dashboard of the role, and any other request passes through; never `/error` or `/sign-in` after a successful lookup |
| `Middleware.SignedInRulesExclusive` | middleware.ts:19-27 | no request matches two of the three signed-in rules |
| `Middleware.NoRedirectLoop` | middleware.ts:9-27 | after one redirect, the target is not redirected again when the role lookup succeeds |
| `Middleware.LandingByRole` | middleware.ts:9-27 | a signed-in user never lands on a public route, an admin never on `/dashboard`, a non-admin never under `/admin`; an anonymous user lands on `/sign-in` unless the path is public |
| `Scenarios.QuotaLiftedByAdminGrant` | app/api/todos/route.ts:58-62 | an unsubscribed user with 3 todos is refused; after an admin grant the same POST succeeds and the user owns 4 |
| `Scenarios.AdminGrantSeesUncorrectedFlag` | app/api/admin/route.ts:72-74 | PATCH uses the raw flag: an expired, uncorrected subscription is refused as already subscribed, though GET reports it inactive |
| `Scenarios.QuotaSeesUncorrectedFlag` | app/api/todos/route.ts:58-60 | the quota also uses the raw flag: an expired, uncorrected subscription still lets its user pass the quota, until a status read resets it |

## Left out

- `app/api/todos/[id]/route.ts` (update, rename and delete of one todo) is not part of this model. The operations modelled are those of the five core files.
- `lib/prisma.ts`, the process-wide database client: it is connection lifecycle with no logic. The store is the `Store` object instead.
- `auth()`, `clerkClient`, `headers()`, `req.json()` and `NextResponse` are library calls. Their results are inputs, and their effect is the status and payload of a `Reply`.
- Svix signature verification is cryptography inside an external library. It is the `Verifier` function parameter. `Some` means the event was verified; `None` means the library threw.
- Calendar arithmetic (`setMonth(getMonth() + 1)`) is the input `monthLater`. The only fact about it that the lemmas use is `now < monthLater`.
- Query-string parsing is not modelled. `new URLSearchParams(req.url)` parses the whole URL in the todos GET, and `parseInt` can yield NaN. `page` is an already-parsed integer. A page below 1 gives a negative `skip`, which the query rejects; the model answers it with the handler's 500. In the admin GET that happens only when an email is given, because only that query uses `skip`.
- Unicode case folding: insensitive matching is ASCII lower-casing.
- The order of todos created at the same instant is up to the database. The model keeps their store order.
- Concurrency is not modelled, so the race between a quota check and its insert is not captured. The model is sequential and states only the per-request guard.
- Database failures are modelled only where the cause can be named: a duplicate todo id, a duplicate user id or email, a negative `skip`. Connection errors and malformed request bodies are not modelled.
- The admin GET answers `user: undefined` when no email is given and `user: null` when no user has that email. The model gives `None` in both cases.
- Todo fields `completed` and `updatedAt` are not modelled; no core handler reads or writes them.
- Middleware plumbing is not modelled:
  - the `config.matcher` pattern;
  - `createRouteMatcher` patterns, which are treated as exact paths;
  - the side effects of `auth.protect()`, which may end the request before the `/sign-in` redirect on the next line;
  - console logging.
- TodosRoute.ListedPagesGiveAllMatches: the result assumes that todos with equal `createdAt` come in the same order in every page request. Each page is a separate `findMany`, and a database may order ties differently between queries with `skip`/`take`, so in the program a tie across a page boundary can repeat one todo and drop another. `AdminRoute.UserPage` makes the same assumption.
- ReadStatusStableOnceCleared: repeating a status read at a later time gives the same answer only when the first read left no end date. A subscription that is still active at the first read can expire before the second.
