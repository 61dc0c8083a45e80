# gym-assistant client core, modelled in Dafny

gym-assistant is an Ionic/Vue workout app that keeps its data in a hosted
document store and its accounts in a hosted identity provider. Its logic
sits in four client-side pieces, each modelled here:

- **The collection client** (`useFirebase(collectionName)`). It holds a
  local mirror (`documents`, `document`, `loading`, `error`) over one
  collection, and works as follows:
  - It turns `QueryOptions` into an ordered constraint list: the
    where-filters in order, then the sort key, then the limit.
  - It normalises stored timestamps to dates (`convertTimestamp`).
  - It reads, creates, updates and deletes documents. A failure gives a
    fixed sentinel result: `[]`, `null` or `false`.
  - It receives pushes from live subscriptions.

  Modules: `FirestoreTypes`, `Timestamps`, `QueryConstraints`,
  `EqualityQuery` and `UseFirebase`. The remote store is the class
  `UseFirebase.DocumentStore`, a map from collection to id to record. The
  client is the class `UseFirebase.CollectionClient`.
- **The authentication session** (`useAuth`). One process-wide session
  (`currentUser`, `loading`, `error`, `authInitialized`) is fed by a
  provider listener that is attached at most once. Four operations share
  one loading/error discipline. `handleAuthError` is a fixed table from
  error codes to messages. Modules: `AuthErrors` and `UseAuth`; the session
  is the class `UseAuth.AuthSession`.
- **The rest timer** (`useTimer`). A countdown in whole seconds computed
  from a millisecond target time: a ceiling division by 1000, clamped at 0.
  Module `UseTimer`, class `UseTimer.RestTimer`.
- **The navigation guard** (`src/router/index.ts`). This is the route table
  with its `requiresAuth`/`requiresGuest` flags, plus the three-way
  decision `handleNavigation` that `beforeEach` takes once the session is
  initialised. Module `Router`.

Every awaited provider call is one atomic step, and its outcome is an
argument of the method that makes it:
- `fault: Option<string>` for the store's one-shot calls;
- `Outcome` for the identity provider;
- a `provider` function from query target to response for `getAll`.

The id that `addDoc` generates is an argument (`newId`), an id the
collection does not hold yet. Each clock reading is an argument in integer
milliseconds: `now` for `Date.now()` and a single `new Date()`, and
`created`/`updated` for the two `new Date()` calls that `create` makes. Listener
callbacks are methods that the environment calls. Stored values are
scalars: null, boolean, integer, string, timestamp and date.

## Model

| member | source | states |
|---|---|---|
| `Timestamps.ConvertValue` | src/composables/useFirebase.ts:38-40 | a timestamp value becomes the date at the same instant; any other value is returned unchanged; the result is never a timestamp |
| `Timestamps.Normalized` | src/composables/useFirebase.ts:35-43 | the converted record has exactly the input's keys; every timestamp-valued field, whatever its name, becomes the date at the same instant; every other field is unchanged; no timestamp remains |
| `Timestamps.ConvertTimestamp` | src/composables/useFirebase.ts:35-43 | the copy-then-convert loop over the keys returns exactly `Normalized(data)` |
| `Timestamps.NormalizedIdempotent` | src/composables/useFirebase.ts:35-43 | converting twice gives the same record as converting once |
| `Timestamps.StoredRoundTrip` | src/composables/useFirebase.ts:130-136 | a record written with dates (stored as timestamps) and read back through the conversion equals the converted original, so dates survive a write and a read |
| `Timestamps.DocumentRecord` | src/composables/useFirebase.ts:74-77 | `{ id, ...convertTimestamp(data) }` has the data's keys plus `id`; `id` is the document id unless the stored data has its own `id` field, which wins; every other field is converted |
| `Timestamps.DocumentRecords` | src/composables/useFirebase.ts:74-77 | the mapped list has one record per snapshot, in order, each the snapshot's `DocumentRecord` |
| `QueryConstraints.BuildConstraints` | src/composables/useFirebase.ts:54-69 | no options give no constraints. Otherwise the list has one entry per filter, plus one for a sort key, plus one for a truthy limit; the sort key sits right after the filters and the limit is last |
| `QueryConstraints.AssembleConstraints` | src/composables/useFirebase.ts:54-69 | the loop pushing where-filters, then the sort key, then a truthy limit builds exactly `BuildConstraints(options)`; `getAll` and `subscribe` both call it, so identical options give identical lists |
| `QueryConstraints.Target` | src/composables/useFirebase.ts:71 | the bare collection is queried exactly when the constraint list is empty; otherwise the query carries the list |
| `QueryConstraints.BuiltShape` | src/composables/useFirebase.ts:57-61 | the built list starts with one where-constraint per filter, each with the filter's field, operator and value, in the order supplied |
| `QueryConstraints.WhereConstraintsShape` | src/composables/useFirebase.ts:57-61 | one where-constraint per filter, in the order supplied; a well-shaped tail stays well shaped and reads back with the filters in front |
| `QueryConstraints.BuildDecompose` | src/composables/useFirebase.ts:54-69 | every built list is filters, then at most one sort key, then at most one non-zero limit, and reads back to the options with a zero limit dropped |
| `QueryConstraints.DecomposeBuild` | src/composables/useFirebase.ts:54-69 | every list of that shape is the list built from the options it reads back to |
| `QueryConstraints.SameConstraintsIffSameCanonical` | src/composables/useFirebase.ts:54-69 | two option values build the same list if and only if they agree once a zero limit is dropped (and absent options count as empty ones) |
| `QueryConstraints.CanonicalBuild` | src/composables/useFirebase.ts:67-69 | dropping a zero limit does not change the list: `limit: 0` is falsy and adds no constraint |
| `QueryConstraints.BareCollectionIff` | src/composables/useFirebase.ts:54-71 | the bare collection is queried if and only if the options have no filter, no sort key and no non-zero limit |
| `EqualityQuery.Matching` | src/composables/useFirebase.ts:71-72 | the stand-in evaluator keeps exactly the snapshots meeting every equality filter, never more than it was given |
| `EqualityQuery.SatisfiesBuilt` | src/composables/useFirebase.ts:57-61 | a record meets the built list exactly when it meets every where-clause of the options |
| `EqualityQuery.LimitOfBuilt` | src/composables/useFirebase.ts:67-69 | the built list's limit is the options' limit |
| `EqualityQuery.EqualityQueryResult` | src/composables/useFirebase.ts:48-80 | for equality filters, `getAll` returns K records for K matching documents, or min(n, K) with `limit: n`; each returned record is the record of a fixture document that meets every filter; without a limit the record of every matching document is among them; every returned record holds the filter values, normalised, in the filtered fields (a filter on `id` included) |
| `UseFirebase.CreatePayload` | src/composables/useFirebase.ts:130-134 | the payload is the caller's fields plus `createdAt` and `updatedAt`, the first and the second clock reading, overriding caller-supplied values |
| `UseFirebase.UpdatePayload` | src/composables/useFirebase.ts:157-160 | the payload is only the given fields plus `updatedAt` |
| `UseFirebase.Merge` | src/composables/useFirebase.ts:162 | a field-merging write: given fields replace stored ones, the others stay |
| `UseFirebase.CollectionClient.constructor` | src/composables/useFirebase.ts:26-30 | empty list mirror, no document, not loading, no error, no subscriptions |
| `UseFirebase.CollectionClient.SnapshotRecord` | src/composables/useFirebase.ts:102-105 | the record built from a snapshot is its `DocumentRecord` |
| `UseFirebase.CollectionClient.GetAll` | src/composables/useFirebase.ts:48-88 | the query target comes from the assembled constraints. On success the mirror becomes the returned records and `error` is cleared. On failure `[]` is returned, the message is recorded and the mirror is kept. `loading` is false on exit either way |
| `UseFirebase.CollectionClient.GetById` | src/composables/useFirebase.ts:93-119 | the three outcomes: found (the record is returned and mirrored); absent (`null`, 'Document not found', mirror kept); failure (`null`, the message, mirror kept); never loading on exit |
| `UseFirebase.CollectionClient.Create` | src/composables/useFirebase.ts:124-146 | on success the store gains the new, previously unused id holding the stamped payload, every existing document is kept unchanged, and the id is returned; on failure `null`, the message, and the store unchanged; the mirrors are never touched |
| `UseFirebase.CollectionClient.Update` | src/composables/useFirebase.ts:151-172 | returns true exactly when there is no fault and the document exists, and then merges the payload into it; otherwise false, the error recorded and the store unchanged; mirrors untouched |
| `UseFirebase.CollectionClient.Remove` | src/composables/useFirebase.ts:177-193 | returns true exactly when there is no fault, and then the document is gone; otherwise false with the message and the store unchanged; mirrors untouched |
| `UseFirebase.CollectionClient.Subscribe` | src/composables/useFirebase.ts:198-236 | registers a live query over the same target `getAll` would read, under a fresh handle; nothing else changes |
| `UseFirebase.CollectionClient.SubscribeToDocument` | src/composables/useFirebase.ts:241-265 | registers a live single-document subscription under a fresh handle |
| `UseFirebase.CollectionClient.Unsubscribe` | src/composables/useFirebase.ts:235 | the handle's subscription ends; the others stay |
| `UseFirebase.CollectionClient.OnQuerySnapshot` | src/composables/useFirebase.ts:220-228 | a push replaces the list mirror wholesale with the mapped records, and the callback, if any, receives that same list |
| `UseFirebase.CollectionClient.OnDocumentSnapshot` | src/composables/useFirebase.ts:245-257 | a push sets the single mirror to the mapped record, or to null when the document does not exist, and the callback, if any, receives that same value |
| `UseFirebase.CollectionClient.OnSubscriptionError` | src/composables/useFirebase.ts:229-232 | an error push records the message and touches neither `loading` nor the mirrors |
| `UseFirebase.CreateThenRead` | src/composables/useFirebase.ts:99-105 | a document written by `create` and read back has every given field, normalised; `createdAt` and `updatedAt` are the two creation-time readings; and the document's id |
| `UseFirebase.UpdateThenRead` | src/composables/useFirebase.ts:157-162 | after `update`, the given fields read back with their new values and the other stored fields unchanged; `updatedAt` is the update time, later than a stored stamp taken earlier |
| `AuthErrors.HandleAuthError` | src/composables/useAuth.ts:176-216 | the code is `err.code` or 'unknown'; each of the nine listed codes takes its fixed message; any other code takes the provider's message or, failing that, the default; the message is never empty |
| `AuthErrors.KnownMessagesTable` | src/composables/useAuth.ts:178-206 | no listed message is the default, and 'unknown' is not a listed code |
| `UseAuth.IsAuthenticated` | src/composables/useAuth.ts:56 | signed in exactly when the current user is not null |
| `UseAuth.ToAuthUser` | src/composables/useAuth.ts:35-41 | uid and verification flag copied; `email || ''`; an empty or absent display name or photo URL becomes absent, a non-empty one is kept |
| `UseAuth.AuthSession.constructor` | src/composables/useAuth.ts:20-26 | initial state: no user, loading, no error, not initialised, no listener |
| `UseAuth.AuthSession.InitializeAuthListener` | src/composables/useAuth.ts:28-48 | afterwards exactly one listener is attached; a second call attaches nothing |
| `UseAuth.AuthSession.UseAuth` | src/composables/useAuth.ts:50-56 | however many times the store is used, the listener is attached exactly once |
| `UseAuth.AuthSession.OnAuthStateChanged` | src/composables/useAuth.ts:33-47 | the callback maps the account to `currentUser` (absence to null), so `isAuthenticated` holds exactly when an account was delivered; loading ends and the session becomes initialised for good |
| `UseAuth.AuthSession.Settle` | src/composables/useAuth.ts:77-84 | success exactly when nothing failed; on failure the classified error is returned and its message recorded; loading ends |
| `UseAuth.AuthSession.Signup` | src/composables/useAuth.ts:61-85 | creates the account, then sets the display name only when account creation succeeded and the name is non-empty. Success exactly when every step made succeeded; a failure records and returns the classified error. `currentUser` is never assigned |
| `UseAuth.AuthSession.Login` | src/composables/useAuth.ts:90-107 | one sign-in call; success exactly when it succeeds, otherwise the classified error is returned and recorded; loading ends; `currentUser` is never assigned |
| `UseAuth.AuthSession.Logout` | src/composables/useAuth.ts:112-126 | one sign-out call with the same contract; the user is cleared only later, by the listener |
| `UseAuth.AuthSession.ResetPassword` | src/composables/useAuth.ts:131-147 | one reset-mail call with the same contract |
| `UseAuth.AuthSession.ClearError` | src/composables/useAuth.ts:152-154 | the error is cleared; a second call changes nothing more |
| `UseTimer.CeilSeconds` | src/composables/useTimer.ts:20 | the result is the ceiling of ms/1000: the least whole number of seconds covering the milliseconds |
| `UseTimer.RemainingSeconds` | src/composables/useTimer.ts:19-21 | the countdown is never negative; it is zero exactly when the target time has come; before that it counts the started seconds left |
| `UseTimer.RemainingAtMostTotal` | src/composables/useTimer.ts:58-62 | at the start the countdown shows the full duration and never more afterwards |
| `UseTimer.RemainingSecondsMonotone` | src/composables/useTimer.ts:19-21 | the countdown never goes up as time passes |
| `UseTimer.RestTimer.constructor` | src/composables/useTimer.ts:5-9 | all zero, not running, no target |
| `UseTimer.RestTimer.StopTimer` | src/composables/useTimer.ts:70-78 | not running, no target, no interval, countdown 0, total kept; stopping a stopped timer changes nothing |
| `UseTimer.RestTimer.StartTimer` | src/composables/useTimer.ts:52-68 | a no-op while running; otherwise total and countdown are `seconds` and the target is `now + seconds*1000`; the timer is running with its interval scheduled |
| `UseTimer.RestTimer.UpdateTimer` | src/composables/useTimer.ts:16-50 | with no (truthy) target nothing changes. Otherwise the countdown is the clamped ceiling, never negative, and for a time at or after the start never above the total. Once the target is reached the timer stops and the completion notice is due. Running holds exactly when a target is set |
| `Router.HandleNavigation` | src/router/index.ts:85-98 | redirect to '/login' exactly when some matched record needs a user and there is none; redirect to '/tabs/workouts' exactly when some matched record is guest-only and there is a user; no other redirect target |
| `Router.HandleNavigationCases` | src/router/index.ts:85-98 | the guard proceeds exactly when neither redirect applies; a signed-out user is never sent to the workouts tab, a signed-in one never to the login page |
| `Router.BeforeEach` | src/router/index.ts:66-83 | a decision is taken exactly when the session is initialised, and it is the guard's decision for the session's user |
| `Router.TabsMatched` | src/router/index.ts:6-58 | a path under 'tabs', in any letter case, can only be matched through the tabs parent record |
| `Router.WorkoutsTabMatched` | src/router/index.ts:23-35 | '/tabs/workouts' matches the tabs parent and its workouts child |
| `Router.TabsPathsProtected` | src/router/index.ts:23-45 | whatever a path under 'tabs' resolves to, the protected parent is among the matched records, so the route needs a signed-in user |
| `Router.RootResolves` | src/router/index.ts:7-10 | '/' resolves through its redirect to the tabs parent and the workouts child |
| `Router.GuestPages` | src/router/index.ts:11-22 | '/login' and '/signup', in any letter case, resolve to guest-only records that are not protected |
| `Router.UpperCaseLogin` | src/router/index.ts:11-16 | '/LOGIN' resolves to the guest-only login record: matching ignores letter case |
| `Router.DetailPagesProtected` | src/router/index.ts:46-57 | '/exercises/:id' and '/workouts/:id' resolve, for any non-empty id, to protected records that are not guest-only |
| `Router.SignedOutTabsToLogin` | src/router/index.ts:23-27 | once initialised, the guard sends a signed-out visitor of any tab to '/login' |
| `Router.SignedInGuestPagesToWorkouts` | src/router/index.ts:11-22 | once initialised, the guard sends a signed-in visitor of '/login' or '/signup' to '/tabs/workouts' |

## Left out

- The document store and identity provider SDKs are out: query and
  document reads, writes, listeners, account creation, profile update,
  sign-in, sign-out and reset mail. Each call is one atomic step whose
  outcome is an argument. Their network behaviour, retries and exact error
  wording are not modelled. `NoDocumentToUpdate` stands for the provider's
  refusal to update a missing document.
- Server-side query evaluation is out. The constraint list is proved
  exactly, but what the server returns for it is the `provider` argument.
  `EqualityQuery` is an in-memory stand-in restricted to `==` filters and
  a positive limit: no ordering and no other operators. Its results are
  stated under that assumption only.
- Field values are scalars only. Arrays, nested maps, floating-point
  numbers, document references and dotted field paths in `update` are not
  modelled. Timestamps and dates are integer milliseconds, with no
  sub-millisecond part.
- `Stored` converts dates to timestamps at the top level only. Nested
  values are out, as above.
- JavaScript object key order is not modelled (records are maps).
- Vue reactivity (`ref`, `computed`) is out; refs are plain fields and
  `isAuthenticated` is a predicate over `currentUser`.
- Concurrent, interleaved operations are out. Each operation is atomic,
  so the race between overlapping `getAll` calls on the mirror is not
  modelled.
- Console logging is out.
- In the timer, the completion toast is the `finished` result of
  `UpdateTimer`, and `setInterval`/`clearInterval` is the flag
  `intervalActive`.
- The guard's `setTimeout` polling, which waits for the session to
  initialise, is out. `BeforeEach` takes no decision before then.
- Unsubscribe functions are opaque handles.
- UseFirebase.CollectionClient.OnSubscriptionError: the source only
  records the message. The model also ends the listener, because the
  provider delivers nothing more on a listener after its error callback.
  Later pushes to that handle therefore have no effect in the model.
- Router.TabsMatched: route matching is a first-match, depth-first
  simplification of vue-router's ranked matcher. Segments are split on '/'
  and trailing slashes are ignored. Segments are compared ignoring letter
  case, as vue-router does by default, but only ASCII letters are folded;
  case folding of other characters is not modelled. A redirect is followed one level deep,
  which is enough for this table. Named routes and lazy components are not
  modelled.
- The creation and update stamps are the client's `new Date()` readings
  (arguments), as the code does. They are not server-assigned times.
- The static exercise and template tables (`src/data/exercises.ts`,
  `src/data/templates.ts`) are data with no behaviour, and are not part of
  this model. Nor is the build configuration (`vite.config.ts`).
- Negative or non-integer `limit` values, which the SDK rejects, are not
  distinguished. `limit: 0` adds no constraint, as in the source.
