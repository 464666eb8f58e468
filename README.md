# Biometric-gated to-do list: the authentication state machine and the list operations

This project models the two pieces of logic in a small mobile to-do app. The
app sits behind a biometric login.

- **The authentication service** (`AuthService` in `src/services/authService.ts`):
  - It keeps three in-memory fields: the failed-attempt counter, the lockout deadline and the cached session expiry.
  - It keeps three store entries: `secure_session`, `auth_state` and `biometric_state`.
  - The session lasts fifteen minutes and slides: it is re-armed every time its validity is checked.
  - Three penalised failures lock authentication for five minutes.
  - A missing or corrupt session record makes the check fail closed.
  - Logout resets the in-memory fields whatever the store does.
- **The to-do provider** (`src/contexts/TodoContext.tsx`):
  - Add, edit and delete compute a new list from the current one.
  - The store write happens first. The in-memory list is replaced only if that write succeeds.

## Layout

| file | module | contents |
|---|---|---|
| `wrappers.dfy` | `Wrappers` | `Option`, for the nullable numbers and strings |
| `js_string.dfy` | `JsString` | `String.prototype.trim`, with the code-point set of ECMA-262 sections 12.2 (WhiteSpace) and 12.3 (LineTerminator) |
| `types.dfy` | `Types` | the `Todo` record |
| `todo_storage.dfy` | `TodoStorage` | the `secure_todos` record seen as an abstract value: missing, unreadable, or a list |
| `todo_context.dfy` | `TodoContext` | the pure list transforms, their lemmas, and the `TodoProvider` class |
| `auth_service.dfy` | `Auth` | the specification functions on a `State` value, the lemmas about them, and the `AuthService` class |

## How the authentication service is modelled

- `State` holds the three fields and the three store entries.
- Each source operation has a specification function on `State`:
  - `isLockedOut`: `LockoutCheck`
  - `isSessionValid`: `SessionCheck`
  - `extendSession`: `ExtendedSession`
  - `createSession`: `SessionCreation`
  - `setAuthenticatedKey`: `AuthKeySet`
  - `handleFailedAttempt`: `FailedAttempt`
  - `logout`: `LoggedOut`
  - `authenticate`: `Authentication`
- The class `Auth.AuthService` has the same six fields. Each of its methods updates them step by step, following the source's branches. Each method's postcondition says that the answer and the new `Snapshot()` are those the matching function gives for `old(Snapshot())`.
- Properties of a single call are `ensures` clauses of the functions. Properties over several calls are lemmas.
- `Inv` is the counter invariant:
  - the counter stays within 0..3;
  - a lockout is set exactly when the counter is 3;
  - a set lockout is positive.
- Every public operation (`authenticate`, `isLockedOut`, `isSessionValid`, `logout`) preserves `Inv`. `Run` extends that to any sequence of those calls. The private steps do not preserve it on their own: `createSession` resets the counter without clearing a lockout, and `handleFailedAttempt` keeps `Inv` only from an unlocked state. `authenticate` calls them only after the lockout check has cleared any lockout.

### Inputs instead of effects

The model replaces the service's effects with inputs:
- **Clock.** `now` (milliseconds since the epoch, a `nat`) stands for `Date.now()`. `authenticate` has a second reading, `promptEnd`, taken after the prompt settles. `createSession` and `handleFailedAttempt` read the clock at that point.
- **Sensor check.** It is a `SensorQuery`: an answer (available, biometry type) or a throw.
- **Biometric prompt.** It is a `PromptResult`:
  - `Succeeded`;
  - `Failed(error)`, compared against `"User cancellation"` and `"User fallback"`;
  - `TimedOut`, for the lost 30-second race;
  - `PromptThrew`.
- **Store faults.** Every store call that throws during an operation is named in `failing: set<StoreCall>`. The call itself is recorded as `GetItem`, `SetItem` or `RemoveItem` with its key.
- **Persisted session.** It is a `SessionRecord`, so JSON parsing is never modelled:
  - `Absent`: no value, or the empty string;
  - `Corrupt`: text that does not parse;
  - `ParsesToNull`: the text `null`;
  - `Session(expiry, timestamp)`, where `expiry` may be missing.
- **Alerts.** Each alert is returned as a `Notice`; for the lockout alert that includes its wait in minutes.

### Points where the code decides

- **JavaScript truthiness is explicit.**
  - A `number | null` field counts as set only when it is present and non-zero (`Truthy`).
  - So a stored expiry of `0` is treated like a missing one.
- **A record that parses to `null` is not removed.**
  - `JSON.parse("null")` succeeds, and reading `.expiry` on the result then throws.
  - The outer handler returns false and leaves the record in place (`ParsesToNull`).
  - A record that does not parse at all is removed.
- **A session without an expiry fails the check and is removed.** This code always writes an expiry; a record without one is treated like an expired record and removed.
- **`isLockedOut` is not pure.** When a lockout has passed, it clears the lockout and resets the counter.
- **Session creation writes both keys through `Promise.all`.**
  - The `auth_state` marker is written even when the session write fails. Its write swallows its own error.
  - Only a successful session write caches the expiry and resets the counter.
  - Otherwise `authenticate` reports an unexpected error.
- **A valid stored session short-circuits `authenticate`.** It is re-armed, and the counter is left as it was.

## Model

| member | source | states |
|---|---|---|
| `JsString.Trim` | src/contexts/TodoContext.tsx:34 | the result is the slice of the input between its leading and trailing whitespace runs; nothing trimmable is left at either end; it is empty exactly when every code point of the input is whitespace |
| `JsString.TrimIdempotent` | src/contexts/TodoContext.tsx:38 | trimming an already trimmed text changes nothing |
| `TodoStorage.LoadTodos` | src/services/storageService.ts:14-30 | a missing record loads as the empty list; an unreadable one is a load error rather than an empty list; a stored list loads as itself |
| `TodoStorage.SaveTodos` | src/services/storageService.ts:35-42 | loading the record a save leaves gives back exactly the saved list (the empty list included) |
| `TodoContext.Added` | src/contexts/TodoContext.tsx:36-43 | the new list is one longer; its tail is exactly the old list; its head has the fresh id, the trimmed text and the creation instant as both dates |
| `TodoContext.Updated` | src/contexts/TodoContext.tsx:50-54 | length and order are kept; every position keeps its id and creation date; items with the id get the trimmed text and the new update date; all other items are unchanged |
| `TodoContext.Removed` | src/contexts/TodoContext.tsx:59 | the result is never longer; an item is in it exactly when it was in the list and its id differs |
| `TodoContext.RemovedConcat` | src/contexts/TodoContext.tsx:59 | deletion distributes over concatenation, so the kept items stay in their original order |
| `TodoContext.RemovedAbsent` | src/contexts/TodoContext.tsx:59 | deleting an id that no item carries leaves the list unchanged |
| `TodoContext.RemovedIdempotent` | src/contexts/TodoContext.tsx:58-60 | deleting the same id twice is the same as deleting it once |
| `TodoContext.AddedKeepsIdsDistinct` | src/contexts/TodoContext.tsx:37-43 | when the fresh id is absent from the list, adding keeps all ids pairwise distinct |
| `TodoContext.UpdatedKeepsIdsDistinct` | src/contexts/TodoContext.tsx:50-54 | editing keeps ids pairwise distinct |
| `TodoContext.RemovedKeepsIdsDistinct` | src/contexts/TodoContext.tsx:59 | deleting keeps ids pairwise distinct |
| `TodoContext.TodoProvider.constructor` | src/contexts/TodoContext.tsx:9-10 | a new provider starts with the empty list, the loading flag cleared, and the store as it is |
| `TodoContext.TodoProvider.LoadTodos` | src/contexts/TodoContext.tsx:16-26 | the list becomes the stored list; on a load error the current list is kept; loading ends cleared |
| `TodoContext.TodoProvider.SaveTodos` | src/contexts/TodoContext.tsx:28-31 | a failed write rejects and changes neither the list nor the store; a successful one leaves the list and the store holding the same new list |
| `TodoContext.TodoProvider.AddTodo` | src/contexts/TodoContext.tsx:33-45 | blank text resolves with no save and no change; otherwise the list becomes `Added` of the old list exactly when the save succeeds |
| `TodoContext.TodoProvider.UpdateTodo` | src/contexts/TodoContext.tsx:47-56 | blank text resolves with no save and no change; otherwise the list becomes `Updated` of the old list exactly when the save succeeds |
| `TodoContext.TodoProvider.DeleteTodo` | src/contexts/TodoContext.tsx:58-61 | the filtered list is always saved; the list becomes `Removed` of the old list exactly when the save succeeds |
| `Auth.CeilMinutes` | src/services/authService.ts:175 | `Math.ceil(ms / 60000)`: the least number of whole minutes that covers `ms` |
| `Auth.Initial` | src/services/authService.ts:21-23 | a freshly started service satisfies the counter invariant |
| `Auth.RemainingMinutes` | src/services/authService.ts:172-176 | positive exactly when an expiry is cached and not yet reached; then it is the expiry distance rounded up to whole minutes; it is 15 at the instant a session is created or extended |
| `Auth.AuthKeySet` | src/services/authService.ts:41-47 | a successful write makes `hasAuthenticatedBefore` true; a failing write is swallowed; nothing but `auth_state` changes |
| `Auth.ExtendedSession` | src/services/authService.ts:84-93 | a successful write stores and caches an expiry one timeout from now, so 15 minutes remain; a failing write changes nothing |
| `Auth.SessionCheck` | src/services/authService.ts:54-79 | yes exactly when the record can be read and is live now, and then the session is re-armed; on no, the cached expiry is kept, the record is kept or removed, and no live session is left behind; a missing record changes nothing; a corrupt or stale record is removed when the removal succeeds; counters and the other keys are untouched |
| `Auth.SessionCreation` | src/services/authService.ts:98-112 | succeeds exactly when the session write does, and then it stores and caches an expiry one timeout from now and resets the counter; the `auth_state` marker is written either way; the lockout and `biometric_state` are untouched |
| `Auth.LockoutCheck` | src/services/authService.ts:117-129 | yes exactly when a lockout is set and now is before it, and then nothing changes; a passed lockout is cleared with the counter reset to 0; no answer of no leaves a lockout set; it preserves the invariant |
| `Auth.FailedAttempt` | src/services/authService.ts:134-145 | the counter rises by exactly 1; a lockout of now + 300000 and the five-minute alert come exactly when the new count is at least 3; it preserves the invariant from an unlocked state |
| `Auth.LoggedOut` | src/services/authService.ts:152-167 | the counter, lockout and cached expiry are reset even when removals fail; each key is removed unless its own removal fails; afterwards no session time remains, and with `auth_state` removed `hasAuthenticatedBefore` is false |
| `Auth.Authentication` | src/services/authService.ts:249-316 | it preserves the invariant; it is refused as locked exactly when a lockout is in force, and then nothing changes; success carries no alert and leaves a live or freshly written session |
| `Auth.ValidSessionShortCircuits` | src/services/authService.ts:261-263 | once the lockout check says no, a session the check accepts makes the attempt succeed with no alert, with the state the session check leaves, whatever the sensor, prompt and prompt time |
| `Auth.FailedWriteAfterPrompt` | src/services/authService.ts:291-315 | after a successful prompt, a throwing `biometric_state` or session write returns false with the unexpected-error alert; the counter, lockout, cached expiry and session stay as the lockout and session checks left them |
| `Auth.TimeoutNotice` | src/services/authService.ts:265-315 | with no lockout and no valid session, a timeout gives the timeout alert; a throwing prompt or sensor check gives the unexpected-error alert; a missing sensor gives the set-up alert; each returns false and changes nothing further |
| `Auth.LockedOutAttempt` | src/services/authService.ts:251-258 | while locked out, the outcome is the refusal with `ceil((lockoutUntil - now) / 60000)` whatever the sensor, prompt or store would do, and the state is unchanged; that figure lies in 1..5 when the lockout was set no later than now |
| `Auth.UnpenalisedAttempt` | src/services/authService.ts:265-277 | a missing sensor, a thrown check, a timeout, a thrown prompt, `User cancellation` and `User fallback` leave counter and lockout as the lockout check left them; the attempt succeeds only through a valid session |
| `Auth.PenalisedAttempt` | src/services/authService.ts:296-301 | any other prompt failure, once the lockout and session checks say no, is exactly one failed attempt counted on the counter the lockout check left |
| `Auth.SuccessfulPrompt` | src/services/authService.ts:291-294 | with the writes succeeding, a successful prompt returns true; it marks `biometric_state` and `auth_state` as authenticated, stores a session from `promptEnd`, leaves 15 minutes remaining, resets the counter, and leaves no lockout |
| `Auth.ThreeFailuresLockOut` | src/services/authService.ts:134-145 | from a clear counter and no live session, three penalised failures lock the service; a fourth attempt before the lockout ends is refused with no other effect, with a wait of 1..5 minutes |
| `Auth.LockoutExpiryAllowsAttempt` | src/services/authService.ts:117-129 | after the lockout has passed, the next attempt is not refused, the counter restarts from 0, and that attempt cannot set a new lockout |
| `Auth.SessionSlides` | src/services/authService.ts:68-74 | after a successful check re-arms the session, a later check succeeds exactly when it comes less than 900000 ms after the first |
| `Auth.LogoutEndsSession` | src/services/authService.ts:152-167 | after a logout whose session removal succeeded, no session check succeeds and the remaining time is 0 |
| `Auth.Run` | src/services/authService.ts:21-23 | every state reached through any sequence of authenticate, lockout-check, session-check and logout calls keeps the invariant |
| `Auth.BiometricDisplayName` | src/services/authService.ts:227-242 | the name is "Face ID" or "Touch ID" exactly for an available sensor of that type on iOS, "Biometric Authentication" exactly for an available `Biometrics` sensor off iOS, and "Device Authentication" in every other case, a throwing check included |
| `Auth.AuthService.constructor` | src/services/authService.ts:21-23 | a new service has clear counters over the existing store entries and satisfies the invariant |
| `Auth.AuthService.HasAuthenticatedBefore` | src/services/authService.ts:28-36 | true exactly when the read of `auth_state` succeeds and finds the marker |
| `Auth.AuthService.SetAuthenticatedKey` | src/services/authService.ts:41-47 | leaves the state `AuthKeySet` prescribes |
| `Auth.AuthService.ExtendSession` | src/services/authService.ts:84-93 | leaves the state `ExtendedSession` prescribes |
| `Auth.AuthService.IsSessionValid` | src/services/authService.ts:54-79 | returns the answer and leaves the state `SessionCheck` prescribes |
| `Auth.AuthService.CreateSession` | src/services/authService.ts:98-112 | returns whether it succeeded and leaves the state `SessionCreation` prescribes |
| `Auth.AuthService.IsLockedOut` | src/services/authService.ts:117-129 | returns the answer and leaves the state `LockoutCheck` prescribes |
| `Auth.AuthService.HandleFailedAttempt` | src/services/authService.ts:134-145 | returns the alert and leaves the state `FailedAttempt` prescribes |
| `Auth.AuthService.Logout` | src/services/authService.ts:152-167 | leaves the state `LoggedOut` prescribes, which satisfies the invariant |
| `Auth.AuthService.Authenticate` | src/services/authService.ts:249-316 | returns the answer and alert and leaves the state `Authentication` prescribes; it preserves the invariant |

## Left out

- Rendering, styles, navigation and `Alert` dialogs: the screens are presentation only. An alert's content is modelled as the `Notice` that `authenticate` returns.
- The React context plumbing in `AuthContext.tsx` and `App.tsx` only forwards calls to the service. `AuthContext.tsx` is not part of this model.
- `openBiometricSettings` only opens system settings through `Linking` and `Platform`. Nothing in it is modelled.
- The 30-second timeout race is modelled as the `TimedOut` prompt result. The prompt that keeps running after losing the race has no effect on the model.
- The writes that the source issues in parallel through `Promise.all` are modelled as independent calls. Each one succeeds or fails on its own. Their interleaving is not modelled.
- One operation reads the clock once in the model (`now`), except `authenticate`, which also takes `promptEnd`. The source may read different milliseconds where the model uses one instant:
  - in `authenticate`, the readings in `isLockedOut` (authService.ts:120), in the wait figure (line 252) and in `isSessionValid` (line 68) are all `now`. If the lockout ended between the first two, the source would show a wait of 0 minutes; the 1..5 bound of `Auth.LockedOutAttempt` relies on them being one instant;
  - the two readings inside `extendSession` and inside `createSession`;
  - an item's two `new Date()` calls.
- A new item's id is a parameter. The source builds it from `Date.now()` and `Math.random()`, and nothing in the source makes it unique. The distinct-ids lemmas therefore take the fresh id's absence as a premise.
- JSON serialisation and parsing are abstracted into the `SessionRecord` and `TodoStorage.Record` variants. A stored `expiry` that is a non-integer number or not a number is not modelled.
- Dates are integers of milliseconds. Converting them to and from strings when storing to-dos is taken to round-trip exactly.
- `console.error` logging is not modelled.
- `Auth.AuthService.GetRemainingSessionTime` only reads `Auth.RemainingMinutes`, which carries its content.
- `Auth.IsBiometricSupported` and `Auth.IsBiometricEnrolled` (authService.ts:181-200) are one-line reads of the sensor answer. Nothing else in the service uses them, so they have no property beyond their definitions.
- The load on mount (TodoContext.tsx:12-14) is `TodoProvider.LoadTodos` called once after the constructor. React's effect scheduling is not modelled.
- `JsString.Trim` works on Unicode scalar values, while JavaScript strings are UTF-16 code units. No trimmable character is a surrogate, so both trim alike. A string holding a lone surrogate cannot be represented in the model.
- Concurrency between UI events: each operation is taken to run to completion before the next starts, as it does in the single-writer app.
