# AppStore and authentication controller of a fleet-rental CRM, in Dafny

This project models the browser-side core of a small car-rental CRM that keeps
its data in Supabase:

- `window.AppStore` (supabase.js). This is the process-wide local mirror of the
  signed-in user's cars, bookings and transactions (three ordered lists) and
  of their settings (a starting balance and two category lists).
- The authentication controller (auth.js). It validates the login and signup
  forms, applies the signup "already registered" heuristic, and changes the
  store on sign-in, sign-out and the page-load session check.

The backend is never called. Every reply that the JavaScript awaits is a
parameter of the operation, and every operation returns `calls`, the requests
it issued, in order. "The network is never called" therefore reads as
`calls == []`.

Files and modules:

- `remote.dfy` (`Remote`): the wire shapes. These are `Option`, the reply type
  `Remote<T>` (data or an error with a code and a message), rows, users,
  sessions and the `Request` log. It also holds the `PGRST116` "no row" code.
- `mirror.dfy` (`Mirror`): the list reconciliation rules as pure functions.
  `IndexOfId` is `findIndex` by id, `Reconcile` is replace-first-or-prepend
  after a save, and `RemoveId` is `filter` by id after a delete. The lemmas
  about them are here too.
- `store.dfy` (`Store`): the `AppStore` class. Its fields are `user`, `cars`,
  `bookings`, `transactions` (`seq<Row>`) and `settings`. Each load, save and
  delete method changes only the fields that the JavaScript assigns. The
  module also holds the upsert payload builders and `Load`, a pure
  specification of `loadUserData`.
- `auth.dfy` (`Auth`): `String.prototype.trim` and the UTF-16 `length`, the
  login and signup verdicts, and the methods `HandleSuccessfulAuth`, `Login`,
  `Signup`, `Logout` and `CheckAuth`, which act on an `AppStore`.

Small helpers stand for JavaScript idioms rather than for operations of their
own: `Store.Or` and `Store.OrEmpty` are `x || fallback` on a nullable value,
`Store.Get` is a property read that yields `undefined` for a missing key, and
`Auth.MessageOr` is `error.message || fallback`. What they do is stated by the
contracts of `Store.MergeSettings`, `Store.Load`, `Store.BookingPayload`,
`Auth.Login` and `Auth.Signup`.

Behaviour of the code that is easy to misread, and that the model keeps:

- `logout` clears the user and the three lists, but keeps `settings`
  (auth.js:134-137).
- A delete removes every entry with the id, so it removes exactly one entry
  only when ids are unique (`Mirror.RemoveIdUniqueShrinks`).
- `settings.categories || previous` keeps the previous list only for
  null/missing. An empty array is truthy in JavaScript, so it replaces the
  list (`Store.MergeSettings`).
- `checkAuth` answers `true` for a session even when the load fails. It
  answers `false` when the session's user is null, because
  `handleSuccessfulAuth` then throws at `user.email` and `checkAuth` catches
  the throw.

## Model

| member | source | states |
|---|---|---|
| `Mirror.IndexOfId` | supabase.js:110 | `findIndex` by id gives -1 exactly when no entry has the id; otherwise it gives the first position holding it |
| `Mirror.Reconcile` | supabase.js:110-115 | after a save, when the returned id is already present the list keeps its length, its first entry with that id becomes the returned row and every other position is unchanged; when the id is absent the list becomes the returned row followed by the old list |
| `Mirror.RemoveId` | supabase.js:135 | `filter` by id keeps exactly the entries whose id differs, and never grows the list |
| `Mirror.ReconcileReplacesFirst` | supabase.js:110-112 | saving an id already present replaces only its first occurrence; length and every other position are unchanged |
| `Mirror.ReconcilePrepends` | supabase.js:113-114 | saving an id not present gives `[row] + old`, one entry longer |
| `Mirror.ReconcileFindsRow` | supabase.js:110-115 | after a save, a lookup of the returned id finds the returned row |
| `Mirror.ReconcileIdempotent` | supabase.js:110-115 | reconciling the same returned row twice gives the same list as doing it once |
| `Mirror.ReconcileKeepsUnique` | supabase.js:110-115 | a list whose ids are unique keeps them unique through a save |
| `Mirror.RemoveIdAppend` | supabase.js:135 | the delete filter distributes over concatenation, so the survivors keep their relative order |
| `Mirror.RemoveIdAbsent` | supabase.js:135 | deleting an id that no entry has leaves the list unchanged |
| `Mirror.RemoveIdUniqueShrinks` | supabase.js:135 | with unique ids, deleting a present id removes exactly one entry |
| `Mirror.RemoveIdIdempotent` | supabase.js:135 | deleting the same id twice is the same as deleting it once |
| `Mirror.RemoveIdOverwrite` | supabase.js:112 | overwriting an entry in place with a row of the same id does not change what a delete of that id leaves |
| `Mirror.RemoveIdUndoesReconcile` | supabase.js:110-115 | deleting the id that a save returned leaves the same list as deleting it from the list before the save |
| `Store.LoadQueries` | supabase.js:28-62 | a load issues four queries, every one filtered by the owner's id: the three lists ordered newest first (`ascending: false`), then the single settings row |
| `Store.MergeSettings` | supabase.js:64-67 | a loaded settings row overwrites field by field: a null balance becomes 0 and a null list keeps the previous list; no row leaves the settings as they were |
| `Store.Load` | supabase.js:23-84 | the load succeeds exactly when all three list queries succeed and the settings reply is data or `PGRST116`. A failure stops the later queries, and lists already reassigned keep their new values (no rollback). The user is never changed |
| `Store.Payload` | supabase.js:92-99 | an upsert payload has the caller's fields with the store's stamped columns over them, and has no `id` key |
| `Store.CarPayload` | supabase.js:92-99 | the car payload has exactly the caller's keys minus `id` plus `user_id` and `updated_at`; `user_id` is the owner, `updated_at` the stamp, and the caller's other fields are unchanged |
| `Store.BookingPayload` | supabase.js:148-156 | the booking payload has exactly the caller's keys minus `id` plus `user_id`, `start_date`, `end_date` and `created_at`; it has the owner's `user_id`, copies both dates (`undefined` when absent) and adds a `created_at` stamp |
| `Store.TransactionPayload` | supabase.js:205-211 | the transaction payload has exactly the caller's keys minus `id` plus `user_id` and `created_at`, with the owner's `user_id`, a `created_at` stamp and the caller's other fields unchanged |
| `Store.AppStore.constructor` | supabase.js:11-20 | a fresh store has no user, three empty lists and the default settings |
| `Store.AppStore.LoadUserData` | supabase.js:23-85 | reassigns the lists one after another and the settings field by field, matching `Load` in state, result and queries issued |
| `Store.AppStore.SaveCar` | supabase.js:88-122 | with no user it fails before any request and leaves the list alone. Otherwise it sends the car payload. A backend error is rethrown with the list unchanged; on success the list is reconciled with the returned row, which is also returned |
| `Store.AppStore.DeleteCar` | supabase.js:125-141 | with no user it throws before any request. Otherwise it deletes by id and owner. An error leaves the list unchanged; success filters the id out and returns true |
| `Store.AppStore.SaveBooking` | supabase.js:144-179 | the same as `SaveCar`, for bookings and the booking payload |
| `Store.AppStore.DeleteBooking` | supabase.js:182-198 | the same as `DeleteCar`, for bookings |
| `Store.AppStore.SaveTransaction` | supabase.js:201-234 | the same as `SaveCar`, for transactions and the transaction payload |
| `Store.AppStore.SaveSettings` | supabase.js:237-260 | with no user it fails before any request. Otherwise it sends one settings upsert, keyed on `user_id`, carrying the owner and the current settings; it succeeds with `true` exactly when the backend does |
| `Auth.TrimStart` | auth.js:28 | drops exactly the leading trimmable characters |
| `Auth.TrimEnd` | auth.js:28 | drops exactly the trailing trimmable characters |
| `Auth.Trim` | auth.js:28 | the trimmed e-mail is the slice of the input between a blank prefix and a blank suffix; it is empty exactly when every character is ECMAScript whitespace or a line terminator, and otherwise starts and ends on a kept character |
| `Auth.TrimIdempotent` | auth.js:28 | trimming twice gives the same string as trimming once |
| `Auth.Utf16Length` | auth.js:72 | `password.length` is the number of characters plus the number of characters above U+FFFF (each of those takes a surrogate pair); hence between one and two units per character |
| `Auth.LoginVerdict` | auth.js:28-38 | login asks to fill in the fields exactly when the e-mail is blank or the password is empty. Otherwise it calls the backend with the trimmed e-mail and the untouched password, and never reports a short password |
| `Auth.SignupVerdict` | auth.js:60-76 | signup checks emptiness first. It then rejects a password of fewer than 6 UTF-16 code units, and calls the backend only with a long enough password |
| `Auth.SignupAcceptsOnlyLoginAccepted` | auth.js:34-37 | whatever signup sends to the backend, login would send too, with the same credentials |
| `Auth.AlreadyRegistered` | auth.js:91 | the signup reply means "already registered" exactly when it has a user whose `identities` list is present and empty; a missing user or a missing list does not count |
| `Auth.HandleSuccessfulAuth` | auth.js:108-126 | a null user throws before the store is touched. Otherwise the user is stored before the load, and the main app opens exactly when the load succeeded |
| `Auth.Login` | auth.js:27-56 | invalid fields show the fill-in error with no request and no store change. A sign-in error shows its message (or the fallback) with the store unchanged. A signed-in user goes through `HandleSuccessfulAuth`, and the dialog is dismissed. Whenever an error line is shown, its text is non-empty |
| `Auth.Signup` | auth.js:59-105 | the validation errors come first, with no request. The sign-up request carries the trimmed e-mail, the password and the page origin as the confirmation redirect. An exactly-empty `identities` list is reported as "already exists" and stores no user. Any other reply with a user goes through `HandleSuccessfulAuth`. Whenever an error line is shown, its text is non-empty |
| `Auth.Logout` | auth.js:129-155 | once sign-out returns (its error field ignored), the user and the three lists are cleared and the settings kept. If sign-out throws, the store is unchanged and an alert carries the message |
| `Auth.CheckAuth` | auth.js:4-24 | a session error or no session gives false with the store unchanged. A session with a user gives true whatever the load reports, with the store set as `Load` says |

## Left out

- The Supabase client (`from/select/eq/order/single/upsert/delete`, `auth.*`) is replaced by reply parameters and the `Request` log. Server-side upsert and `onConflict` resolution are not modelled.
- DOM and rendering (`loadMainApp`, `renderCars`, `hideAuthModal`, `innerHTML`, `classList`, `toLocaleString`) are left out. Of them, only the decisions whether the dialog is dismissed and whether the main app opens are kept.
- `alert` and `console.*` are left out. `loadUserData`'s failure alert is not modelled; the logout alert text is kept as the outcome.
- `new Date().toISOString()` is the `now` string parameter, and `window.location.origin` is the `origin` parameter of `Signup`.
- Asynchronous interleaving of concurrent saves, and the lost update it allows, are not modelled: each operation runs to completion.
- The `DOMContentLoaded` wiring and the client URL/key constants are not modelled.
- Field values are `Undefined | Null | Text | Number(int) | Flag`. Floating-point numbers and nested JSON are not modelled, and `starting_balance` is an integer or null.
- Rows always carry a string `id`. A stored entry without an `id` (which `===` would match against an `undefined` id) is not modelled.
- Strings are sequences of Unicode scalar values, so a lone UTF-16 surrogate in a form field cannot be represented.
- The TypeError text for a null user is V8's wording; other engines word it differently.
