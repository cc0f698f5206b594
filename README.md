# Barcode generator web app: a verified model of its state rules

The application lets a user type text and render it as a CODE128 barcode. A signed-in user's
barcodes are kept in the browser's `localStorage` from the generator screen. A dashboard lists,
previews, downloads and deletes the rows of a hosted `barcodes` table. A fixed PIN signs the user
in through a server action. This project models the decision and state-update rules of five
components, one Dafny module each, plus two shared modules:

- `JsText`: JavaScript's `String.prototype.trim` (with the exact ECMAScript whitespace set) and
  `slice(0, n)`.
- `Browser`: `localStorage` as a class over a key/value map with a ghost log of calls, the
  decoding of the `savedBarcodes` entry, the `authenticated` flag, and toasts.
- `BarcodeGenerator`: `generateBarcode` as a specification function `Generate`, whose meaning
  three lemmas state, plus the imperative method `Generator.GenerateBarcode` proved equal to it;
  the button predicate; the download guard.
- `BarcodeHistory`: the dashboard component as a class (`barcodes`, `selectedBarcode`,
  `isLoading`, `user`, the routes pushed and a ghost log of table queries), the `filter` used by
  delete, and the screen gating.
- `LoginActions`: `loginWithPin` as the decision function `Login` plus the imperative
  `LoginWithPin` over a cookie store; `logout`.
- `LoginPage`: PIN truncation, the submit predicate, and `handleLogin`, split at its `await`.
- `Navigation`: link highlighting, the sign-out/login control, and `handleSignOut`.

Every foreign call is an input:
- whether the barcode library has loaded, whether the canvas exists, whether the library throws;
- whether `setItem` or `removeItem` throws;
- the database answers (rows, `null`, or an error);
- whether the Supabase client or the cookie store throws;
- `Date.now()` and the ISO time;
- the current user or session.

A storage value is a `StoredValue`. A text that `JSON.parse` turns into an array of saved records
is held decoded (`RecordArray`); any other text is `Text`. So `getItem(k) || "[]"` reads an absent
key or the empty text as `[]`, and any other non-array text makes the parse or the `push` throw.
`Browser.Canonical` names the storage states held in this form: no text under `savedBarcodes`
opens a JSON array. Every write the generator makes keeps storage in that form.

Where the intended design and the code differ, the model follows the code:
- A failed local save still shows a toast titled "Erfolg"
  (`BarcodeGenerator.FailedSaveStillReportsSuccess`).
- The delete query filters by `id` alone. `History.DeleteBarcode` logs it as `DeleteById(id)`,
  with no owner.
- The generator saves to `localStorage`, not to the hosted table.
- On a profile-select error the login fails with a fixed text
  ("Datenbankfehler beim Überprüfen des Profils"), not the database's message.
- An auth change to "no session" empties the list but keeps the preview selection.
- On the home page the navigation bar and the generator mount together. Signing out from the bar
  does not update the generator's cached `isAuthenticated`, so the next generated barcode is
  saved again under `savedBarcodes` although the `authenticated` key is gone
  (`Navigation.StaleFlagSavesAfterSignOut`, `Navigation.SignOutThenGenerateOnHomePage`).

## Model

| member | source | states |
|---|---|---|
| JsText.TrimStart | components/barcode-generator.tsx:46 | the result is a suffix of the input, everything dropped is whitespace, and the result does not start with whitespace |
| JsText.TrimEnd | components/barcode-generator.tsx:46 | the result is a prefix of the input, everything dropped is whitespace, and the result does not end with whitespace |
| JsText.Trim | components/barcode-generator.tsx:46 | `trim()` returns a slice `s[a..b]` with only whitespace outside it, neither starting nor ending with whitespace |
| JsText.TrimEmptyIffAllWhitespace | components/barcode-generator.tsx:46 | `!data.trim()` holds exactly when every character is JavaScript whitespace (the empty string included); the generator's guard uses that whitespace test |
| JsText.Prefix | app/auth/login/page.tsx:61 | `slice(0, n)` has length min(n, \|s\|) and is a prefix of `s` |
| Browser.GetItem | components/navigation.tsx:17 | `getItem` gives a value exactly when the key is present, and then the stored one |
| Browser.AuthenticatedFlagExact | components/navigation.tsx:17-18 | the sign-in flag is true iff the stored text is exactly `"true"`; after removal of the key it is false |
| Browser.SavedRecords | components/barcode-generator.tsx:87 | an absent key and a stored empty text read as `[]`; the read fails iff the stored value is a non-empty text that is not an array; a stored array reads as itself |
| Browser.LocalStorage.Get | components/barcode-generator.tsx:87 | reading returns `getItem`'s value, changes no entry and logs the read |
| Browser.LocalStorage.Set | components/barcode-generator.tsx:95 | a write that does not throw stores the value under the key; a throwing write changes nothing; both are logged |
| Browser.LocalStorage.Remove | components/navigation.tsx:23-24 | a removal that does not throw leaves the key absent and every other entry unchanged; a throwing one changes nothing; both are logged |
| BarcodeGenerator.GenerateState | components/barcode-generator.tsx:45-124 | blank data or a missing library returns early with no render, no storage call and `isGenerating` untouched; past the guards `isGenerating` ends false; `data` is cleared iff the barcode was drawn |
| BarcodeGenerator.GenerateStorage | components/barcode-generator.tsx:85-112 | signed out, storage is never read or written; storage changes only by appending the new record to a readable list, and does so whenever signed in with a readable list and a write that succeeds |
| BarcodeGenerator.GenerateToast | components/barcode-generator.tsx:68-121 | every drawn barcode gets an "Erfolg" toast, even when the save failed; a missing canvas shows no toast |
| BarcodeGenerator.GenerateKeepsCanonical | components/barcode-generator.tsx:94-95 | what a generate writes under `savedBarcodes` is the decoded list, so storage in the decoded form stays in it |
| BarcodeGenerator.SaveAppendsOneRecord | components/barcode-generator.tsx:87-99 | a successful save grows the list by exactly one record at the end, with `data` untrimmed, format `"CODE128"`, `id` = `Date.now()`; earlier records are unchanged and in order; no other key changes |
| BarcodeGenerator.FailedSaveStillReportsSuccess | components/barcode-generator.tsx:101-106 | for storage in the decoded form, an unreadable list or a throwing write leaves storage as it was, yet the toast is "Erfolg" / "Barcode generiert! (Speichern fehlgeschlagen)" |
| BarcodeGenerator.RenderFailureKeepsData | components/barcode-generator.tsx:116-124 | a throwing render saves nothing, keeps `data`, resets `isGenerating` and shows the failure toast |
| BarcodeGenerator.GenerateEnabledMeaning | components/barcode-generator.tsx:180 | the button is enabled iff not generating and `data.trim()` is non-empty; pressing an enabled button never gets the empty-data error |
| BarcodeGenerator.Download | components/barcode-generator.tsx:127-155 | a PNG is offered iff a canvas exists and the export does not throw; the toast is destructive iff nothing was offered; no canvas gives the "Kein Barcode" toast |
| BarcodeGenerator.Generator.constructor | components/barcode-generator.tsx:40-43 | on mount the field is empty, nothing is generating, and `isAuthenticated` is the storage flag read once |
| BarcodeGenerator.Generator.OnDataChange | components/barcode-generator.tsx:172 | typing replaces `data` and nothing else |
| BarcodeGenerator.Generator.SaveRecord | components/barcode-generator.tsx:86-106 | the signed-in save reads the list and, when it parses, writes it back with the new record at the end; storage, toast and the call log are exactly `Save`'s |
| BarcodeGenerator.Generator.GenerateBarcode | components/barcode-generator.tsx:45-125 | the imperative `generateBarcode` leaves `data`, `isGenerating`, storage, the toast and the storage log exactly as `Generate` prescribes |
| BarcodeHistory.RowsOrEmpty | components/barcode-history.tsx:85 | `data \|\| []`: returned rows are kept, `null` becomes `[]` |
| BarcodeHistory.WithoutId | components/barcode-history.tsx:180 | the filter keeps exactly the records whose id differs and drops all with that id; the result is no longer than the list |
| BarcodeHistory.WithoutIdCounts | components/barcode-history.tsx:180 | every record whose id differs is kept exactly as often as it occurred; none with that id remains |
| BarcodeHistory.WithoutIdAppend | components/barcode-history.tsx:180 | filtering distributes over concatenation, so kept records stay in their original order |
| BarcodeHistory.WithoutIdUntouched | components/barcode-history.tsx:180 | a list with no record of that id is returned unchanged |
| BarcodeHistory.WithoutIdIdempotent | components/barcode-history.tsx:180 | filtering the same id twice is the same as once |
| BarcodeHistory.WithoutIdNewestFirst | components/barcode-history.tsx:81 | if the store's rows are newest first (`created_at` descending), they still are after a delete |
| BarcodeHistory.View | components/barcode-history.tsx:208-228 | the sign-in prompt shows iff there is no user; the list shows iff there is a user and loading is over, with the list and the selection as preview |
| BarcodeHistory.Download | components/barcode-history.tsx:134-172 | an image is offered iff the library has loaded and the render does not throw, and it is the row's data and format; otherwise an error toast |
| BarcodeHistory.History.constructor | components/barcode-history.tsx:20-23 | initially the list is empty, loading is on, nothing is selected and there is no user |
| BarcodeHistory.History.LoadBarcodes | components/barcode-history.tsx:74-96 | a successful query sets `barcodes` to the rows (or `[]` for `null`); a failure keeps the list and shows the error toast; `isLoading` ends false; one select filtered by the user id is sent |
| BarcodeHistory.History.Mount | components/barcode-history.tsx:43-57 | with no user, the route `/auth/login` is pushed and nothing is loaded; with a user, that user's rows are loaded, the list screen shows, and the failure toast appears iff the load failed |
| BarcodeHistory.History.OnAuthStateChange | components/barcode-history.tsx:59-69 | a session loads its user's rows, with the failure toast iff the load failed; no session sets `barcodes` to `[]` and pushes `/auth/login`; `user` follows the session; the selection is kept |
| BarcodeHistory.History.ViewBarcode | components/barcode-history.tsx:98-108 | if the library has not loaded, the selection is unchanged and an error toast shows; otherwise the selection becomes the chosen row |
| BarcodeHistory.History.DeleteBarcode | components/barcode-history.tsx:174-196 | one delete filtered by id alone is sent; on success `barcodes` becomes the filtered list, and the selection is cleared iff it had that id; on failure both are unchanged; newest-first order is kept |
| LoginActions.SessionCookie | app/auth/login/actions.ts:56-62 | the cookie is `authenticated="true"`, httpOnly, `sameSite` lax, secure in production, `maxAge` 604800 seconds |
| LoginActions.Login | app/auth/login/actions.ts:7-70 | a PIN other than `"0000"` fails with "Ungültige PIN", with no query and no cookie; the cookie is set iff the result is success; the queries are the select then at most one insert, and the insert happens iff the select returned `null` or no rows; a select error fails with the fixed profile-check text; an insert error fails with "Datenbankfehler: " + its message; every failure message is non-empty |
| LoginActions.ThrowsGiveGenericMessage | app/auth/login/actions.ts:66-69 | a throw at any step the action reaches gives the generic "Ein unerwarteter Fehler ist aufgetreten." |
| LoginActions.ValidPinSucceeds | app/auth/login/actions.ts:29-65 | the right PIN with working queries logs in and sets the cookie, inserting a profile only if none existed |
| LoginActions.LoginWithPin | app/auth/login/actions.ts:7-70 | the imperative action returns `Login`'s result and query sequence, and sets the session cookie exactly when `Login` says so |
| LoginActions.Logout | app/auth/login/actions.ts:72-76 | the `authenticated` cookie is deleted, other cookies are kept, and the redirect goes to `/auth/login` |
| LoginPage.PinValue | app/auth/login/page.tsx:61 | after any input the PIN has at most 4 characters and is the first ones typed; shorter input is kept whole |
| LoginPage.SubmitEnabledAfterInput | app/auth/login/page.tsx:66 | with nothing loading, submit is enabled after an input iff at least 4 characters were typed, that is, iff the PIN has exactly 4 |
| LoginPage.ShownError | app/auth/login/page.tsx:29 | `result.error \|\| default` is never empty; it is the action's error whenever that is non-empty, and "Ein Fehler ist aufgetreten." when it is empty |
| LoginPage.Conclude | app/auth/login/page.tsx:24-33 | only success navigates, to `/dashboard`, with no error; a failure shows its (defaulted) error; a throwing call shows the generic retry text |
| LoginPage.PageShowsActionError | app/auth/login/page.tsx:24-30 | for any outcome of the real action, the page shows the action's own message (never the fallback); a wrong PIN shows "Ungültige PIN"; reaching the dashboard implies the PIN was `"0000"` |
| LoginPage.Page.constructor | app/auth/login/page.tsx:13-15 | the form starts with an empty PIN, no error and loading off |
| LoginPage.Page.OnPinChange | app/auth/login/page.tsx:61 | the PIN becomes the truncated input; error and loading are untouched |
| LoginPage.Page.BeginLogin | app/auth/login/page.tsx:20-21 | before the awaited call, loading is on, the error is cleared, and the current PIN is sent |
| LoginPage.Page.FinishLogin | app/auth/login/page.tsx:23-36 | after the call, the error and the route are those `Conclude` gives, and loading is off |
| LoginPage.Page.HandleLogin | app/auth/login/page.tsx:18-37 | the whole handler ends with loading off and the error exactly `Conclude`'s (none on success) |
| Navigation.ActiveLinks | components/navigation.tsx:51-57 | at most one link is highlighted; a path below `/dashboard` highlights neither |
| Navigation.Control | components/navigation.tsx:64-73 | the sign-out button shows iff authenticated, otherwise the login link shows |
| Navigation.SignOutForgetsSession | components/navigation.tsx:23-24 | after the two removals the flag reads false, the saved list reads empty, and every other key is unchanged |
| Navigation.GenerateAfterSignOutLeavesStorage | components/barcode-generator.tsx:85 | a generator mounted after sign-out never reads or writes storage |
| Navigation.Nav.constructor | components/navigation.tsx:16-19 | on mount `isAuthenticated` is the storage flag |
| Navigation.StaleFlagSavesAfterSignOut | components/barcode-generator.tsx:85 | a generator that read the flag as true before a sign-out still saves: storage gets a `savedBarcodes` list of just the new record and the "gespeichert" toast, while the flag reads false |
| Navigation.SignOutThenGenerateOnHomePage | components/navigation.tsx:21-31 | the bar and the generator mounted on one signed-in storage; after sign-out and a drawn barcode, the flag reads false yet the saved list is the new record |
| Navigation.Nav.HandleSignOut | components/navigation.tsx:21-39 | both removals succeeding remove exactly the keys `authenticated` and `savedBarcodes`, set `isAuthenticated` false and push `/`; a throw from the first removal changes nothing, one from the second leaves `authenticated` removed; either throw keeps the flag and route and shows the failure toast |

## Left out

- JsBarcode symbol encoding, canvas drawing, `clearRect`, `toDataURL`, the CDN script tag and
  its removal are foreign library and DOM code. The render is a "throws or not" input, and the
  download a "PNG offered or not" outcome.
- The delayed preview render in `viewBarcode` and its failure toast are left out. That code runs
  in a `setTimeout` callback after the selection is set (components/barcode-history.tsx:110-131).
- Download file names contain `Date.now()` and a link click, and are not modelled.
- JSON text encoding is abstracted by `StoredValue`. Its decoded form holds only arrays of
  saved-barcode records. An array with other elements can only be held as text; the next line
  says how that text reads.
- BarcodeGenerator.Generate: a `savedBarcodes` value stored as text that opens a JSON array
  (`Text("[]")`, say), rather than in the decoded form, reads as unreadable. The model then keeps
  storage unchanged where the source would parse the text and append to it. Storage in the
  decoded form (`Browser.Canonical`) avoids this, and `FailedSaveStillReportsSuccess` requires it.
- A `getItem` that throws during a save is not a separate case. It ends like an unreadable list:
  storage unchanged, "Erfolg" toast.
- Supabase internals are not modelled: the query builder, row-level security, `auth.getUser` and
  the subscription timing of `onAuthStateChange`. Their results are inputs. The user filter and
  the newest-first order are the store's promises; `NewestFirst` states the order and delete is
  proved to keep it, but load does not require it.
- Cookie-store semantics are not modelled (expiry, `secure`/`httpOnly` enforcement); only the
  cookie's value and attributes are set or deleted.
- middleware.ts, app/auth/error/page.tsx, app/page.tsx and app/dashboard/page.tsx are layout or
  framework configuration. The gate is in `lib/supabase/middleware`, which is not part of this
  model.
- Not modelled: `formatDate` (locale formatting), `console.log`, toasts beyond their text, and
  router internals. A navigation is recorded as the pushed route string.
- Async interleaving is not modelled: double clicks, and races between the auth listener and a
  load. The model is sequential. `isGenerating` is true only inside one call. The history's
  `isLoading` starts true and stays true until the first load. A mount with no user and an
  auth change to no session leave it true. `handleLogin` alone is split at its `await`.
- LoginPage.PinValue: counts Unicode scalar values, whereas JavaScript's `slice` and `length`
  count UTF-16 code units. The two differ only for characters outside the Basic Multilingual
  Plane.
