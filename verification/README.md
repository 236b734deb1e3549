# SuhoBackoffice frontend: validation, session and search logic in Dafny

This project models the parts of the SuhoBackoffice back-office frontend that make decisions rather than draw screens:

- **The server actions.** These cover login, signup, new project, material inbound, and the straight-rail and branch-rail quantity updates. Each action has:
  - field rules, as zod 3 (the schema library the actions use) applies them: type test, then every declared check, then the object refinement if no field aborted. The default texts `Required` and `Expected X, received Y` are zod 3's;
  - the flattened field errors;
  - one result record per outcome: validation failure, backend answer, `ApiError`, or any other exception.

  The backend is a function argument returning an `Outcome`. Each action reports the request it sent (`sent`), so "the backend is not called on invalid input" is stated as `sent.None?`.
- **The material inbound row-error loop.** A `forEach` over the validation issues fills a sparse per-row, per-field table in place. It is modelled as a `while` loop (`CollectRowErrors`), proved equal to a fold (`Aggregate`), and the fold is characterised by lemmas: the last write wins, untouched rows are holes, and the table ends at the last row named.
- **The auth session.** This covers:
  - the store's fields and setters (class `AuthStore.Store`, tied to the pure transitions of `AuthModel`);
  - persistence (`partialize`) and rehydration;
  - the sync hook (class `SyncAuth.SyncAuthHook`);
  - the two page gates (`AuthGuard`, `withAuth`).

  `AuthFlow` replays every store update issued in the modelled files: rehydration, the sync hook, and the login and logout dialogs. Within those files nothing clears `isSyncing`, so under these updates alone a page behind `AuthGuard` stays on its loading screen. `setIsSyncing` is part of the store's interface and may be called from code outside this model, so this is a statement about the modelled files, not a claim that the application is defective.
- **The project list page.** This covers:
  - the initial search parameters;
  - the filter that drops unset and empty parameters;
  - the handlers, as methods of class `ProjectSearch.ProjectPage` that update `searchParams`, `projectData` and `isLoading`;
  - the pagination arithmetic.

Every fixed message is a constructor of `Messages.Message`; its exact wording is in `Message.Text()`. Text chosen by the backend is `Server(text)`.

## Model

| member | source | states |
|---|---|---|
| Js.BlankIsZero | lib/action/project.action.ts:14 | a blank string coerces to the number 0, so an empty `versionId` or quantity reaches the minimum check as 0 |
| Js.DigitsAreInteger | lib/action/material.action.ts:11 | a non-empty digit string coerces to the integer it spells (exactly; see the rounding line under "Left out"), which passes the integer test |
| Js.Utf16LengthOfBmp | lib/action/user.action.ts:12-15 | for text without astral characters (ASCII, Hangul) the length the limits measure is the character count |
| Schema.NonEmptyString | lib/action/auth.action.ts:6-7 | a missing value aborts the field; a present one passes exactly when it is non-empty, and keeps its value |
| Schema.Flatten | lib/action/auth.action.ts:34 | the field-error map holds exactly the fields that have messages, each with its messages; it is empty iff no field has one |
| AuthAction.LoginErrorsIff | lib/action/auth.action.ts:5-8 | no field error iff both `loginId` and `password` are non-empty; each failing field is reported under its own key |
| AuthAction.LoginAction | lib/action/auth.action.ts:23-68 | `postLogin` is called iff the input is valid, with exactly the two fields. Invalid input gives the recheck message, the errors and the raw input, with success false. A returned call gives success, the response message, no errors and both fields reset to `''`. A throw gives the ApiError message or the connection fallback, with the raw input echoed |
| ProjectAction.VersionCheck | lib/action/project.action.ts:14 | `versionId` fails its type test iff it coerces to NaN, and passes iff it coerces to a number of at least 1 |
| ProjectAction.DateCheck | lib/action/project.action.ts:5-10 | a date passes iff present and of the form YYYY-MM-DD; an empty one gets both the required and the format message |
| ProjectAction.ValidFromChecks | lib/action/project.action.ts:12-28 | a form with no message under any field satisfies the rules stated directly |
| ProjectAction.ChecksFromValid | lib/action/project.action.ts:12-28 | a form satisfying the rules stated directly has no message under any field |
| ProjectAction.ProjectErrorsIff | lib/action/project.action.ts:12-28 | no field error iff `versionId` is at least 1, `region` and `name` are non-empty, both dates are YYYY-MM-DD, and the end date does not precede the start date |
| ProjectAction.EmptyVersionRejected | lib/action/project.action.ts:14 | an empty `versionId` is rejected with the version message under `versionId` |
| ProjectAction.EndBeforeStartReportedUnderEndDate | lib/action/project.action.ts:20-27 | well-formed dates in the wrong order produce exactly the ordering message under `endDate` and nothing under `startDate` |
| ProjectAction.OrderOnlyFailure | lib/action/project.action.ts:17-27 | with both dates well-formed and out of order, `endDate` carries only the ordering message and `startDate` nothing |
| ProjectAction.EmptyStartAlsoFlagsEnd | lib/action/project.action.ts:17-27 | an empty start date is reported twice under `startDate`, and also makes a valid end date fail the ordering refinement |
| ProjectAction.MissingFieldSkipsRefinement | lib/action/project.action.ts:12-28 | a missing field aborts the object, so no ordering message is added |
| ProjectAction.CreateProjectAction | lib/action/project.action.ts:49-101 | `postNewProject` is called iff the input is valid, with the coerced `versionId`. Invalid input gives the errors and the echo, with success false. Success gives no errors and every field reset to `''`. A throw gives the ApiError message or the connection fallback, with the raw input kept |
| UserAction.UsernameCheck | lib/action/user.action.ts:12-15 | a name passes iff present with a UTF-16 length from 1 to 10 |
| UserAction.ValidFromChecks | lib/action/user.action.ts:7-20 | a form with no message under any field satisfies the rules stated directly |
| UserAction.ChecksFromValid | lib/action/user.action.ts:7-20 | a form satisfying the rules stated directly has no message under any field |
| UserAction.SignupErrorsIff | lib/action/user.action.ts:7-20 | no field error iff the three strings are non-empty, the name is 1 to 10 long, and the confirmation equals the password |
| UserAction.UsernameLimitIsTenInclusive | lib/action/user.action.ts:12-15 | a ten-letter name is accepted although the message says "fewer than ten"; eleven letters are refused |
| UserAction.MismatchReportedUnderPasswordCheck | lib/action/user.action.ts:17-20 | a mismatch is reported under `passwordCheck` only, never under `password` |
| UserAction.SignupAction | lib/action/user.action.ts:37-76 | `postSignup` is called iff the input is valid, with `loginId`, `password` and `username` and never the confirmation. Invalid input gives the errors and an echo of only `loginId` and `username`. Success gives only success and the message. A throw gives the ApiError message or the signup fallback, plus the echo |
| UserAction.PasswordsNeverEchoed | lib/action/user.action.ts:44-53 | two forms differing only in their passwords get the same result state when the backend answers alike |
| RailUpdate.QuantityCheck | lib/action/straight.action.ts:7-9 | the quantity aborts iff it coerces to NaN, and passes iff it coerces to a positive integer |
| RailUpdate.ValidQuantityIff | lib/action/straight.action.ts:7-9 | the quantity check passes exactly for a number that is an integer of at least 1; `''` never passes |
| RailUpdate.BlankAndZeroRejected | lib/action/straight.action.ts:19 | an emptied cell (`''`) and 0 are both refused with the quantity message |
| RailUpdate.NegativeFractionFailsBoth | lib/action/straight.action.ts:8 | both the integer check and the positivity check run, in that order |
| RailUpdate.UpdateRailAction | lib/action/straight.action.ts:17-46 | the patch is sent iff the quantity is valid. Invalid input gives success false with the field errors. A returned call gives `success = response.isSuccess` and the response message. A throw gives success false with the ApiError message or the fallback |
| StraightAction.UpdateStraightRailAction | lib/action/straight.action.ts:17-46 | `updateStraightRail` is called iff the quantity is a positive integer, with the rail id and that exact quantity. Invalid input gives the recheck message, success false and the quantity errors. A returned call gives the envelope's success and message. A throw gives the ApiError message or the straight-rail fallback; no `errors` after a call |
| BranchAction.UpdateBranchRailAction | lib/action/branch.action.ts:17-46 | `updateBranchRail` is called iff the quantity is a positive integer, with the rail id and that exact quantity. Invalid input gives the recheck message, success false and the quantity errors. A returned call gives the envelope's success and message. A throw gives the ApiError message or the branch-rail fallback; no `errors` after a call |
| MaterialSchema.StringFieldMessages | lib/action/material.action.ts:9-10 | a string field has no issue iff it is present, a string and non-empty |
| MaterialSchema.QuantityMessages | lib/action/material.action.ts:11 | the quantity has no issue iff it coerces to an integer of at least 1 |
| MaterialSchema.ItemIssuesEmptyIff | lib/action/material.action.ts:8-12 | an item raises no issue iff it is an object with non-empty `drawingNumber` and `itemName` and a quantity coercing to an integer of at least 1 |
| MaterialSchema.ElementIssuesEmptyIff | lib/action/material.action.ts:28 | the array raises no item issue iff every item is valid |
| MaterialSchema.MaterialIssuesEmptyIff | lib/action/material.action.ts:14-28 | no issue iff the input is a non-empty string that parses to a non-empty array of valid items |
| MaterialSchema.IssueShape | lib/action/material.action.ts:14-28 | a missing, empty, unparseable, non-array or empty-array input gives one issue with an empty path. Otherwise every issue names a row of the array and, when it has a second segment, a field |
| MaterialSchema.QuantityCoercionExamples | lib/action/material.action.ts:11 | `3` and `"3"` pass; `null` and `[]` coerce to 0 and fail the minimum; `2.5` fails the integer check; a missing quantity is NaN |
| MaterialSchema.FractionQuantityIssues | lib/action/material.action.ts:11 | an otherwise valid item with quantity 0.5 gets the integer issue and then the minimum issue, both on `[0, quantity]` |
| MaterialSchema.ToItems | lib/action/material.action.ts:75-79 | the posted items correspond one to one to the parsed array, with the quantity as its integer value |
| MaterialAction.CollectRowErrors | lib/action/material.action.ts:54-65 | the loop's table equals the fold of the issues in order |
| MaterialAction.LastWriteWins | lib/action/material.action.ts:55-65 | a field's entry holds the message of the last issue aimed at that row and field |
| MaterialAction.UnwrittenFieldAbsent | lib/action/material.action.ts:55-65 | a field that no issue names is absent from its row |
| MaterialAction.UntargetedRowIsHole | lib/action/material.action.ts:59-62 | a row that no issue names is a hole in the array |
| MaterialAction.LastSlotTargeted | lib/action/material.action.ts:60-62 | the array ends at the largest row index any issue names |
| MaterialAction.NoRowIssuesNoRows | lib/action/material.action.ts:59 | without an issue naming a row and a field the table stays empty |
| MaterialAction.SecondWriteOverwrites | lib/action/material.action.ts:60-63 | two issues on the same row and field leave only the second message |
| MaterialAction.FractionShowsOnlyMinimumMessage | lib/action/material.action.ts:55-65 | for quantity 0.5 the row shows only the minimum message, because it overwrites the integer message |
| MaterialAction.CreateMaterialInboundAction | lib/action/material.action.ts:42-93 | `postMaterialInbound` is called iff the input is valid, with the parsed items. Invalid input gives the recheck message, the row table and success false. A returned call gives success true and `errors = []`, whatever `isSuccess` says. A throw gives no errors and the ApiError message or the fallback |
| MaterialAction.WholeInputFailureHasNoRows | lib/action/material.action.ts:59 | a missing, empty, unparseable, non-array or empty-array input is rejected with an empty row table |
| MaterialAction.RowsWithinItems | lib/action/material.action.ts:55-65 | the row table never extends past the parsed array |
| AuthModel.InitialState | lib/store/auth.store.ts:22-25 | the store starts logged out with no user, not hydrated and syncing |
| AuthModel.SetUser | lib/store/auth.store.ts:29 | the user is set and the login flag follows it; the flags are kept |
| AuthModel.SetLoggedIn | lib/store/auth.store.ts:28 | only the login flag changes |
| AuthModel.Logout | lib/store/auth.store.ts:30 | logged out with no user; the hydration and syncing flags are kept |
| AuthModel.SetHasHydrated | lib/store/auth.store.ts:26 | only the hydration flag changes |
| AuthModel.SetIsSyncing | lib/store/auth.store.ts:27 | only the syncing flag changes |
| AuthModel.Partialize | lib/store/auth.store.ts:34-37 | the snapshot holds exactly the login flag and the user |
| AuthModel.Merge | lib/store/auth.store.ts:20-42 | merging a snapshot sets the persisted fields to it and keeps the flags |
| AuthModel.Rehydrate | lib/store/auth.store.ts:38-40 | a read that completes marks the store hydrated and applies the stored snapshot; a failed read changes nothing; syncing is kept |
| AuthModel.PartializeIgnoresFlags | lib/store/auth.store.ts:34-37 | the snapshot does not depend on the hydration or syncing flag |
| AuthModel.RehydrateRoundTrip | lib/store/auth.store.ts:34-40 | persisting a state and rehydrating restores its login flag and user, and marks the store hydrated |
| AuthModel.ConsistencyPreserved | lib/store/auth.store.ts:26-40 | every setter except `setLoggedIn` keeps `isLoggedIn` equal to "there is a user" |
| AuthModel.SetLoggedInBreaksConsistency | lib/store/auth.store.ts:28 | `setLoggedIn(true)` on a logged-out store leaves a logged-in state with no user |
| AuthStore.Store.constructor | lib/store/auth.store.ts:19-25 | a new store is in the initial state |
| AuthStore.Store.SetUser | lib/store/auth.store.ts:29 | the fields become `AuthModel.SetUser` of the old ones |
| AuthStore.Store.SetLoggedIn | lib/store/auth.store.ts:28 | the fields become `AuthModel.SetLoggedIn` of the old ones |
| AuthStore.Store.Logout | lib/store/auth.store.ts:30 | the fields become `AuthModel.Logout` of the old ones |
| AuthStore.Store.SetHasHydrated | lib/store/auth.store.ts:26 | the fields become `AuthModel.SetHasHydrated` of the old ones |
| AuthStore.Store.SetIsSyncing | lib/store/auth.store.ts:27 | the fields become `AuthModel.SetIsSyncing` of the old ones |
| AuthStore.Store.Partialize | lib/store/auth.store.ts:34-37 | reads the persisted snapshot of the current fields |
| AuthStore.Store.Rehydrate | lib/store/auth.store.ts:32-40 | the fields become `AuthModel.Rehydrate` of the old ones |
| SyncAuth.SyncTransition | lib/hooks/useSyncAuth.ts:11-23 | after a sync the store is logged in iff the call returned data, with that data as user. No data or any throw logs out. The flags are kept and the state stays consistent |
| SyncAuth.Sync | lib/hooks/useSyncAuth.ts:11-23 | the store's fields become `SyncTransition` of the old ones |
| SyncAuth.SyncAuthHook.Mount | lib/hooks/useSyncAuth.ts:29-32 | mounting syncs once and subscribes to `visibilitychange` and `focus` |
| SyncAuth.SyncAuthHook.Dispatch | lib/hooks/useSyncAuth.ts:25-27 | a subscribed event syncs; any other leaves the store unchanged |
| SyncAuth.SyncAuthHook.Cleanup | lib/hooks/useSyncAuth.ts:34-37 | cleanup removes both subscriptions |
| AuthGuard.GuardNavigation | components/auth/AuthGuard.tsx:18-34 | no redirect until hydrated and not syncing. Then the login check comes first with the login notice, then the role check with the permission notice; the guard never goes back |
| AuthGuard.GuardScreen | components/auth/AuthGuard.tsx:36-44 | the children are rendered iff hydrated, not syncing, logged in, with a user whose role is allowed |
| AuthGuard.WaitsUntilReady | components/auth/AuthGuard.tsx:19-21 | before the store is ready: loading screen and no redirect |
| AuthGuard.ReadyRendersOrRedirects | components/auth/AuthGuard.tsx:18-44 | once ready, exactly one of rendering the children and redirecting home happens |
| AuthGuard.LoginCheckedBeforeRole | components/auth/AuthGuard.tsx:23-27 | a logged-out state gets the login notice even when a user with an allowed role is still stored |
| AuthGuard.LoggedInWithoutUserRefused | components/auth/AuthGuard.tsx:29-33 | logged in without a user is refused with the permission notice |
| WithAuth.WithAuthNavigation | lib/hooks/withAuth.tsx:16-32 | nothing happens until hydrated. Logged out goes home with the login notice. A missing user or a disallowed role goes back with the permission notice. Staying happens iff not hydrated or admitted |
| WithAuth.RendersWhereGuardLoads | lib/hooks/withAuth.tsx:12-35 | wherever `AuthGuard` shows its loading screen, `withAuth` renders the wrapped page, and it stays exactly when not hydrated or admitted |
| WithAuth.AdmitsDuringSync | lib/hooks/withAuth.tsx:13-34 | while a sync is in flight, an admitted user sees the wrapped page with no navigation, where `AuthGuard` still shows loading |
| WithAuth.IgnoresSyncing | lib/hooks/withAuth.tsx:17-19 | the decision does not depend on `isSyncing` |
| WithAuth.AgreesWithGuard | lib/hooks/withAuth.tsx:16-32 | when the store is ready, `withAuth` admits exactly whom the guard admits and gives the same login notice; it goes back where the guard goes home |
| AuthFlow.SyncingNeverCleared | lib/store/auth.store.ts:25 | no sequence of rehydrations, syncs, dialog logins and logouts clears the initial `isSyncing = true` |
| AuthFlow.GuardNeverLeavesLoading | components/auth/AuthGuard.tsx:36-38 | hence, under any sequence of the modelled updates, a guarded page shows the loading screen and never redirects |
| AuthFlow.DialogLoginThenWithAuth | components/auth/LoginDialog.tsx:41 | right after a dialog login, before any sync, `withAuth` sends the visitor back with the permission notice |
| AuthFlow.SyncedUserAdmitted | lib/hooks/useSyncAuth.ts:15-16 | a sync returning a user with an allowed role admits the visitor to a hydrated `withAuth` page |
| ProjectSearch.FilterEntriesExact | app/project/page.tsx:112-116 | the filter keeps an entry iff its value is set and not `''` |
| ProjectSearch.FilteredParamsExact | app/project/page.tsx:112-116 | a search sends a key with a value iff the state holds that value and it is not `''`; `0` is sent |
| ProjectSearch.InitialRequest | app/project/page.tsx:50-58 | from the initial parameters only page 0, size 10 and sort `START_DATE` are sent; the empty keyword is dropped |
| ProjectSearch.PreviousTarget | app/project/page.tsx:411-416 | "Previous" moves iff not on the first page, to a page below the current one and not negative |
| ProjectSearch.NextTarget | app/project/page.tsx:438-443 | "Next" moves iff not on the last page, to a page above the current one and below the page count |
| ProjectSearch.PageLinks | app/project/page.tsx:421-431 | one link per page `0 .. totalPages-1`, and a link is active iff it is the current page |
| ProjectSearch.OneActiveLink | app/project/page.tsx:421-431 | on a well-formed page exactly one link is active |
| ProjectSearch.ProjectPage.constructor | app/project/page.tsx:61-63 | the page starts with the initial parameters, no results and not loading |
| ProjectSearch.ProjectPage.BeginSearch | app/project/page.tsx:109-118 | loading starts and the filtered parameters are sent |
| ProjectSearch.ProjectPage.CompleteSearch | app/project/page.tsx:119-133 | results are shown only after a successful answer with data and cleared otherwise. Loading ends. A throw raises the ApiError message or the list fallback as a toast |
| ProjectSearch.ProjectPage.HandleSearch | app/project/page.tsx:108-134 | one search: the filtered parameters are sent, and the results and loading flag are as `CompleteSearch` leaves them |
| ProjectSearch.ProjectPage.OnSearchClick | app/project/page.tsx:136-138 | searches with page 0 and the other parameters as held; the held parameters do not change. Results, loading and the toast are as after `HandleSearch` |
| ProjectSearch.ProjectPage.OnResetClick | app/project/page.tsx:140-143 | restores the initial parameters and clears the results without searching |
| ProjectSearch.ProjectPage.HandlePageChange | app/project/page.tsx:145-149 | only `page` changes, and the updated parameters are searched. Results, loading and the toast are as after `HandleSearch` |
| ProjectSearch.ProjectPage.OnPreviousClick | app/project/page.tsx:411-416 | moves to `pageNo - 1` and searches iff not on the first page, leaving results, loading and the toast as after `HandleSearch`; otherwise nothing changes and no toast is raised |
| ProjectSearch.ProjectPage.OnNextClick | app/project/page.tsx:438-443 | moves to `pageNo + 1` and searches iff not on the last page, leaving results, loading and the toast as after `HandleSearch`; otherwise nothing changes and no toast is raised |
| ProjectSearch.SearchClickKeepsOtherParams | app/project/page.tsx:136-138 | a search click sends page 0 and every other parameter exactly as a search of the held parameters would |

## Left out

- Number coercion covers:
  - blank strings (0);
  - optionally signed decimal digits with an optional fraction;
  - `null`, booleans and arrays, as `Number` converts them.

  Exponents, hexadecimal, `Infinity` and the full white-space set are not modelled: such strings are taken as NaN. A JavaScript number is modelled as NaN or an exact finite real, so `Infinity` as a quantity is not represented.
- Js.StringToNumber: a decimal literal is read as the exact real it spells, not rounded to the nearest double. Digits beyond double precision are kept, so `"9007199254740993"` is 9007199254740993 here and 9007199254740992 in JavaScript, and a literal too large for a double stays finite instead of becoming `Infinity`.
- Js.DigitsAreInteger: states the exact value of a digit string; JavaScript gives the nearest double, which differs above 2^53.
- MaterialSchema.QuantityMessages: a quantity string whose fraction a double cannot hold (`"1.0000000000000001"`, which JavaScript reads as 1) is rejected here as a non-integer, although the source accepts it.
- ProjectAction.VersionCheck: the same exact reading applies to `versionId`, so such a string is accepted here only when its exact value is an integer of at least 1.
- `new Date(...)` is not modelled. Two YYYY-MM-DD strings compare as text, and any other string is an invalid date.
  - A YYYY-MM-DD string that names no real day passes the format check and is compared as text. So the model may accept a form that the source rejects with the ordering message: `"2024-13-01"` is an Invalid Date in JavaScript. The reverse also happens for days the `Date` parser rolls over: `"2024-02-30"` becomes 1 March, so start `"2024-03-01"` with end `"2024-02-30"` passes in the source but fails the text comparison here.
  - A non-ISO string that `Date` would still parse already fails the format check. For such a string only the extra ordering message can differ.
- `JSON.parse` is a function argument (`parse`). Its syntax is not modelled, only what the schema does with the value it returns.
- A `File` form value, extra form keys and repeated keys are not modelled: every form entry is a string or missing.
- The backend, `fetchApi` and the `lib/api` modules are not modelled. Each call is one `Outcome`: a returned envelope, a thrown `ApiError` with its message, or another exception.
- The actions are `async`. Each is modelled as one atomic step, and interleaving with other events (two searches in flight, a sync racing a login) is not captured.
- Toasts and router calls are values returned by the model (`Navigation`, the toast of `CompleteSearch`); the UI effects themselves are not modelled.
- `localStorage` is a `Rehydration` value: what reading the stored snapshot gave. The write side of persistence is `Partialize`.
- The answer a sync receives is a parameter of each hook method, so the model does not relate the answers that successive events see.
- The toasts of the version and sort-option loaders are not modelled; only the project search's toast is.
- The project page's field setters (keyword, version, sort and date pickers), the version and sort-option loaders, and the row click navigation are not modelled. They only overwrite one parameter, fill drop-down lists, or navigate.
- The persisted `user` snapshot is not validated on rehydration, so a stored inconsistent snapshot stays inconsistent. `AuthModel.ConsistencyPreserved` assumes a consistent snapshot.
- A `Server(text)` message is kept apart from the fixed messages even if the backend happened to send the same wording.
