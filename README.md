# Campus sustainability app: a verified model of its client logic

This project models the decision logic of a campus sustainability web
application, a thin React client over a hosted auth and data backend. The
modelled parts are:

- the session store (`AuthProvider`), with its three state cells `user`,
  `profile` and `loading`;
- the two route guards;
- the reward redemption rules;
- the progress counter of the education hub;
- the bin-locator search and legend;
- the waste report submission;
- the blog post lookup.

Every backend or browser result is an input: a session with or without a
user, a profile fetch that finds a row, fails or throws, and an action whose
backend call succeeds, returns an error or throws. Toasts and backend requests are kept as logs, so the
model can say what was shown and what was sent.

Module layout:

- `wrappers.dfy` has `Option`.
- `toasts.dfy` (module `Toasts`) has the toast notification that every page
  shows its outcomes with.
- `js.dfy` (module `Js`) holds general sequence facts (`NoDup`, `IndexOf`,
  `IsSubsequence`) and models the JavaScript built-ins the pages rely on:
  - `toLowerCase` on ASCII letters;
  - `String.prototype.includes`;
  - `parseInt`, with ECMAScript white space, a sign and the `0x` prefix;
  - the decimal form of a number in a template literal;
  - `Array.from(new Set(xs))`.
- `auth.dfy` (module `Auth`) gives the store's state as a value, with one
  transition function per handler and lemmas about any order of events. The
  class `AuthProvider` holds the same cells as fields. Each of its methods
  is proved to follow its transition function. `fetchProfile` awaits the
  backend, so it is split at the `await`: the select is issued when a user
  appears, and the outcome arrives later as an event of its own.
- `guards.dfy` (module `Guards`) covers `ProtectedRoute` and `OptionalAuthRoute`.
- `rewards.dfy` (module `Rewards`) covers `handleRedeem` and the redeem
  button's disabled state, variant and label.
- `education.dfy` (module `Education`) covers the completed-module list,
  `handleStartModule` and the `totalPoints` reduce. The class
  `EducationHub` holds the list.
- `bins.dfy` (module `Bins`) covers `filteredLocations`, the type legend and
  the empty-result card.
- `wastereport.dfy` (module `WasteReport`) covers `handleSubmit`, split at
  its `await` like `fetchProfile`. The class `WasteReportForm` holds the
  form's state cells.
- `blog.dfy` (module `Blog`) covers the post lookup by route parameter.

Two behaviours of the code are worth stating outright:

- `OptionalAuthRoute` has no timer: it shows the spinner exactly as long as
  `loading` is true (`Guards.OptionalSpinnerUntilResolved`).
- A profile fetch result carries no tag tying it to the user it was issued
  for. A late fetch can install a profile beside no user
  (`Auth.LateFetchAfterSignOut`, `Auth.LateFetchOnProvider`). So can an
  initial-session check that resolves late with no session, because that
  path does not clear the profile (`Auth.StaleInitialSession`). So "no user
  implies no profile" is not an invariant of the code, and the model does
  not claim it.

## Model

| member | source | states |
|---|---|---|
| `Auth.Initial` | src/hooks/useAuth.tsx:30-32 | on mount there is no user and no profile, `loading` is true, and nothing has been shown or sent |
| `Auth.AuthChanged` | src/hooks/useAuth.tsx:38-48 | the listener records the session's user; with a user it issues one profile select and leaves profile and loading alone; without one it clears the profile and ends loading |
| `Auth.SessionChecked` | src/hooks/useAuth.tsx:51-59 | the initial-session continuation records the user and never touches the profile; with a user it issues a select, without one it ends loading |
| `Auth.ProfileFetched` | src/hooks/useAuth.tsx:67-104 | a fetched row replaces the profile; `PGRST116` clears it without a toast; any other error keeps it and shows exactly one "Failed to load user profile" toast; an exception keeps it silently; loading ends false in every case and the user is untouched |
| `Auth.ErrorToast` | src/hooks/useAuth.tsx:112-118 | the error toast of an auth action is destructive and carries the backend message verbatim |
| `Auth.Act` | src/hooks/useAuth.tsx:106-171 | an auth action sends its one request and keeps user, profile and loading; on a returned error it shows the backend message and re-raises the error; on success it shows the success toast and raises nothing; a thrown call shows no toast and its exception is what the action raises |
| `Auth.SignInResult` | src/hooks/useAuth.tsx:106-125 | sign-in sends the credentials, leaves the session cells alone, and shows the error and re-raises it, or shows "Signed in successfully!" |
| `Auth.SignUpData` | src/hooks/useAuth.tsx:127-138 | the sign-up metadata forwards the full name and the student id unchanged and defaults the role to `student` |
| `Auth.SignUpResult` | src/hooks/useAuth.tsx:127-153 | sign-up sends email, password and that metadata, leaves the session cells alone, and reports like sign-in with the account-created toast |
| `Auth.SignOutResult` | src/hooks/useAuth.tsx:155-171 | sign-out sends one end-session request, leaves the session cells alone (the listener clears them), and reports like sign-in |
| `Auth.Merge` | src/hooks/useAuth.tsx:190 | `{ ...prev, ...updates }`: each field present in the changes wins, and every other field keeps its stored value |
| `Auth.UpdatePayload` | src/hooks/useAuth.tsx:178 | the update sent to the backend is the changes with `updated_at` set to the current time and nothing else altered |
| `Auth.UpdateProfileResult` | src/hooks/useAuth.tsx:173-195 | with no user, nothing is sent, shown or changed; on a returned error the profile is kept, a fixed toast shows and the error is re-raised; a thrown call keeps the profile, shows no toast and raises its exception; on success a held profile gets the changes merged in, a missing profile stays missing, and a success toast shows |
| `Auth.MergeNoChanges` | src/hooks/useAuth.tsx:190 | merging no changes leaves the profile as it was |
| `Auth.MergeIdempotent` | src/hooks/useAuth.tsx:190 | applying the same update twice has the effect of applying it once |
| `Auth.MergeThen` | src/hooks/useAuth.tsx:190 | two successive merges equal one merge of the combined changes |
| `Auth.UpdateKeepsLocalTimestamp` | src/hooks/useAuth.tsx:176-190 | after a successful update the local `updated_at` keeps its old value unless the changes carry one, while the backend was sent the fresh timestamp |
| `Auth.ThrownActionIsSilent` | src/hooks/useAuth.tsx:106-195 | none of sign-in, sign-up, sign-out and a signed-in profile update catches a thrown backend call: only the request log changes, no toast is shown, and the exception is what the action raises |
| `Auth.LoadingNeverReturns` | src/hooks/useAuth.tsx:29-104 | once `loading` is false, no sequence of events makes it true again |
| `Auth.LoadingUntilResolved` | src/hooks/useAuth.tsx:29-104 | from mount, `loading` is still true if and only if no event so far was a no-user result or a finished profile fetch |
| `Auth.LogsOnlyGrow` | src/hooks/useAuth.tsx:29-195 | along any events, the toast and request logs are only ever extended |
| `Auth.ActionsKeepSession` | src/hooks/useAuth.tsx:106-171 | sign-in, sign-up and sign-out never change user, profile or loading directly, whatever the state |
| `Auth.LateFetchAfterSignOut` | src/hooks/useAuth.tsx:38-104 | counterexample: user in, user out, then the first fetch's row arrives; the trace is feasible and ends with a profile but no user |
| `Auth.StaleInitialSession` | src/hooks/useAuth.tsx:40-59 | counterexample: a profile loaded through the listener survives a late initial check that reports no session |
| `Auth.AuthProvider.constructor` | src/hooks/useAuth.tsx:30-32 | the provider starts in the initial state |
| `Auth.AuthProvider.StartFetchProfile` | src/hooks/useAuth.tsx:67-74 | starting a fetch logs one select by that id and changes nothing else |
| `Auth.AuthProvider.OnAuthStateChange` | src/hooks/useAuth.tsx:38-48 | the listener method moves the fields exactly as `AuthChanged` says |
| `Auth.AuthProvider.OnInitialSession` | src/hooks/useAuth.tsx:51-59 | the initial-session method moves the fields exactly as `SessionChecked` says |
| `Auth.AuthProvider.OnProfileFetched` | src/hooks/useAuth.tsx:76-103 | the try/catch/finally moves the fields exactly as `ProfileFetched` says |
| `Auth.AuthProvider.SignIn` | src/hooks/useAuth.tsx:106-125 | new state and re-raised error are those of `SignInResult` |
| `Auth.AuthProvider.SignUp` | src/hooks/useAuth.tsx:127-153 | new state and re-raised error are those of `SignUpResult` |
| `Auth.AuthProvider.SignOut` | src/hooks/useAuth.tsx:155-171 | new state and re-raised error are those of `SignOutResult` |
| `Auth.AuthProvider.Report` | src/hooks/useAuth.tsx:112-124 | one toast is appended, the backend message on a returned error or the success text on success, and the error is handed back for re-raising; a thrown call appends nothing and hands back its exception |
| `Auth.AuthProvider.UpdateProfile` | src/hooks/useAuth.tsx:173-195 | new state and re-raised error are those of `UpdateProfileResult` |
| `Auth.LateFetchOnProvider` | src/hooks/useAuth.tsx:38-104 | the late-fetch counterexample played on the object: afterwards it holds the fetched profile and no user |
| `Guards.RoleAllows` | src/components/auth/ProtectedRoute.tsx:25 | no required role passes everyone, `admin` passes every check, the required role itself passes, and otherwise nobody passes; `Guards.AdminNeverDenied` states it for the page |
| `Guards.ProtectedRoute` | src/components/auth/ProtectedRoute.tsx:10-37 | while loading, the spinner shows whatever the other inputs are; otherwise a missing user or profile gives the sign-in form; access is denied, naming the required role, exactly when a role is required and the profile has neither it nor `admin`; the children render exactly when the role check passes |
| `Guards.OptionalAuthRoute` | src/components/auth/OptionalAuthRoute.tsx:8-20 | the spinner shows if and only if loading, the children otherwise; it never shows a sign-in form or a denial |
| `Guards.AdminNeverDenied` | src/components/auth/ProtectedRoute.tsx:25 | an `admin` profile is never denied, and with a user it always sees the page, whatever role is required |
| `Guards.NoRoleRequiredShowsContent` | src/components/auth/ProtectedRoute.tsx:25-37 | with no required role, a signed-in user with a profile sees the page |
| `Guards.GuardsShareSpinner` | src/components/auth/ProtectedRoute.tsx:13-19 | both guards show the spinner under exactly the same condition |
| `Guards.OptionalSpinnerUntilResolved` | src/components/auth/OptionalAuthRoute.tsx:11-20 | from mount and along any events, the optional guard spins exactly until the first event that resolves loading; there is no timeout |
| `Guards.OptionalStaysRevealed` | src/components/auth/OptionalAuthRoute.tsx:11-20 | once the optional guard shows the page, it keeps showing it whatever events follow |
| `Guards.LateFetchStillSignInForm` | src/components/auth/ProtectedRoute.tsx:21-23 | after the late-fetch trace the mandatory guard still shows the sign-in form, because it checks the user as well as the profile |
| `Rewards.HandleRedeem` | src/pages/Rewards.tsx:69-95 | nothing happens without a profile; a balance below the cost fails with a positive shortfall of cost minus balance; an affordable out-of-stock reward is unavailable; an affordable, available reward is redeemed under its own title; the four cases are exclusive and exhaustive |
| `Rewards.RedeemToast` | src/pages/Rewards.tsx:72-94 | no toast without a profile; otherwise one toast titled for the outcome; only success is not destructive |
| `Rewards.Balance` | src/pages/Rewards.tsx:150 | a missing profile counts as 0 points, otherwise the balance is the profile's points |
| `Rewards.ButtonDisabled` | src/pages/Rewards.tsx:150 | with a profile the button is disabled exactly when `handleRedeem` would not redeem; without one it is disabled exactly when the reward is out of stock or costs points |
| `Rewards.ButtonVariant` | src/pages/Rewards.tsx:151 | the variant is `default` exactly when the button is enabled, and `outline` otherwise |
| `Rewards.ButtonLabel` | src/pages/Rewards.tsx:153-154 | out of stock is reported first, then missing points; the label is "Redeem" exactly when the button is enabled |
| `Rewards.HandlerAgreesWithButton` | src/pages/Rewards.tsx:69-155 | with a profile, calling `handleRedeem` succeeds exactly when the button is enabled, which is exactly when it reads "Redeem" |
| `Rewards.PointsBeforeStock` | src/pages/Rewards.tsx:72-154 | calling `handleRedeem` on an unaffordable out-of-stock reward reports the shortfall, while the label reads "Out of Stock" |
| `Rewards.ShortfallMessage` | src/pages/Rewards.tsx:75 | the shortfall toast prints the missing points in decimal |
| `Rewards.RedeemedToastNamesReward` | src/pages/Rewards.tsx:90-93 | calling `handleRedeem` on an available, affordable reward shows the non-destructive "Reward redeemed!" toast, whose description names the reward |
| `Rewards.NoProfileAllDisabled` | src/pages/Rewards.tsx:150 | without a profile, every catalogue button is disabled |
| `Rewards.CatalogueStock` | src/pages/Rewards.tsx:12-67 | only reward 5, the parking spot, is out of stock |
| `Education.FindModule` | src/pages/EducationHub.tsx:133 | `find` returns a catalogue module with the id, and returns nothing exactly when no module has it |
| `Education.PointsOf` | src/pages/EducationHub.tsx:133-134 | `module?.points || 0`: an id missing from the catalogue is worth 0, and with non-negative catalogue points no id is worth less |
| `Education.TotalPoints` | src/pages/EducationHub.tsx:132-135 | the reduce is never negative over a catalogue of non-negative points; what it sums is stated by `Education.TotalIsCatalogueSum` |
| `Education.StartModule` | src/pages/EducationHub.tsx:139-144 | the old list is kept as a prefix and the id ends up in it; a present id changes nothing; an absent id is appended at the end |
| `Education.StartModuleKeepsNoDup` | src/pages/EducationHub.tsx:141-142 | starting a module keeps the completed list free of duplicates |
| `Education.StartModuleIdempotent` | src/pages/EducationHub.tsx:141-142 | starting the same module twice gives the same list as starting it once |
| `Education.TotalAfterStart` | src/pages/EducationHub.tsx:132-144 | the total grows by the new module's points when its id was absent, and otherwise stays the same |
| `Education.TotalNeverDecreases` | src/pages/EducationHub.tsx:132-144 | with no negative points in the catalogue, starting a module never lowers the total |
| `Education.UnknownIdsAddNothing` | src/pages/EducationHub.tsx:133-134 | an id missing from the catalogue adds 0 to the total |
| `Education.CatalogueSumAdd` | src/pages/EducationHub.tsx:132-135 | with distinct catalogue ids, adding a new id to the set adds exactly that module's points to the catalogue-side sum |
| `Education.TotalIsCatalogueSum` | src/pages/EducationHub.tsx:132-135 | for a duplicate-free list, the left-to-right reduce equals the sum of the points of the catalogue modules whose id is in the list |
| `Education.InitialTotal` | src/pages/EducationHub.tsx:10-40 | the initial list `[1, 3]` shows 2 modules and 25 + 30 = 55 points |
| `Education.CompletedCountBound` | src/pages/EducationHub.tsx:137 | a duplicate-free list of catalogue ids is no longer than the catalogue |
| `Education.CompletedCount` | src/pages/EducationHub.tsx:167 | "Modules Completed" is the list's length, which for a duplicate-free list is the number of different modules completed |
| `Education.StartModuleKeepsCatalogueIds` | src/pages/EducationHub.tsx:139-144 | starting a catalogue module keeps the list made of catalogue ids |
| `Education.InitialCatalogueIds` | src/pages/EducationHub.tsx:10 | the initial list `[1, 3]` names catalogue modules |
| `Education.StartModuleStep` | src/pages/EducationHub.tsx:137-144 | for any catalogue of non-negative points, the start handler keeps the list duplicate-free and made of catalogue ids, never lowers the total, and keeps the completed count within the catalogue size |
| `Education.EducationHub.constructor` | src/pages/EducationHub.tsx:10-79 | the page starts with `[1, 3]` over the fixed catalogue; both are catalogue ids, so the completed count starts within the module count |
| `Education.EducationHub.HandleStartModule` | src/pages/EducationHub.tsx:139-144 | called with the id of a catalogue module, as the page does (the call at line 220 inside the `modules.map` of line 189), the list becomes `StartModule` of the old list; the catalogue, with its static `completed` flags, is a constant and unchanged; the list stays duplicate-free and made of catalogue ids, the total does not decrease, and the completed count never exceeds the module count |
| `Education.EducationHub.Points` | src/pages/EducationHub.tsx:132-135 | the "Points Earned" figure is the catalogue points of the completed modules |
| `Bins.Matches` | src/pages/BinLocator.tsx:92-94 | the empty term matches every location, and a term longer than the name, the building and the type matches none; case-insensitivity is `Bins.CaseInsensitive` |
| `Bins.FilterLocations` | src/pages/BinLocator.tsx:91-95 | a location is kept if and only if the lower-cased term occurs in its lower-cased name, building or type; the result is never longer than the input |
| `Bins.FilterIsSubsequence` | src/pages/BinLocator.tsx:91 | the result keeps the input's order: it is a subsequence of it |
| `Bins.EmptyTermKeepsAll` | src/pages/BinLocator.tsx:91-95 | an empty search keeps every location |
| `Bins.CaseInsensitive` | src/pages/BinLocator.tsx:92-94 | terms that agree once lower-cased give the same result |
| `Bins.LowerCasedTermSameResult` | src/pages/BinLocator.tsx:92-94 | a term and its lower-cased form select the same bins |
| `Bins.FilterIdempotent` | src/pages/BinLocator.tsx:91-95 | filtering the result again with the same term changes nothing |
| `Bins.NoResultsIffNoMatch` | src/pages/BinLocator.tsx:201 | the "No recycling bins found" card shows if and only if no bin matches |
| `Bins.ShowsNoResults` | src/pages/BinLocator.tsx:201 | the "no bins found" card shows when the filtered list is empty, and never for the empty search |
| `Bins.BinTypes` | src/pages/BinLocator.tsx:146 | `binLocations.map(b => b.type)`: one type per location, in catalogue order |
| `Bins.LegendTypes` | src/pages/BinLocator.tsx:146 | the legend lists each type once, holds every location's type, holds no other type, and lists the types in order of their first appearance among the locations |
| `Bins.CatalogueLegend` | src/pages/BinLocator.tsx:146 | the legend of the fixed list is Mixed Recycling, Composting, E-Waste, Hazardous Waste, in that order, with Mixed Recycling once |
| `Js.UniqueInOrderSpec` | src/pages/BinLocator.tsx:146 | `Array.from(new Set(xs))` has no duplicates, holds exactly the elements of `xs`, and lists them in order of first occurrence |
| `Js.UniqueInOrder` | src/pages/BinLocator.tsx:146 | `Array.from(new Set(xs))` is never longer than `xs`; its contents and order are `Js.UniqueInOrderSpec` |
| `Js.UniqueInOrderAppend` | src/pages/BinLocator.tsx:146 | adding an element to the set appends it if it is new, and otherwise changes nothing |
| `Js.ToLower` | src/pages/BinLocator.tsx:92-94 | lower-casing keeps the length and lowers each ASCII capital in place |
| `Js.ToLowerIdempotent` | src/pages/BinLocator.tsx:92-94 | lower-casing twice is lower-casing once |
| `Js.Includes` | src/pages/BinLocator.tsx:92-94 | `s.includes(t)` holds only when `t` is no longer than `s`; its meaning is `Js.IncludesIffOccurs` |
| `Js.IncludesIffOccurs` | src/pages/BinLocator.tsx:92-94 | `includes` holds exactly when the needle occurs at some position |
| `Js.IncludesEmpty` | src/pages/BinLocator.tsx:92-94 | every string includes the empty string |
| `Js.ParseInt` | src/pages/BlogPost.tsx:122 | an empty string, or one whose first character after white space is neither a digit nor a sign, parses to NaN |
| `Js.Decimal` | src/pages/Rewards.tsx:75 | the printed form of a number is a non-empty string of decimal digits with no leading zero |
| `Js.DecimalValue` | src/pages/Rewards.tsx:75 | the printed digits denote the number printed |
| `Js.ParseIntDecimal` | src/pages/BlogPost.tsx:122 | `parseInt` reads back the decimal form of every natural number |
| `Js.ParseIntDecimalPrefix` | src/pages/BlogPost.tsx:122 | `parseInt` reads back a printed number followed by anything that does not extend it |
| `WasteReport.Initial` | src/components/waste/WasteReportForm.tsx:26-34 | the form opens empty, with no location, not submitting, with nothing shown or sent |
| `WasteReport.OrNull` | src/components/waste/WasteReportForm.tsx:90-91 | the `or null` fallback gives null exactly for 0, since 0 is falsy, and otherwise the number itself |
| `WasteReport.Complete` | src/components/waste/WasteReportForm.tsx:70 | a complete form has a non-empty title and waste type, and the empty form is not complete; that the other fields do not matter is `WasteReport.OptionalFieldsNotRequired` |
| `WasteReport.Ready` | src/components/waste/WasteReportForm.tsx:68-70 | the handler gets past both guards only with a user, a profile and a complete form; never for the empty form |
| `WasteReport.Submit` | src/components/waste/WasteReportForm.tsx:66-93 | without a user or profile nothing changes; submitting never edits the form or the location; exactly one row is sent, with `isSubmitting` raised and no toast, if and only if user, profile, title and waste type are all present; otherwise no row is sent and `isSubmitting` is as it was |
| `WasteReport.InsertResolved` | src/components/waste/WasteReportForm.tsx:95-121 | `isSubmitting` ends false on both outcomes; success shows the confirmation and clears the form and location; a returned or a thrown error shows the error toast and keeps both |
| `WasteReport.PositionCaptured` | src/components/waste/WasteReportForm.tsx:39-47 | a captured position becomes the location, with the "Location captured" toast, and the form is untouched |
| `WasteReport.Payload` | src/components/waste/WasteReportForm.tsx:84-92 | the row carries the user's id, its five text fields read back as the form unchanged, and with no captured location both coordinates are null |
| `WasteReport.PayloadInjective` | src/components/waste/WasteReportForm.tsx:84-92 | two rows built at the same location are equal only when user and form are equal |
| `WasteReport.CapturedCoordinates` | src/components/waste/WasteReportForm.tsx:90-91 | a captured coordinate is stored as is, except that an exact 0 is stored as null |
| `WasteReport.NoSessionNoEffect` | src/components/waste/WasteReportForm.tsx:68 | without a user or a profile, submitting shows nothing, sends nothing and changes nothing |
| `WasteReport.MissingFieldBlocks` | src/components/waste/WasteReportForm.tsx:70-77 | an empty title or waste type gives exactly one "Missing information" toast, no row, and `isSubmitting` unchanged |
| `WasteReport.OptionalFieldsNotRequired` | src/components/waste/WasteReportForm.tsx:70-79 | with a title and a waste type, calling `handleSubmit` sends a row whatever the description, location name, image and coordinates |
| `WasteReport.SubmissionBracket` | src/components/waste/WasteReportForm.tsx:79-121 | over a whole submission, `isSubmitting` is up while the insert is outstanding and down afterwards; exactly that one row was sent; success clears form and location, failure keeps them |
| `WasteReport.ResetFormIsIncomplete` | src/components/waste/WasteReportForm.tsx:70-110 | after a successful report, calling `handleSubmit` again on the reset form only shows "Missing information" |
| `WasteReport.SubmittingIffOutstanding` | src/components/waste/WasteReportForm.tsx:79-210 | along any feasible events (no call of `handleSubmit` while the submit button is disabled), every row sent has resolved except at most one, and `isSubmitting` is up exactly when one is outstanding |
| `WasteReport.Enabled` | src/components/waste/WasteReportForm.tsx:210 | `disabled={isSubmitting}`: `handleSubmit` is not called while a submission is up, an insert result arrives only while one is, and edits and positions can always happen |
| `WasteReport.Feasible` | src/components/waste/WasteReportForm.tsx:210 | the empty trace is feasible; in a feasible trace every call of `handleSubmit` finds `isSubmitting` down and every insert result finds it up |
| `WasteReport.WasteReportForm.constructor` | src/components/waste/WasteReportForm.tsx:26-34 | the object starts in the initial form state |
| `WasteReport.WasteReportForm.SetFormData` | src/components/waste/WasteReportForm.tsx:140-204 | the inputs' change handlers replace the form data and nothing else |
| `WasteReport.WasteReportForm.OnPositionCaptured` | src/components/waste/WasteReportForm.tsx:39-47 | the geolocation success callback moves the fields as `PositionCaptured` says |
| `WasteReport.WasteReportForm.HandleSubmit` | src/components/waste/WasteReportForm.tsx:66-93 | the fields move as `Submit` says for the provider's user and profile; it reports whether a row was sent; and it leaves the auth provider, including the points, unchanged |
| `WasteReport.WasteReportForm.OnInsertResolved` | src/components/waste/WasteReportForm.tsx:95-121 | the fields move as `InsertResolved` says |
| `Blog.FindPost` | src/pages/BlogPost.tsx:122 | a found post comes from the list and its id equals the parsed number; nothing is found exactly when no id equals it, so NaN finds nothing |
| `Blog.LookupPost` | src/pages/BlogPost.tsx:119-122 | a found post comes from the list, and its id is the parse of the parameter, or of the empty string when the parameter is missing |
| `Blog.ShowsNotFound` | src/pages/BlogPost.tsx:124 | "Post Not Found" shows exactly when the parameter does not parse to 1, 2 or 3 |
| `Blog.FindPostFirst` | src/pages/BlogPost.tsx:122 | the lookup returns the first match in list order |
| `Blog.AtMostOneMatch` | src/pages/BlogPost.tsx:8-116 | the ids 1, 2 and 3 are distinct, so at most one post matches any number |
| `Blog.FoundIffCatalogueId` | src/pages/BlogPost.tsx:122-138 | a post is found exactly when the parameter parses to 1, 2 or 3 |
| `Blog.MissingIdNotFound` | src/pages/BlogPost.tsx:122-129 | a missing or empty parameter shows "Post Not Found" |
| `Blog.NonNumericNotFound` | src/pages/BlogPost.tsx:122-129 | a parameter that starts, after white space, with neither a digit nor a sign shows "Post Not Found" |
| `Blog.OtherNumberNotFound` | src/pages/BlogPost.tsx:122-137 | a number other than 1, 2 and 3 shows "Post Not Found" |
| `Blog.ParsedIdSelects` | src/pages/BlogPost.tsx:122 | a parameter that parses to 1, 2 or 3 opens that post |
| `Blog.LeadingDigitsSelect` | src/pages/BlogPost.tsx:122 | the decimal form of 1, 2 or 3, followed by anything that does not start with a digit, opens that post |
| `Blog.TrailingLettersIgnored` | src/pages/BlogPost.tsx:122 | `"2abc"` opens the second post |

## Left out

- Backend I/O: the Supabase calls, the auth subscription and its
  `unsubscribe`. Each reply is an input value, and each request is a log entry.
- Console logging and the `toast` presentation. A toast is its title,
  description and destructive flag, appended to a log.
- Asynchronous interleaving: only as arbitrary orders of whole handler
  calls. `fetchProfile` and `handleSubmit` are split at their `await`. The
  four auth actions are atomic, with their reply (success, a returned error
  or a thrown one) as a parameter. Two clicks on "start module" within one
  render are not modelled: the source tests the rendered list but appends to
  the latest one, so such clicks could append an id twice.
- The listener awaits `fetchProfile` and the initial check does not. That
  difference in when each continuation finishes is not modelled.
- Geolocation: only its success callback (`OnPositionCaptured`) is
  modelled. Its error and unsupported-browser toasts are left out, and so is
  the coordinate display. Coordinates are `real`, so NaN is not modelled.
- `Pressed` and `Rewards.HandleRedeem` stand for calls of the handlers.
  The browser's constraint validation (`required`, `type="url"`) and the
  redeem buttons' `disabled` state are not modelled as blocking a call, so
  a lemma about them states what the handler does when called. The submit
  button's `disabled={isSubmitting}` is modelled, by `WasteReport.Enabled`
  and `WasteReport.Feasible`.
- Date and time: `new Date().toISOString()` is the parameter `now`.
  Date formatting is display only.
- Js.ToLower: lowers ASCII capitals only, not full Unicode case mapping.
- Js.ParseInt: results are unbounded integers. Precision loss and
  `Infinity` for very long digit strings are not modelled.
- Auth.Merge: a key given explicitly as `undefined` in `Partial<Profile>`
  is treated as absent. The spread would copy `undefined` over the field.
- Auth.ProfileFetched: the `as` cast of the role is taken as given. A row is
  assumed to carry one of the four roles.
- `completionRate` and its rounding are floating point. Only its numerator,
  the completed count, is modelled (`Education.CompletedCountBound`).
- Presentation: the colour and icon tables, the icons in the catalogues,
  the bin coordinates, and the blog posts' bodies, excerpts and images are
  display only. The same goes for JSX in general.
- The waste-type select offers seven values, but the handler accepts any
  non-empty string, and so does the model.
- The `useAuth` hook's error outside a provider is React context plumbing.
- The UI and routing files are navigation, markup or wiring: the
  dashboard, the blog index, the app shell, the sign-in prompt, the
  report page, the form fields, the user profile card and the reports list.
