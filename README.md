# Expert network admin: data layer model

A Dafny model of the logic layer under the expert-network admin console, with proofs. The console keeps experts, help requests and administrator accounts in spreadsheet tabs. The model covers four parts:

- **User and role service.** It contains the role-hierarchy permission check and the admin-tab row mapper. It covers the login rule: a case-insensitive email lookup, then an exact comparison of the password with the stored email. It also covers the user list and its updates by id, and the session slot holding the current user.
- **Spreadsheet data access.** It contains the expert and request row mappers and the decision chain that falls back to built-in sample data. It also covers lookup of a request by id and selection of experts by sector.
- **Data hooks.** It contains the sector and status views applied after a fetch, the per-status request counts, and the loading/error state each hook keeps.
- **Expert sign-up form.** It contains the ordered validator (required fields, email shape, phone digits, LinkedIn substring), the update of one field, and the normalisation of phone and LinkedIn values in the submitted data.

The model treats these as inputs:

- What a remote read returns: the tab names and the rows, or a failure. The spreadsheet service is the `Remote` datatype of `Base`.
- Clock readings.
- What local storage held at load.
- The relay's reply to a submission.

Each source file is one module:

- `UserManagement` for `user-management.ts`;
- `GoogleSheets` for `google-sheets.ts`;
- `SheetsHooks` for `use-sheets-data.ts`;
- `ExpertForm` for `expert-form.tsx`.

Three modules hold the shared vocabulary:

- `Base`: optional values, read outcomes, rows, and the `row[k] || ''` cell idiom.
- `Seqs`: `filter`, `findIndex` and `find`, plus an independent index-based description of what `filter` keeps.
- `Text`: lower-casing, `String(n)`, the `\d` and `\s` classes, `startsWith` and `includes`.

State that the source updates in place is modelled as classes:

- the session slot (`UserManagement.Session`);
- the list that `updateUserRole` and `toggleUserActive` change (`UserManagement.UserList`);
- the two hooks' state (`SheetsHooks.ExpertsHook`, `SheetsHooks.RequestsHook`);
- the form's state (`ExpertForm.FormState`).

`validateForm` is a method with a loop over the field keys.

Some behaviour of the code is easy to misread:

- **Login uses the first matching row only.** The code looks only at the first such row (`findIndex`). It compares the password exactly with that row's column B. A later row with the same email up to case never gets a chance (`UserManagement.FirstMatchingRowDecides`). The password must match the stored spelling, not the typed email.
- **The hooks' error state is never set by the services.** The services catch every failure and substitute sample data or nothing. So the error branch of the hooks is reachable only from an awaited call that rejects. The model keeps that branch, taking the outcome as an input.
- **Role and toggle updates are not written back.** `updateUserRole` and `toggleUserActive` change a freshly fetched copy of the list. A second call reads the sheet again and does not see the first change.
- **An empty sector filter means no filter.** `filterBySector: ""` is falsy, so it selects nothing out.
- **The request fallback to the first tab is dead code.** When there are fewer than two tabs, `getRequests` has already returned the sample set. So its choice of the first tab when there is only one never happens.

## Model

| member | source | states |
|---|---|---|
| Seqs.Filter | src/lib/services/google-sheets.ts:248 | the result is no longer than the input, holds only elements satisfying the predicate, all drawn from the input, and holds every input element satisfying it |
| Seqs.KeptIndices | src/hooks/use-sheets-data.ts:27 | reference description of a filter: the ascending in-range positions whose element satisfies the predicate, and all of them |
| Seqs.FilterIsKeptIndices | src/hooks/use-sheets-data.ts:27 | the filter is the order-preserving subsequence at exactly the positions satisfying the predicate |
| Seqs.FilterConcat | src/hooks/use-sheets-data.ts:81-84 | filtering a concatenation is the concatenation of the filtered parts |
| Seqs.FilterKeepsAll | src/hooks/use-sheets-data.ts:63 | when every element satisfies the predicate, the filter returns the input |
| Seqs.FilterKeepsNone | src/hooks/use-sheets-data.ts:63 | when no element satisfies the predicate, the filter returns nothing |
| Seqs.FindFirst | src/lib/services/user-management.ts:137-139 | `findIndex`: a position satisfying the predicate with none before it, or none exactly when no element satisfies it |
| Seqs.Find | src/lib/services/google-sheets.ts:235 | `find`: the first element satisfying the predicate, or none exactly when no element satisfies it |
| Seqs.FindFirstAgrees | src/lib/services/user-management.ts:227 | two lists on which the predicate agrees position by position have the same first match |
| Text.LowerIdempotent | src/lib/services/user-management.ts:101 | lower-casing twice is lower-casing once |
| Text.NatToString | src/lib/services/user-management.ts:96 | `String(n)` is a non-empty digit string with no leading zero |
| Text.DecimalRoundTrip | src/lib/services/user-management.ts:96 | reading the decimal rendering back gives the number |
| Text.NatToStringInjective | src/lib/services/user-management.ts:96 | two numbers have the same decimal rendering exactly when they are equal |
| Text.DigitsOfDigits | src/components/forms/expert-form.tsx:125 | the digits-only projection is all digits, and leaves an all-digit string unchanged |
| UserManagement.Permits | src/lib/services/user-management.ts:54-66 | permission is refused with no user or an inactive user; otherwise it is granted exactly when the stored role ranks at least as high as the required one |
| UserManagement.PermitsMonotone | src/lib/services/user-management.ts:60-65 | whoever passes a required role passes every lower one |
| UserManagement.PermitsPerRole | src/lib/services/user-management.ts:61-63 | an active admin passes every role, a manager all but admin, a viewer only viewer |
| UserManagement.RowToUser | src/lib/services/user-management.ts:94-120 | total for every row length: id is `String(index+1)`, a digit string without leading zero whose value is index+1, name and email are cells A and B or empty, role is the lower-cased cell C, or `viewer` when that cell is empty or missing, and never empty, active exactly when the lower-cased status is `active` or `true`, last login absent exactly when cell E is empty, creation date the clock reading, no password |
| UserManagement.UserRowRoundTrip | src/lib/services/user-management.ts:94-120 | a record the mapper can produce, written out as a row and mapped back, is unchanged |
| UserManagement.LoginMatch | src/lib/services/user-management.ts:129-155 | a login matches exactly when the read succeeded and the first row whose column B equals the email up to case has a column B equal to the password; the match is that row, and then the password equals the email up to case |
| UserManagement.Authenticate | src/lib/services/user-management.ts:149-161 | a user is returned exactly when the login matches: the matched row's record, with the password as its email, creation date the mapper's clock reading, last login the later clock reading and no password |
| UserManagement.FirstMatchingRowDecides | src/lib/services/user-management.ts:137-155 | with two rows whose emails differ only in case, only the first decides: the second row's spelling as password fails, the first row's succeeds on row 0 |
| UserManagement.MapUsers | src/lib/services/user-management.ts:181 | one record per row, the i-th mapped with index i |
| UserManagement.GetUsers | src/lib/services/user-management.ts:174-191 | a failed read gives no users; every user returned has a name or an email |
| UserManagement.GetUsersSelectsRows | src/lib/services/user-management.ts:179-181 | the users are, in order, exactly the rows with a non-empty name or email cell, each mapped with its original row index |
| UserManagement.GetUsersIdsUnique | src/lib/services/user-management.ts:179-181 | the returned users have pairwise distinct ids |
| UserManagement.GetUserById | src/lib/services/user-management.ts:194-197 | none exactly when no listed user has the id; otherwise a listed user with that id |
| UserManagement.GetUserByIdFindsRow | src/lib/services/user-management.ts:194-197 | looking up `String(i+1)` finds the record of row i whenever that row has a name or email |
| UserManagement.FindUniqueId | src/lib/services/user-management.ts:196 | in a list with distinct ids, looking up an entry's id finds that entry |
| UserManagement.WithRole | src/lib/services/user-management.ts:203-211 | the updated list has the same length |
| UserManagement.Toggled | src/lib/services/user-management.ts:227-235 | the toggled list has the same length and the same ids position by position |
| UserManagement.WithRoleChangesOnlyTarget | src/lib/services/user-management.ts:203-216 | on a list with distinct ids, only the entry with that id changes, and only its role |
| UserManagement.ToggledChangesOnlyTarget | src/lib/services/user-management.ts:227-240 | on a list with distinct ids, only the entry with that id changes, and only its active flag, which flips |
| UserManagement.ToggledTwice | src/lib/services/user-management.ts:235 | toggling the same id twice restores the list |
| UserManagement.UserList.UpdateRole | src/lib/services/user-management.ts:203-216 | the list becomes the role-updated list; none exactly when the id is absent, otherwise the updated entry |
| UserManagement.UserList.ToggleActive | src/lib/services/user-management.ts:227-240 | the list becomes the toggled list; none exactly when the id is absent, otherwise the toggled entry |
| UserManagement.UpdateUserRole | src/lib/services/user-management.ts:200-221 | the result is the user `getUserById` finds, with the new role, or none when there is none |
| UserManagement.ToggleUserActive | src/lib/services/user-management.ts:224-245 | the result is the user `getUserById` finds, with its active flag flipped, or none when there is none |
| UserManagement.AddUser | src/lib/services/user-management.ts:248-265 | the new record's id is `String` of the clock's milliseconds, whose value is that count, its creation date the clock reading, every other field the caller's |
| UserManagement.Session.constructor | src/lib/services/user-management.ts:14-15 | at load nothing is current and storage holds what it held |
| UserManagement.Session.GetCurrentUser | src/lib/services/user-management.ts:24-37 | a current user stays; with none, the stored record is loaded; storage is unchanged; a session holding no password still holds none |
| UserManagement.Session.SetCurrentUser | src/lib/services/user-management.ts:40-45 | the user without its password becomes current and is stored; no password is held anywhere |
| UserManagement.Session.LogoutUser | src/lib/services/user-management.ts:48-51 | no current user and nothing stored |
| UserManagement.Session.HasPermission | src/lib/services/user-management.ts:54-66 | the permission check applied to the current user, or the stored one when none is current; that user becomes current and storage is unchanged |
| UserManagement.Session.AuthenticateUser | src/lib/services/user-management.ts:123-171 | the result is the login function's; on success it becomes current and stored, on any failure the session is unchanged |
| UserManagement.LogoutThenCheck | src/lib/services/user-management.ts:48-66 | after logout there is no current user, nothing is stored, and no role is permitted |
| GoogleSheets.ConfigFromEnv | src/lib/services/google-sheets.ts:5-9 | each spreadsheet id is the environment's value when that is non-empty and the built-in default otherwise, so never empty; the key is the environment's |
| GoogleSheets.ExpertColumns | src/lib/services/google-sheets.ts:159-172 | field k of the mapped expert is cell k of the row (empty when missing), enrichment data is always present as cell K, and its id is `String(index+1)` |
| GoogleSheets.ExpertRowRoundTrip | src/lib/services/google-sheets.ts:159-172 | an expert carrying its row's id and an enrichment field survives writing out as a row and mapping back |
| GoogleSheets.MapExperts | src/lib/services/google-sheets.ts:159-172 | one expert per row, the i-th mapped with index i |
| GoogleSheets.RequestColumns | src/lib/services/google-sheets.ts:209-222 | status is never empty and defaults to `expert_contacted`, completion date is absent exactly when its cell is empty, every other field is its cell or empty |
| GoogleSheets.RequestRowRoundTrip | src/lib/services/google-sheets.ts:209-222 | a request with a status and no empty completion date survives writing out as a row and mapping back |
| GoogleSheets.MapRequests | src/lib/services/google-sheets.ts:209-222 | one request per row, the i-th mapped from row i |
| GoogleSheets.GetExperts | src/lib/services/google-sheets.ts:132-177 | never returns an empty list |
| GoogleSheets.GetExpertsDecisions | src/lib/services/google-sheets.ts:134-176 | no key gives the sample set whatever the remote; failed tab names or no tabs give the sample set; otherwise the first tab is read, and a failed read or zero rows give the sample set, rows give their mapping |
| GoogleSheets.GetRequests | src/lib/services/google-sheets.ts:182-227 | never returns an empty list |
| GoogleSheets.GetRequestsDecisions | src/lib/services/google-sheets.ts:184-226 | no key gives the sample set whatever the remote; failed tab names or fewer than two tabs give the sample set; otherwise the second tab is read, and a failed read or zero rows give the sample set, rows give their mapping |
| GoogleSheets.GetRequestById | src/lib/services/google-sheets.ts:232-240 | none exactly when no request has the id; otherwise the first request with it |
| GoogleSheets.WithSector | src/lib/services/google-sheets.ts:248 | holds only experts of that sector taken from the list, and every expert of that sector |
| GoogleSheets.WithSectorKeepsOrder | src/lib/services/google-sheets.ts:248 | the selection is the order-preserving subsequence at exactly the positions with that sector |
| GoogleSheets.GetExpertsBySector | src/lib/services/google-sheets.ts:245-253 | every expert returned has that sector and is one `getExperts` returns, and every expert of that sector that `getExperts` returns is returned |
| GoogleSheets.GetExpertsBySectorKeepsOrder | src/lib/services/google-sheets.ts:245-253 | the result is the order-preserving subsequence of `getExperts` at exactly the positions with that sector |
| GoogleSheets.SectorSelectionExample | src/lib/services/google-sheets.ts:248 | three Technology experts among two Finance ones select the three, in order |
| SheetsHooks.SectorView | src/hooks/use-sheets-data.ts:25-28 | no filter or an empty one leaves the data unchanged; a non-empty one selects by sector |
| SheetsHooks.WithStatus | src/hooks/use-sheets-data.ts:63 | holds only requests of that status taken from the list, and every request of that status |
| SheetsHooks.WithStatusKeepsOrder | src/hooks/use-sheets-data.ts:61-64 | the selection is the order-preserving subsequence at exactly the positions with that status |
| SheetsHooks.StatusView | src/hooks/use-sheets-data.ts:61-64 | no filter leaves the data unchanged; a filter selects by status |
| SheetsHooks.StatsOf | src/hooks/use-sheets-data.ts:79-85 | total is the list length and each named count the number of requests with that status |
| SheetsHooks.StatusCountsBounded | src/hooks/use-sheets-data.ts:81-84 | the four counts sum to at most the total, and to exactly the total when and only when every status is one of the four named ones |
| SheetsHooks.CountUniform | src/hooks/use-sheets-data.ts:81-84 | copies of one request count fully towards its status and nowhere else |
| SheetsHooks.StatsExample | src/hooks/use-sheets-data.ts:79-85 | four matched, two completed and one declined request give counts 7, 0, 4, 2, 1 |
| SheetsHooks.StatsUnderStatusFilter | src/hooks/use-sheets-data.ts:61-85 | with a status filter active, that status's count is the total and another status's count is zero |
| SheetsHooks.ExpertsHook.constructor | src/hooks/use-sheets-data.ts:9-12 | no experts, loading, no error, refresh count zero |
| SheetsHooks.ExpertsHook.Refresh | src/hooks/use-sheets-data.ts:14-16 | the refresh count goes up by one and nothing else changes |
| SheetsHooks.ExpertsHook.Fetch | src/hooks/use-sheets-data.ts:19-37 | loading is false afterwards; on success the sector view replaces the list and the error clears; on failure the list stays and the error is the thrown message or the fixed one |
| SheetsHooks.RequestsHook.constructor | src/hooks/use-sheets-data.ts:50-53 | no requests, loading, no error |
| SheetsHooks.RequestsHook.Stats | src/hooks/use-sheets-data.ts:79-85 | the counts of the current list |
| SheetsHooks.RequestsHook.Fetch | src/hooks/use-sheets-data.ts:55-73 | loading is false afterwards; on success the status view replaces the list and the error clears; on failure the list stays and the error is the thrown message or the fixed one |
| ExpertForm.Position | src/components/forms/expert-form.tsx:32-43 | each field's place in the key order of the initial state |
| ExpertForm.FormData.With | src/components/forms/expert-form.tsx:246-249 | the named field takes the value and every other field keeps its own |
| ExpertForm.EmailShape | src/components/forms/expert-form.tsx:113-114 | the email pattern holds exactly when there is no whitespace, a single `@` not in front, and a `.` at least two characters after it and not last |
| ExpertForm.SplitHasShape | src/components/forms/expert-form.tsx:113-114 | a match of the pattern has its `@` and `.` placed as the character-level description says |
| ExpertForm.ShapeHasSplit | src/components/forms/expert-form.tsx:113-114 | an `@` and `.` placed as the character-level description says give a match of the pattern |
| ExpertForm.EmailAccepts | src/components/forms/expert-form.tsx:113-114 | `a@b.c` and `a@b.c.d` pass |
| ExpertForm.EmailRejects | src/components/forms/expert-form.tsx:113-114 | `a@b`, `a b@c.d` and `a@@b.c` fail |
| ExpertForm.PhoneOk | src/components/forms/expert-form.tsx:124-125 | the phone passes exactly when its digits number 2 to 15 and the first is 1 to 9 |
| ExpertForm.PhonePatternOnDigits | src/components/forms/expert-form.tsx:124 | on a digit string the pattern holds exactly when it has 2 to 15 characters and the first is 1 to 9 |
| ExpertForm.PhoneIgnoresSeparators | src/components/forms/expert-form.tsx:125 | text without digits before or after a phone does not change the verdict |
| ExpertForm.PhoneAccepts | src/components/forms/expert-form.tsx:124-125 | `12` and `+12` pass |
| ExpertForm.PhoneRejectsLeadingZero | src/components/forms/expert-form.tsx:124-125 | `01` fails |
| ExpertForm.PhoneRejectsOneDigit | src/components/forms/expert-form.tsx:124-125 | `+7` fails: one digit is too few |
| ExpertForm.SpaceBeforeNoCapitals | src/components/forms/expert-form.tsx:105 | a key with no capitals gets no spaces |
| ExpertForm.SpaceBeforeConcat | src/components/forms/expert-form.tsx:105 | space insertion works piece by piece |
| ExpertForm.SpaceBeforeOne | src/components/forms/expert-form.tsx:105 | a capital letter gets a space in front of it, any other character is kept |
| ExpertForm.LabelOfOneWord | src/components/forms/expert-form.tsx:105 | a key without later capitals is reported with its first letter upper-cased and nothing else changed |
| ExpertForm.Verdict.Message | src/components/forms/expert-form.tsx:100-145 | the toast description is empty only for an accepted form, and a missing field's message starts with that field's label |
| ExpertForm.LabelLinkedIn | src/components/forms/expert-form.tsx:105 | `linkedin` is reported as `Linkedin` |
| ExpertForm.ValidateForm | src/components/forms/expert-form.tsx:98-145 | a missing field is reported exactly when some field is empty, and it is the first empty one in key order; otherwise the email, phone and LinkedIn checks fail in that order; the form is accepted exactly when every field is filled and all three checks pass |
| ExpertForm.VerdictForUnique | src/components/forms/expert-form.tsx:98-145 | the description of `validateForm`'s outcome fixes a single verdict for each form |
| ExpertForm.NormalizePhone | src/components/forms/expert-form.tsx:159-161 | the submitted phone is always `+` followed by exactly the input's digits |
| ExpertForm.NormalizePhoneStable | src/components/forms/expert-form.tsx:159-161 | normalising twice is normalising once, and normalising keeps the phone verdict |
| ExpertForm.NormalizeLinkedIn | src/components/forms/expert-form.tsx:162-164 | the result starts with `http`; a value starting with `http` is kept, any other gets `https://` in front |
| ExpertForm.NormalizeLinkedInStable | src/components/forms/expert-form.tsx:162-164 | normalising twice is normalising once, and a value passing the LinkedIn check still passes after normalising |
| ExpertForm.BuildSubmission | src/components/forms/expert-form.tsx:156-165 | the submission carries the submission time, the normalised phone and LinkedIn, and every other field unchanged |
| ExpertForm.FormState.constructor | src/components/forms/expert-form.tsx:31-43 | the initial form (all empty, availability `Open To help`) and not loading |
| ExpertForm.FormState.HandleInputChange | src/components/forms/expert-form.tsx:246-249 | only the named field changes |
| ExpertForm.FormState.HandleSubmit | src/components/forms/expert-form.tsx:147-244 | a form failing validation is not posted, the reported verdict is the one `validateForm` reaches on it, and the state is untouched; otherwise the form is unchanged and not loading afterwards, and the posted body is the normalised submission stamped with the clock reading, with the browser's source and agent |

## Left out

- The network reads (`fetchSheetData`, `getSheetNames`) and the form's POST are not modelled as I/O. What a read returns is an input: tab names or rows, or a failure.
- The request URLs, the logging, and the parsing of HTTP and JSON responses are left out.
- The submission relay function and the handling of the relay's reply are left out. The reply is one input: whether the relay reported success.
- The success and error toasts, and the `onClose` callback, are left out.
- Local storage is modelled as a stored record. Its JSON serialisation is taken to round-trip.
- Clock readings (`new Date().toISOString()`, `Date.now()`) are parameters.
- `toLowerCase` is modelled for ASCII letters only. Full Unicode case mapping is not modelled.
- Cells are taken to be strings, as the values endpoint returns them. Non-string cell values, which would make `toLowerCase` throw, are not modelled.
- React effect scheduling, re-renders and the dependency lists that re-run a fetch are left out. `ExpertsHook.Fetch` and `RequestsHook.Fetch` model one run of the effect. `Refresh` models only the counter.
- The form's select options and markup are not modelled. `availability` is a string.
- Handler events are taken to name one of the ten fields. An unknown input name would add a key under `Object.keys`, and that is not modelled.
- The never-referenced sample user list is left out.
- Pages and UI components are left out, including the `formatDate` serial-date conversion on the requests page.
- `UserManagement.GetUsers` does not enforce the 99-row limit of the range `admin!A2:F100`. The remote applies it.
- GoogleSheets.GetExperts: its own contract only says the result is never empty; the decision chain is stated by `GoogleSheets.GetExpertsDecisions`.
- GoogleSheets.GetRequests: its own contract only says the result is never empty; the decision chain is stated by `GoogleSheets.GetRequestsDecisions`.
- UserManagement.GetUsers: one clock reading serves as the creation date of every row. The source reads the clock once per row, so two rows may get different dates.
- UserManagement.Session.AuthenticateUser: storage writes are taken never to fail. In the source, when `localStorage.setItem` throws, the user is already current, but `authenticateUser` returns null. The model's "a failure leaves the session unchanged" does not cover that case.
