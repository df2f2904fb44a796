# ASSIST call-centre rules, modelled in Dafny

ASSIST is a Next.js front end over Firebase. Two call agents (ZN001 and ZN002) log their calls and see their earnings; a finance admin issues salary payments and settles agents' balances. The storage, the authentication and the live queries belong to the Firebase SDK. The application's own logic is a layer of rules inside React components, and this project models that layer:

- **Salary ledger** (`salary.dfy`, module `Salary`). This covers the admin's issue form: its validation, settling an agent's pending balance (calls × ₹15 minus everything already paid), issuing a fixed amount, marking a payment as credited, and how a payment's status is displayed. Each agent's payments subcollection is a sequence inside a `SalaryLedger` object.
- **Call history** (`call_history.dfy`, module `CallHistory`). A snapshot of call records is grouped into per-day buckets; the daily groups are sorted, counted and numbered. This module also has the dialog that edits a call's outcome (`OutcomeEditor`).
- **Earnings card** (`earnings.dfy`, module `Earnings`). Earnings are ₹15 per call document, and the paid figure is the sum of all payment amounts. The two listeners are modelled as the handlers they install.
- **New call entry** (`call_entry_form.dfy`, module `CallEntryForm`). The field validator and the guarded append of a new record.
- **Access gating**:
  - the two-step gate before login (`pre_login.dfy`, `PreLogin`);
  - the admin code and the post-login redirect (`login.dfy`, `Login`);
  - the route guard (`protected_route.dfy`, `ProtectedRoute`);
  - the agent-id/localStorage synchronisation (`auth_provider.dfy`, `Auth`);
  - the header's initials, menu and logout (`header.dfy`, `Header`).
- **Shared pieces**:
  - the record types and enums of `src/lib/types.ts` (`types.dfy`, `Types`);
  - ASCII case folding (`ascii.dfy`, `Ascii`);
  - a stable descending sort standing for `Array.prototype.sort` with a `b - a` comparator (`sorting.dfy`, `Sorting`);
  - the browser's two key/value stores (`browser.dfy`, `Browser`).

Backend calls become plain state changes on sequences and maps. The source's component state becomes fields of classes; the model has one class per component that keeps state. Whether a backend call or a sign-in succeeds is a boolean parameter. Server timestamps and the ids the backend assigns to new documents are parameters too. Navigation is a returned `Route` value. A day is an abstract integer: whole days since the epoch of a call's millisecond timestamp.

Some notes on the source as written:

- The call-entry form appends to the collection named `agents` (src/components/call-entry-form.tsx:67). The call history and the earnings card read the collection named after the agent id. The model keeps the collection the form writes to; it does not connect that collection to the others.
- The history's "Success Ratio" is the share of calls that are *not* Resolved (src/components/call-history.tsx:70-71). The model names it by what it counts.
- The admin dashboard and the earnings card each declare a rate of 15 (src/app/admin/dashboard/page.tsx:36, src/components/earnings-display.tsx:15). The model keeps both constants. It proves that the earnings card's figures differ by exactly the amount the dashboard would settle.
- `SalaryPayment.amount` is declared as a number, but the admin dashboard (src/app/admin/dashboard/page.tsx:119, 196) and the earnings card (src/components/earnings-display.tsx:47) read it as `amount || 0`. The model therefore lets a stored amount be absent and counts it as 0.

## Model

| member | source | states |
|---|---|---|
| Types.ParseOutcome | src/lib/types.ts:10 | an outcome is exactly one of the three names; a parsed name prints back to itself, and any other string is rejected |
| Types.OutcomeNamesRoundTrip | src/lib/types.ts:10 | parsing an outcome's stored name gives back that outcome |
| Types.ParseAgent | src/app/admin/dashboard/page.tsx:27 | the agent field accepts exactly "ZN001" and "ZN002" |
| Types.AgentCodesRoundTrip | src/app/admin/dashboard/page.tsx:27 | parsing an agent's code gives back that agent |
| Ascii.LowerCharInverse | src/app/page.tsx:21 | the characters that lower-case to a non-upper character are that character and its upper-case letter |
| Ascii.UpperCharInverse | src/app/page.tsx:28 | the characters that upper-case to a non-lower character are that character and its lower-case letter |
| Ascii.LowerEquals | src/app/page.tsx:21 | a string lower-cases to a lower-case target iff it has the target's length and each position is the target's character in either case |
| Ascii.UpperEquals | src/app/page.tsx:28 | a string upper-cases to an upper-case target iff it has the target's length and each position is the target's character in either case |
| Sorting.Insert | src/components/call-history.tsx:68 | inserting adds exactly the one element to the multiset |
| Sorting.InsertSorted | src/components/call-history.tsx:68 | inserting into a descending sequence keeps it descending |
| Sorting.SortDesc | src/components/call-history.tsx:68-78 | the result is a permutation of the input, in descending key order |
| Sorting.SortDescKeepsEqualKeysInOrder | src/components/call-history.tsx:68 | elements whose keys are all equal keep their input order |
| Sorting.DistinctCounts | src/components/call-history.tsx:67 | in a sequence without repeats each element occurs at most once |
| Sorting.DistinctPermutation | src/components/call-history.tsx:67-78 | reordering a sequence without repeats (sorting the day keys) introduces none |
| Salary.FormAccepted | src/app/admin/dashboard/page.tsx:26-34 | the issue form is accepted iff the agent is ZN001 or ZN002, the purpose has at least 3 characters, a given amount is positive, and the admin is settling or gave a positive amount |
| Salary.FormIssues | src/app/admin/dashboard/page.tsx:26-34 | each message is reported independently: the agent one iff the agent is neither ZN001 nor ZN002, the amount one iff a given amount is not positive, the purpose one iff it is shorter than 3; the "amount required" rule only once the agent parsed, and then iff the admin neither settles nor gave a positive amount |
| Salary.TotalPaid | src/app/admin/dashboard/page.tsx:195-196 | the paid total of payments with non-negative amounts is non-negative, and it is 0 when no payment has an amount |
| Salary.Pending | src/app/admin/dashboard/page.tsx:191-198 | with nothing paid the pending balance is everything earned (15 per call); payments with non-negative amounts never raise it above that |
| Salary.SumPaid | src/app/admin/dashboard/page.tsx:195-196 | the accumulation loop computes the sum of all amounts, a missing amount counting 0, whatever the status |
| Salary.TotalPaidAppend | src/app/admin/dashboard/page.tsx:196 | one more payment adds exactly its amount (or 0) to the total |
| Salary.TotalPaidDependsOnAmountsOnly | src/app/admin/dashboard/page.tsx:196 | payments that agree on their amounts have the same total, whatever their statuses, purposes and dates; Cancelled payments count too |
| Salary.IssuedPayment | src/app/admin/dashboard/page.tsx:215-220 | a new payment carries its id and amount and has status Issued |
| Salary.IssueLowersPending | src/app/admin/dashboard/page.tsx:191-220 | issuing an amount lowers the pending balance by exactly that amount |
| Salary.SettlementIsIdempotent | src/app/admin/dashboard/page.tsx:191-220 | after settling a positive balance, nothing is pending at the same call count |
| Salary.Credit | src/app/admin/dashboard/page.tsx:63-67 | crediting sets the status of the payment with that id to Credited; every other field of it and every other payment are unchanged, and the length is kept |
| Salary.CreditKeepsPending | src/app/admin/dashboard/page.tsx:67 | crediting a payment never changes the pending balance |
| Salary.CreditOffered | src/app/admin/dashboard/page.tsx:126 | the "Mark as Credited" button is offered iff the status is missing, Issued or Cancelled |
| Salary.StatusVariant | src/app/admin/dashboard/page.tsx:84-93 | Credited is drawn in the default style, Issued in the secondary style, anything else (Cancelled or missing) in the outline style, and never in the destructive style |
| Salary.StatusLabel | src/app/admin/dashboard/page.tsx:122 | the badge reads "Issued" iff the status is Issued or missing, and otherwise names the status |
| Salary.CreditOfferedIffNotCreditedBadge | src/app/admin/dashboard/page.tsx:84-126 | the "Mark as Credited" button is shown exactly on rows whose status is not Credited, which are exactly the rows without the Credited badge style |
| Salary.MissingStatusDisplay | src/app/admin/dashboard/page.tsx:84-122 | a missing status is labelled "Issued" but drawn in the outline style; Issued is secondary, Cancelled is outline |
| Salary.CreditedNotOfferedAgain | src/app/admin/dashboard/page.tsx:126 | a credited payment no longer offers the button; other payments keep their button |
| Salary.SalaryLedger.Submit | src/app/admin/dashboard/page.tsx:182-220 | an invalid form writes nothing. A backend failure writes nothing. A settlement with pending ≤ 0 is refused and writes nothing. Otherwise exactly one Issued payment is appended to that agent's payments: the pending amount with purpose "Account Settlement", or the submitted amount and purpose. Its amount is positive, and the other agent's payments are unchanged. |
| Salary.SalaryLedger.MarkAsCredited | src/app/admin/dashboard/page.tsx:63-67 | the update succeeds iff the write succeeds and the payment exists; on success only that payment's status changes, and otherwise nothing changes |
| Salary.SettleTwice | src/app/admin/dashboard/page.tsx:191-220 | a second settlement right after a successful one, at the same call count, is refused with "no pending balance" |
| CallHistory.DayKeyOf | src/components/call-history.tsx:58 | a call lands in the Unknown Date bucket iff it has no timestamp |
| CallHistory.DayKeyIsDayOfTimestamp | src/components/call-history.tsx:58 | a dated call's bucket is the day its millisecond timestamp falls in |
| CallHistory.DayRank | src/components/call-history.tsx:78 | days rank by their number, and the undated bucket ranks below every day |
| CallHistory.TimeOf | src/components/call-history.tsx:68 | dated calls sort by their timestamp, and undated calls share one rank below every dated call |
| CallHistory.CallsOn | src/components/call-history.tsx:58-65 | a day's bucket holds only calls of the snapshot that fall on that day, and every such call |
| CallHistory.KeysInOrder | src/components/call-history.tsx:58-67 | the bucket keys have no repeats and are exactly the days (or Unknown Date) of the snapshot's calls |
| CallHistory.CallsOnSnoc | src/components/call-history.tsx:63 | one more call extends exactly its own day's bucket and no other |
| CallHistory.KeysInOrderSnoc | src/components/call-history.tsx:60-62 | a call on a day not yet seen opens a new key at the end |
| CallHistory.CallsOnAbsentKey | src/components/call-history.tsx:60-62 | a day not yet seen has an empty bucket |
| CallHistory.BucketsOfSnoc | src/components/call-history.tsx:58-64 | one step of the `reduce` (create the day's list the first time the day is met, then push the call) keeps the accumulator equal to the buckets and key order of the calls seen so far |
| CallHistory.PushOntoSeenDay | src/components/call-history.tsx:63 | pushing a call onto a day already seen keeps the key order and makes every list hold its day's calls |
| CallHistory.SeenDayKeepsOrder | src/components/call-history.tsx:60-63 | a call on a day already met leaves the key order unchanged |
| CallHistory.SeenDayKeepsKeys | src/components/call-history.tsx:60-63 | pushing onto a day already met opens no new list |
| CallHistory.PushedBucketsHoldTheirCalls | src/components/call-history.tsx:63 | after the push, every list is exactly its day's calls including the new one |
| CallHistory.PushOntoNewDay | src/components/call-history.tsx:60-63 | a call on a new day opens a list holding just that call and appends its key |
| CallHistory.GroupByDay | src/components/call-history.tsx:58-65 | the accumulating loop builds exactly one bucket per key, in first-seen order, each holding its day's calls in snapshot order |
| CallHistory.NewestFirst | src/components/call-history.tsx:68 | a group's calls are a permutation of its bucket, newest first |
| CallHistory.NonResolvedCount | src/components/call-history.tsx:70 | the Escalated plus Follow-up Required count is at most the number of calls, and it is 0 iff every call is Resolved |
| CallHistory.QuotientAtMostOne | src/components/call-history.tsx:71 | a count over a larger positive total lies in 0..1, is 0 iff the count is 0, and is 1 iff the two are equal |
| CallHistory.RatioPercent | src/components/call-history.tsx:71 | the ratio lies between 0 and 100. It is 0 for an empty group and 0 iff nothing is non-resolved; it is 100 iff every call is non-resolved |
| CallHistory.BuildDailyGroups | src/components/call-history.tsx:57-78 | the snapshot handler builds exactly the daily groups of the snapshot, with the corrected in-group sort (see Findings): as written, the handler throws on an Unknown Date bucket of two or more calls |
| CallHistory.SortedKeysAreBuckets | src/components/call-history.tsx:66-67 | every sorted key names a bucket, and that bucket holds exactly the key's calls |
| CallHistory.GroupsOfBucketsAreDailyGroups | src/components/call-history.tsx:66-78 | one group per sorted key, built from that key's bucket, is the whole view |
| CallHistory.MakeGroup | src/components/call-history.tsx:67-77 | a group carries its day and the bucket's calls rearranged newest first. Its total is the bucket's size, and its non-resolved count (the ratio's numerator) is at most that total |
| CallHistory.GroupsFor | src/components/call-history.tsx:66-76 | there is one group per key, in key order, built from that key's calls |
| CallHistory.SortedKeys | src/components/call-history.tsx:66-78 | the group dates are a rearrangement of the bucket keys, latest day first |
| CallHistory.DailyGroups | src/components/call-history.tsx:57-78 | the view has one group per sorted key; each holds that day's calls newest first, and its total is its size |
| CallHistory.SortedKeysFacts | src/components/call-history.tsx:67-78 | the groups' dates have no repeats, are in descending order, and are exactly the snapshot's days |
| CallHistory.DailyGroupsPartition | src/components/call-history.tsx:58-78 | the groups together hold exactly the snapshot's calls, none dropped and none duplicated |
| CallHistory.GroupShape | src/components/call-history.tsx:58-78 | every group is non-empty and holds only calls of its own day, newest first; its total is its size and its non-resolved count is at most that |
| CallHistory.GroupsLatestDayFirst | src/components/call-history.tsx:78 | groups run strictly from the latest day down |
| CallHistory.EveryCallHasItsGroup | src/components/call-history.tsx:58-65 | each call of the snapshot is in the group of its own day |
| CallHistory.NoCallInTwoGroups | src/components/call-history.tsx:58-65 | no call is in two different groups |
| CallHistory.DailyNumbersAreOneToN | src/components/call-history.tsx:206 | the daily numbers of a group of n calls are exactly 1..n, falling down the table |
| CallHistory.OldestCallIsNumberOne | src/components/call-history.tsx:206 | the last row is #1 and holds the oldest call; a higher number is never older |
| CallHistory.GroupRatioBounds | src/components/call-history.tsx:69-71 | every group's ratio lies in 0..100, and it is 0 iff all of the group's calls are Resolved |
| CallHistory.DailyNumber | src/components/call-history.tsx:206 | a row's daily number lies in 1..n, and it is 1 exactly on the last row |
| CallHistory.CompareAsWritten | src/components/call-history.tsx:68 | the comparator throws iff either call lacks a timestamp; otherwise it puts the first call first iff it is not older |
| CallHistory.InsertAsWritten | src/components/call-history.tsx:68 | an insertion step with the source's comparator, when it does not throw, adds exactly the inserted call; `InsertAsWrittenAgrees` and `InsertAsWrittenDated` say where it goes and when it cannot throw |
| CallHistory.SortBucketAsWritten | src/components/call-history.tsx:68 | the bucket sort with the source's comparator, when it does not throw, rearranges the bucket; `SortBucketAsWrittenThrowsExactly` says exactly when it throws and `SortBucketAsWrittenAgrees` that otherwise it is the corrected sort |
| CallHistory.InsertAsWrittenAgrees | src/components/call-history.tsx:68 | an insertion step that does not throw places the call where the corrected sort does |
| CallHistory.InsertAsWrittenDated | src/components/call-history.tsx:68 | inserting a dated call among dated calls never throws |
| CallHistory.SortBucketAsWrittenAgrees | src/components/call-history.tsx:68 | whenever the bucket sort as written does not throw, its result is the corrected sort's |
| CallHistory.SortBucketAsWrittenThrowsExactly | src/components/call-history.tsx:68 | the bucket sort as written throws iff the bucket has two or more calls and one of them lacks a timestamp |
| CallHistory.TwoUndatedCallsBreakTheHistory | src/components/call-history.tsx:59-68 | two calls without a timestamp share the Unknown Date bucket, and sorting it as written fails |
| CallHistory.UndatedBucketKeepsSnapshotOrder | src/components/call-history.tsx:68 | the corrected sort leaves the Unknown Date bucket in snapshot order |
| CallHistory.DatedBucketsUnaffected | src/components/call-history.tsx:68 | on every dated bucket the source's sort never throws and agrees with the corrected one |
| CallHistory.BadgeVariant | src/components/call-history.tsx:146-157 | Resolved is drawn in the default style, Escalated in the destructive style and Follow-up Required in the secondary style, each iff |
| CallHistory.BadgeVariantsDistinct | src/components/call-history.tsx:146-157 | each outcome has its own badge style, and none uses the fallback outline style |
| CallHistory.PlanUpdate | src/components/call-history.tsx:107-123 | a write is planned iff a call is selected and a new, different outcome is chosen; it writes that outcome and sets `edited` only if the call was not already edited |
| CallHistory.ApplyUpdate | src/components/call-history.tsx:116-125 | the record gets the new outcome; `edited` is set when requested and never cleared; no other field changes |
| CallHistory.EditMarksCallEdited | src/components/call-history.tsx:116-125 | after any edit that is written, the call is marked edited and has the new, different outcome |
| CallHistory.UpdateById | src/components/call-history.tsx:114-125 | the record with that id gets the update; every other record is unchanged; the length and every id are kept |
| CallHistory.OutcomeEditor.constructor | src/components/call-history.tsx:36-38 | the dialog starts closed with nothing selected and no outcome chosen |
| CallHistory.OutcomeEditor.OnCallsSnapshot | src/components/call-history.tsx:49-80 | a new snapshot replaces the list; the open dialog keeps the call it was opened on |
| CallHistory.OutcomeEditor.OpenEditDialog | src/components/call-history.tsx:92-104 | opening is refused, with nothing changed, exactly for a Resolved call; otherwise the call is selected, its outcome preselected and the dialog opened |
| CallHistory.OutcomeEditor.ChooseOutcome | src/components/call-history.tsx:254 | choosing an outcome in the select records it |
| CallHistory.OutcomeEditor.CloseDialog | src/components/call-history.tsx:266 | cancelling only closes the dialog |
| CallHistory.OutcomeEditor.UpdateOutcome | src/components/call-history.tsx:106-143 | the guard path only closes the dialog. Otherwise the update planned from the call as it was when the dialog opened is written to the record with its id when the backend accepts the write and the record still exists (a record deleted meanwhile makes the write fail), and the selection is cleared either way. A write happens only for a call that was not Resolved when its dialog opened. Records with other ids never change. When the selected call is still current, no Resolved record changes. `edited` is never cleared |
| CallHistory.StaleEditOverwritesResolved | src/components/call-history.tsx:92-125 | a call resolved by another writer while its dialog is open still gets the dialog's outcome written over Resolved |
| CallHistory.DeletedCallUpdateFails | src/components/call-history.tsx:106-143 | a call deleted by another writer while its dialog is open is not written, and the list stays as the snapshot left it |
| Earnings.TotalEarnings | src/components/earnings-display.tsx:34 | earnings are a non-negative multiple of 15, exactly 15 per call |
| Earnings.EarningsPerCall | src/components/earnings-display.tsx:34 | earnings are monotone in the call count, and each call adds exactly 15 |
| Earnings.EarningsMinusPaidIsPending | src/components/earnings-display.tsx:34-48 | the card's earnings minus its paid figure equal the dashboard's pending balance for the same data |
| Earnings.EarningsView.constructor | src/components/earnings-display.tsx:19-21 | the card starts at 0 and 0, loading |
| Earnings.EarningsView.Mount | src/components/earnings-display.tsx:23-29 | the effect always shows loading, and it subscribes iff the agent id is non-empty |
| Earnings.EarningsView.OnCallsSnapshot | src/components/earnings-display.tsx:33-35 | a call snapshot of n documents shows earnings of 15·n |
| Earnings.EarningsView.OnCallsError | src/components/earnings-display.tsx:36-39 | a failing call listener changes nothing |
| Earnings.EarningsView.OnSalarySnapshot | src/components/earnings-display.tsx:43-50 | a payments snapshot shows the sum of all amounts (missing as 0) and ends loading |
| Earnings.EarningsView.OnSalaryError | src/components/earnings-display.tsx:51-54 | a failing salary listener shows 0 paid and ends loading |
| Earnings.ShownBalance | src/components/earnings-display.tsx:31-50 | once both listeners have delivered, in either order, the card is loaded and earnings minus paid is the dashboard's pending amount; when the payments arrive first, loading ends while the card shows ₹0 earnings next to the paid total (earnings minus paid is then minus the paid total) |
| Earnings.NoAgentKeepsLoading | src/components/earnings-display.tsx:24-27 | without an agent id the card keeps loading and listens to nothing |
| CallEntryForm.CallFormIssues | src/components/call-entry-form.tsx:33-38 | each field rule is reported independently: an empty client name, phone or notes, and an outcome outside the three names |
| CallEntryForm.CallFormAccepted | src/components/call-entry-form.tsx:33-38 | the form is accepted iff name, phone and notes are non-empty and the outcome is one of the three names |
| CallEntryForm.DefaultFormFacts | src/components/call-entry-form.tsx:47-52 | the default outcome is Resolved; the untouched form fails exactly the three text rules |
| CallEntryForm.CallDocOf | src/components/call-entry-form.tsx:67-71 | the written record carries the user's uid, the save time and the chosen outcome |
| CallEntryForm.DocRecordsForm | src/components/call-entry-form.tsx:67-71 | the submitted values can be read back from the record, and the values read back validate |
| CallEntryForm.CallEntryFormState.constructor | src/components/call-entry-form.tsx:45-53 | the form starts at its default values, not loading |
| CallEntryForm.CallEntryFormState.Edit | src/components/call-entry-form.tsx:97-160 | typing into the form sets its values and nothing else |
| CallEntryForm.CallEntryFormState.Submit | src/components/call-entry-form.tsx:55-87 | invalid values are rejected and nothing is written. With no user, nothing is written and an error is reported. A failed write keeps the values. A save appends exactly the record for the values, uid and time, then resets the form |
| CallEntryForm.SubmitCountsRecords | src/components/call-entry-form.tsx:55-87 | a submission adds one record iff the values validate, a user is signed in and the write succeeds, and none otherwise |
| Auth.AuthProvider.constructor | src/components/auth-provider.tsx:14-16 | no user, no agent id, loading |
| Auth.AuthProvider.SetAgentId | src/components/auth-provider.tsx:37-44 | a non-empty id is stored and every other argument removes the key; the state takes the argument, so state and store agree except after `setAgentId("")` |
| Auth.AuthProvider.OnAuthStateChanged | src/components/auth-provider.tsx:19-31 | a sign-in takes the stored id; a sign-out removes it and clears the state. Loading becomes false and stays false, and state and store agree |
| Auth.SignInEitherOrder | src/components/auth-provider.tsx:19-44 | the auth callback and `setAgentId` reach the same id and stored value in either order |
| Auth.RestoreSession | src/components/auth-provider.tsx:21-24 | a returning signed-in user gets back the id stored in the tab, or none |
| PreLogin.Step1Accepts | src/app/page.tsx:20-24 | step 1 accepts exactly the spellings of "unicorn" in any mix of letter cases |
| PreLogin.Step2Accepts | src/app/page.tsx:27-31 | step 2 accepts exactly the spellings of "ZYNQ50" in any mix of letter cases |
| PreLogin.SampleCodes | src/app/page.tsx:21-30 | mixed case is accepted, while extra spaces and look-alike characters are refused |
| PreLogin.PreLoginPage.constructor | src/app/page.tsx:37-39 | the page starts at step 1, checking the session |
| PreLogin.PreLoginPage.CheckSession | src/app/page.tsx:41-47 | a tab with the flag set to "true" is sent to /login and never shown the steps; otherwise the steps are shown |
| PreLogin.PreLoginPage.SubmitStep1 | src/app/page.tsx:60-71 | step 1 moves to step 2 iff its code is accepted |
| PreLogin.PreLoginPage.SubmitStep2 | src/app/page.tsx:73-84 | the flag is set to "true" and /login requested iff the step 2 code is accepted; otherwise nothing changes |
| PreLogin.FirstVisit | src/app/page.tsx:37-84 | on a first visit, step 2 is reached iff code 1 is accepted, and the flag ends up set iff both codes are accepted |
| PreLogin.ReturningVisit | src/app/page.tsx:41-47 | a tab that already passed redirects to /login without showing the steps |
| Login.RedirectTarget | src/app/login/page.tsx:44-53 | once loading is over, a user with a non-empty agent id goes to /dashboard; otherwise a user with the admin flag goes to /admin/dashboard; otherwise there is no redirect |
| Login.AgentSessionTakesPrecedence | src/app/login/page.tsx:47-51 | an agent session wins over an admin flag |
| Login.AdminCodeIsCaseSensitive | src/app/login/page.tsx:77 | the admin code comparison is exact: a lower-case spelling or a trailing space is refused |
| Login.LoginPage.constructor | src/app/login/page.tsx:39-42 | no spinner, dialog closed, empty code, no error |
| Login.LoginPage.TypeSecretCode | src/app/login/page.tsx:187 | typing into the code field sets the code and nothing else |
| Login.LoginPage.HandleAdminLogin | src/app/login/page.tsx:75-95 | the admin flag is written and the dialog closed iff the code is exactly "BPCS2030" and the sign-in succeeds; otherwise the dialog stays as it was. A wrong code sets the error and changes nothing else, and the agent id store is never touched |
| Login.LoginPage.HandleAgentLogin | src/app/login/page.tsx:56-73 | the agent id is set and stored iff the sign-in succeeds; on failure the agent id, its store and the session are untouched and the spinner stops; the admin dialog, the code and its error are never touched |
| Login.AgentLoginReachesDashboard | src/app/login/page.tsx:44-73 | a successful agent login followed by the auth callback redirects to /dashboard |
| Login.AdminLoginReachesAdminDashboard | src/app/login/page.tsx:44-95 | starting signed out (so that the sign-in fires the auth callback), the right admin code with a successful sign-in redirects to /admin/dashboard in a tab with no agent id |
| Login.WrongAdminCodeStays | src/app/login/page.tsx:44-94 | signed out, or signed in without an agent id, a wrong admin code gives the error, no redirect and an unchanged session store |
| ProtectedRoute.Guard | src/components/protected-route.tsx:17-31 | the children render iff loading is over and there is a user with a non-empty agent id. The guard redirects iff loading is over and one of them is missing. It never does both, and it does neither while loading |
| ProtectedRoute.NoAgentNoContent | src/components/protected-route.tsx:18-31 | a signed-in user without a non-empty agent id never sees the protected pages |
| Header.Initials | src/components/header.tsx:35-38 | no id (or "") gives "A"; otherwise the result is the first two characters, or the only one, upper-cased |
| Header.InitialsOfAgents | src/components/header.tsx:35-38 | both agent codes give "ZN"; a one-character id gives that character upper-cased |
| Header.MenuVisible | src/components/header.tsx:47 | the menu shows exactly when the route guard, once loading is over, would render the protected pages |
| Header.MenuShowsAgentInitials | src/components/header.tsx:47-53 | whenever the menu shows, the avatar holds one or two characters, starting with the agent id's first character upper-cased |
| Header.Logout | src/components/header.tsx:26-33 | a successful logout signs out, clears the agent id and its stored key, removes the admin flag, hides the menu and goes to /login; a failed sign-out changes nothing and navigates nowhere |
| Header.LogoutEndsBothSessions | src/components/header.tsx:26-33 | after logout the login page redirects neither to the agent nor to the admin dashboard |
| Header.FailedLogoutKeepsSession | src/components/header.tsx:26-33 | when the sign-out fails, the agent stays signed in, the menu stays and there is no navigation |

## Left out

- The Firebase SDK (`addDoc`, `updateDoc`, `getDocs`, `onSnapshot`, `signInAnonymously`, `signOut`) is not modelled. It is a foreign library, so collections are sequences and maps, and success is a parameter.
- Subscription set-up and clean-up are not modelled. In the model a listener is just the handler it runs.
- The Firestore query order (`orderBy`) is not modelled. The grouping is proved for any snapshot order.
- `serverTimestamp` is not modelled. Timestamps and new document ids are parameters.
- Rendering, toasts and router navigation are not modelled. Navigation is a returned `Route`.
- The `isUpdating` spinner and `disabled` button states of the history and the ledger are not modelled, nor the salary form's reset and dialog close after a payment. They do not affect the stored data.
- The `setTimeout` delays on the gate page are not modelled. A step takes effect at once, and timing does not change the transitions.
- The history's group header formats `new Date(date)` (src/components/call-history.tsx:175). For the Unknown Date key this is an invalid date, which the date formatter refuses, so even one undated call breaks the rendered history. Rendering is not modelled, so neither is this.
- Date and number formatting are left out. A day is whole days since the epoch of the call's timestamp, so the viewer's time zone is not modelled.
- The position of the Unknown Date group among the groups is not modelled as written. The source's group comparator computes `new Date('Unknown Date')`, gives NaN, and the resulting position is implementation-defined. The model puts that group last.
- The ratio's floating-point percentage and `toFixed(1)` are not modelled. `CallHistory.RatioPercent` is the exact rational.
- String lengths count characters (code points), not the UTF-16 code units that the source's `min(3)`, `min(1)` and `substring(0, 2)` count. The two differ only for characters outside the Basic Multilingual Plane.
- Unicode case mapping is not modelled. `toLowerCase` and `toUpperCase` are ASCII case folding.
- Non-integer payment amounts are not modelled. Amounts are integer rupees.
- The ₹5 edit bonus is not modelled. Only a toast mentions it; no amount is written and earnings ignore it.
- Header.Logout: `signOut`'s auth callback is taken to run before `setAgentId(null)`. If it ran later, the end state would be the same, since both clear the agent id and its key.
- CallHistory.OutcomeEditor.UpdateOutcome: the "Resolved records never change" guarantee is stated only when the selected call is still the current record. The source checks the status when the dialog opens, so a call resolved by another writer while the dialog is open is overwritten (`CallHistory.StaleEditOverwritesResolved`).
- Login.RedirectTarget: the redirect is evaluated after each modelled step. The source's effect re-runs only when `user`, `agentId` or `loading` change. An admin sign-in in a tab whose anonymous user is already signed in writes the flag, but it changes none of those, so the redirect waits for the next change.
- Salary.SalaryLedger.Submit: one `backendOk` flag covers the two reads and the write, which all fall into the same catch. A failure between the reads and the write is not told apart. The two reads and the write are also modelled as one atomic step, although the source awaits between them (src/app/admin/dashboard/page.tsx:188-220). Two settlements of one agent that interleave, for example from two admin tabs, can both read the same pending balance and both pay it; that race is not modelled. `SettlementIsIdempotent` and `SettleTwice` hold only for settlements run one after the other.
- The salary log page is not part of this model. Unlike the dashboard and the card, it reads `payment.amount.toLocaleString()` with no fallback (src/app/dashboard/salary-log/page.tsx:109), so a stored payment without an amount breaks that page.
- The dashboard layout and page, the admin salary page, the root layout, the Firebase configuration and the default auth context are not part of this model. They hold composition, redirects or configuration.

## Findings

| source | as written | input that shows it | evidently intended | confidence | as-written member | corrected member |
|---|---|---|---|---|---|---|
| src/components/call-history.tsx:68 | the in-group sort calls `createdAt.toMillis()` on both calls, though line 58 expects `createdAt` to be missing (it files such calls under 'Unknown Date'). `CallHistory.SortBucketAsWrittenThrowsExactly` shows that the sort throws exactly on a bucket of two or more calls with an undated one. The header at line 175 would refuse the Unknown Date key as well (see Left out) | a snapshot holding two calls whose server timestamp is not yet filled in: both go to the Unknown Date bucket, and sorting it dereferences a missing timestamp, so the snapshot handler throws and the history never updates | undated calls are kept, in snapshot order, in the Unknown Date group | not executed; medium (depends on pending server timestamps being read as absent) | CallHistory.TwoUndatedCallsBreakTheHistory | CallHistory.UndatedBucketKeepsSnapshotOrder |
