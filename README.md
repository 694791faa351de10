# MuscleDesk gym management: a verified model of its core

MuscleDesk is a web application a gym owner uses to keep members, payments,
plans and attendance. This project models in Dafny the parts of it that hold
behaviour that can be stated exactly, and proves properties of that model:

- **Member status and renewal reminders** (`StatusEngine`, status.dfy). A
  member is expired, expiring or active depending on the whole days left until
  expiry. The reminders list holds the members with 1 to 7 days left. It is
  sorted by days left with ties in input order, as `Array.prototype.sort` is
  stable.
- **The fetched snapshot** (`Snapshot`, snapshot.dfy). A fetch recomputes every
  member's status. A payment status defaults to "done", a missing sub-result
  becomes an empty list, and the owner name falls back step by step.
- **The optimistic-update cache** (`Cache`, cache.dfy). Class `GymCache` holds
  the cached snapshot. Each `dispatch` action is a method. The store's answer
  is a `Reply` parameter and every write sent to the store is logged. Each
  action publishes the optimistic snapshot, then either the confirmed one
  (built from the snapshot captured at dispatch start) or an error toast with
  a refetch request. The source's quirks are kept:
  - DELETE_MEMBER has no sign-in guard and fails on the null user;
  - a renewal sends snake_case keys, so the store receives no dates;
  - ADD_PAYMENT omits the plan name from the insert.
- **Page logic.**
  - `MembersPage` (members_page.dfy): search, filter, the add/edit form and renewal.
  - `AttendancePage` (attendance_page.dfy): the selected day's records, the attendance
    rate, check-in guards, the CSV export, and the QR and manual check-in handlers.
  - `EmailPortal` (email_portal.dfy): the address list, the copied text and the CSV data.
  - `OnlinePaymentsPage` (online_payments.dfy): the payment-link form, including
    `Number.parseInt`.
  - `NotificationJson` and `SettingsPage` (settings_page.dfy): the notification flags
    stored as JSON, password validation, the profile save and the Excel rows.
- **The invoice** (`Invoice`, invoice.dfy). The HTML document is built section by section.
- **The AI recommendations route** (`Recommendations`, recommendations.dfy). It computes
  the member counts, revenue and average payment, builds the prompt and gives the
  200/500 response.

Shared helpers:

- `Wrappers` and `Text` (text.dfy): JavaScript's `||`, `includes`, `join`,
  `split`, `toLowerCase`, `toUpperCase`, `${n}` and `toLocaleString`.
- `ListOps` (listops.dfy): `filter`, `map` by id and `find`.
- `Entities` (entities.dfy): the records.

Conventions used throughout:

- Dates are whole day numbers (days since the epoch). Instants are milliseconds.
- Adding months is a function parameter `addMonths`.
- The clock, random suffixes, remote answers and the text generator are parameters.
- Amounts are integers.
- Stateful page handlers are classes whose fields are the component's state
  variables, plus logs of the toasts shown and the requests sent.

## Model

| member | source | states |
|---|---|---|
| Wrappers.OrElse | hooks/useGymData.ts:209 | `a \|\| b` on an optional string is `a` exactly when `a` is a non-empty string, otherwise `b` |
| Text.Lower | components/pages/Members.tsx:106-107 | `toLowerCase` keeps the length and lowers each ASCII letter in place |
| Text.Upper | lib/invoice-generator.tsx:241 | `toUpperCase` keeps the length and raises each ASCII letter in place |
| Text.JoinContains | components/pages/MembersEmailPortal.tsx:16 | every part occurs in the joined text |
| Text.JoinAvoids | components/pages/Attendance.tsx:189-190 | a character absent from the parts and the separator is absent from the join |
| Text.IndexOf | hooks/useGymData.ts:222 | the position found is the first occurrence of the character, or the length when there is none |
| Text.Split | hooks/useGymData.ts:222 | `split` on one character always yields at least one part |
| Text.SplitJoin | components/pages/Attendance.tsx:189-190 | splitting a join at its separator gives the parts back when no part holds the separator |
| Text.NatToString | hooks/useGymData.ts:145 | `${n}` is a non-empty run of decimal digits |
| Text.NatToStringValue | hooks/useGymData.ts:145 | the printed digits read back as the number |
| Text.Grouped | lib/invoice-generator.tsx:31-32 | `toLocaleString` of a whole number is never empty |
| Text.ThreeDigits | lib/invoice-generator.tsx:31-32 | a group below 1000 is three digits whose value is the number |
| Text.GroupedValue | lib/invoice-generator.tsx:31-32 | with the group commas removed, the locale rendering is digits reading back as the number |
| Text.ConcatMapAppend | lib/invoice-generator.tsx:25-36 | `map(f).join("")` of a concatenation is the concatenation of the two renderings |
| Text.ConcatMapSingle | lib/invoice-generator.tsx:25-36 | one element renders as its own text |
| Text.ConcatMapContains | lib/invoice-generator.tsx:25-36 | every element's text occurs in the rendering |
| Entities.StatusName | hooks/useGymData.ts:114-124 | a status is stored as "active", "expiring" or "expired" |
| Entities.StatusNameInjective | hooks/useGymData.ts:114-124 | two statuses have the same text exactly when they are equal |
| ListOps.WithoutAppend | hooks/useGymData.ts:477 | filtering out an id distributes over concatenation, so order is kept |
| ListOps.WithoutCorrect | hooks/useGymData.ts:477 | the result holds exactly the entries without that id; its length drops by the number of entries with it |
| ListOps.WithoutAbsent | hooks/useGymData.ts:477 | filtering out an id nobody carries changes nothing |
| ListOps.WithoutIdempotent | hooks/useGymData.ts:477 | deleting twice is deleting once |
| ListOps.FilterAppend | components/pages/Attendance.tsx:28-30 | `filter` distributes over concatenation, so order is kept |
| ListOps.FilterCorrect | components/pages/Attendance.tsx:28-30 | an entry is kept exactly when it is in the list and passes the test; the result is no longer |
| ListOps.FilterAll | components/pages/Attendance.tsx:28-30 | a test every entry passes keeps the whole list |
| ListOps.ReplaceWhere | hooks/useGymData.ts:421-423 | mapping by id keeps the length |
| ListOps.ReplaceWhereCorrect | hooks/useGymData.ts:421-423 | entries with the id are replaced by the merge, every other entry is unchanged, and an absent id changes nothing |
| ListOps.FindFirst | hooks/useGymData.ts:489 | `find` returns an entry of the list passing the test, and nothing exactly when none passes |
| ListOps.FindFirstIsEarliest | hooks/useGymData.ts:512 | the entry found comes before every other passing entry |
| StatusEngine.CeilDiv | hooks/useGymData.ts:119 | `Math.ceil(a / b)` is the integer q with (q-1)·b < a ≤ q·b |
| StatusEngine.DaysLeftAgrees | hooks/useGymData.ts:115-119 | the ceiling of the millisecond difference of two midnights is the difference of their day numbers |
| StatusEngine.Classify | hooks/useGymData.ts:121-123 | expired iff daysLeft < 0, expiring iff 0 ≤ daysLeft ≤ 7, active iff daysLeft > 7 |
| StatusEngine.ClassifyMonotone | hooks/useGymData.ts:114-124 | more days left never gives a worse status |
| StatusEngine.MemberStatus | hooks/useGymData.ts:114-124 | a date gives the classification of its days left; an invalid date gives "active" |
| StatusEngine.PlanLabel | hooks/useGymData.ts:145 | the plan label is the months followed by " month", with "s" exactly when months > 1 |
| StatusEngine.ToReminder | hooks/useGymData.ts:137-149 | a reminder copies the member's id, name and phone, has that member's days left, status "pending" and the plan label |
| StatusEngine.WithDaysLeftAppend | hooks/useGymData.ts:150 | the reminders with a given daysLeft, in order, distribute over concatenation |
| StatusEngine.InsertBound | hooks/useGymData.ts:150 | inserting into a list bounded below keeps the bound |
| StatusEngine.InsertPermutes | hooks/useGymData.ts:150 | insertion adds exactly the inserted reminder |
| StatusEngine.InsertSorted | hooks/useGymData.ts:150 | insertion keeps the list sorted by daysLeft |
| StatusEngine.InsertWithDaysLeft | hooks/useGymData.ts:150 | insertion places the reminder before the others with the same daysLeft |
| StatusEngine.SortByDaysLeftCorrect | hooks/useGymData.ts:150 | the sort is non-decreasing in daysLeft, a permutation, and stable |
| StatusEngine.SortIsSorted | hooks/useGymData.ts:150 | the sorted list is non-decreasing in daysLeft |
| StatusEngine.SortPermutes | hooks/useGymData.ts:150 | the sorted list is a permutation of the input |
| StatusEngine.SortIsStable | hooks/useGymData.ts:150 | reminders with equal daysLeft keep their input order |
| StatusEngine.CandidatesAppend | hooks/useGymData.ts:130-149 | filter-then-map distributes over concatenation |
| StatusEngine.CandidatesMembers | hooks/useGymData.ts:131-149 | a reminder is a candidate exactly when it is the reminder of a member in the 1-7 day window |
| StatusEngine.CandidatesInWindow | hooks/useGymData.ts:131-136 | every candidate has 0 < daysLeft ≤ 7 and status "pending" |
| StatusEngine.RemindersCorrect | hooks/useGymData.ts:126-151 | the reminders are the candidates sorted, permuted and stably ordered, all in the window and pending |
| StatusEngine.ReminderIffWindow | hooks/useGymData.ts:126-136 | a member has a reminder exactly when 0 < daysLeft ≤ 7 |
| StatusEngine.ReminderHasMember | hooks/useGymData.ts:137-149 | every reminder stands for a member in the window and carries that member's data |
| StatusEngine.DueTodayHasNoReminder | hooks/useGymData.ts:114-136 | a member due today is "expiring" yet has no reminder |
| Snapshot.BeforeAt | hooks/useGymData.ts:222 | the part before "@" is the first piece of `split("@")` and holds no "@" |
| Snapshot.OwnerName | hooks/useGymData.ts:222 | the owner name is never empty |
| Snapshot.OwnerNameFallbacks | hooks/useGymData.ts:222 | without a profile name: the metadata name, else a non-empty e-mail local part, else "User" |
| Snapshot.MakeUserData | hooks/useGymData.ts:220-227 | the user record has the account id, non-empty owner, gym name and role, "My Gym" and "owner" standing in for empty values |
| Snapshot.FetchNormalises | hooks/useGymData.ts:198-238 | statuses recomputed for every member; payment status kept or "done"; counts and order kept; missing results empty; reminders from the recomputed members |
| Snapshot.RecomputeIdempotent | hooks/useGymData.ts:205-216 | recomputing statuses twice is recomputing once, and the reminders ignore the stored status |
| Snapshot.CandidatesIgnoreStatus | hooks/useGymData.ts:126-149 | lists differing only in status give the same reminders |
| Cache.GymCache.constructor | hooks/useGymData.ts:302-314 | the cache starts empty with no writes, no toasts and no refetch pending |
| Cache.GymCache.Revalidate | hooks/useGymData.ts:302-314 | with an account the snapshot becomes the fetch result; without one nothing is fetched |
| Cache.GymCache.Logout | hooks/useGymData.ts:331-337 | the account is dropped and its snapshot cleared when there was one |
| Cache.GymCache.AddMember | hooks/useGymData.ts:342-413 | not signed in: a toast and no change. Otherwise the temp member (its QR token and temp id from two separate clock readings) is put first; on success the stored row replaces it, the insert and log are written and a toast shown; on failure an error toast and a refetch |
| Cache.GymCache.UpdateMemberAction | hooks/useGymData.ts:416-473 | only members with the id are merged, both optimistically and with the stored row over the snapshot captured at the start; the update carries the status from `expiryDate` |
| Cache.GymCache.DeleteMemberAction | hooks/useGymData.ts:476-503 | without an account it fails before publishing; otherwise every member with the id is dropped, with no owner filter, and the log names the member when found |
| Cache.GymCache.AddPayment | hooks/useGymData.ts:506-571 | an unknown member name only shows "Member not found": no write, no change; otherwise a "done" payment for the first member with that name is put first, then replaced by the stored row |
| Cache.GymCache.UpdatePaymentAction | hooks/useGymData.ts:574-624 | only payments with the id change, first by merging and then to the stored row; the update is restricted to the owner |
| Cache.GymCache.DeletePaymentAction | hooks/useGymData.ts:627-653 | every payment with the id is dropped and the others kept in order |
| Cache.GymCache.AddPlan | hooks/useGymData.ts:656-710 | the temp plan is put first, with missing features as an empty list, then replaced by the stored row |
| Cache.GymCache.UpdatePlanAction | hooks/useGymData.ts:713-761 | only plans with the id change, first by merging and then to the stored row |
| Cache.GymCache.DeletePlanAction | hooks/useGymData.ts:764-790 | every plan with the id is dropped and the others kept in order |
| Cache.GymCache.UpdateProfileAction | hooks/useGymData.ts:798-820 | the snapshot is untouched; success asks for a refetch, failure shows its own message |
| Cache.ConfirmedInsertList | hooks/useGymData.ts:395 | the confirmed list is the stored row, then every earlier entry except the temp id, with its length |
| Cache.TempIdInjective | hooks/useGymData.ts:353 | two temp ids are equal exactly when the clock readings are |
| Cache.DeleteMemberEffect | hooks/useGymData.ts:477-483 | after a delete no member or reminder carries the id, and every other member remains |
| Cache.EditMerge | hooks/useGymData.ts:418-423 | an edit shows the new name, e-mail, phone and status but keeps the row's old dates; the store gets the new expiry |
| Cache.RenewMerge | hooks/useGymData.ts:418-447 | a renewal shows the new dates and "active", but the store receives no dates |
| MembersPage.FilteredMembersCorrect | components/pages/Members.tsx:104-111 | a member is listed iff name or e-mail contains the term ignoring case, or the phone contains it, and the status filter passes |
| MembersPage.FilteredMembersAppend | components/pages/Members.tsx:104-111 | the listed members keep their order |
| MembersPage.EmptySearchListsAll | components/pages/Members.tsx:104-111 | an empty search with "all" lists every member |
| MembersPage.SubmitActionDates | components/pages/Members.tsx:116-147 | expiry is the joining day plus the plan's months (1 if no plan is found) and the same months are sent; UPDATE iff editing, with the editing id |
| MembersPage.RenewChanges | components/pages/Members.tsx:189-209 | a renewal is produced exactly when a member has that id |
| MembersPage.RenewHidesButton | components/pages/Members.tsx:189-209 | the renewal carries the member's data and today's dates, and the merged row is active, so renew is no longer offered |
| MembersPage.MembersView.constructor | components/pages/Members.tsx:17-32 | empty search, "all" filter, modal closed, not editing, blank form |
| MembersPage.MembersView.OpenAdd | components/pages/Members.tsx:280-291 | a blank form preset to the first plan, editing cleared, modal open |
| MembersPage.MembersView.Edit | components/pages/Members.tsx:166-177 | the member's fields fill the form with the first plan's id; editing that id; modal open |
| MembersPage.MembersView.Submit | components/pages/Members.tsx:113-164 | an incomplete form does nothing; a complete one yields its action, ends an edit, resets the form and closes the modal |
| AttendancePage.TodayAttendanceCorrect | components/pages/Attendance.tsx:28-34 | exactly the records of the selected day are kept, so the number present never exceeds the records |
| AttendancePage.AttendanceRate | components/pages/Attendance.tsx:33-35 | 0 without members, else the integer nearest the exact rate present/total·100 (exact halves up), within 0..100 |
| AttendancePage.CheckedInMemberDisabled | components/pages/Attendance.tsx:372-389 | a member with a record that day has the check-in button disabled |
| AttendancePage.SearchMembersCorrect | components/pages/Attendance.tsx:201-203 | a member is found iff the name contains the query ignoring case or the phone contains it |
| AttendancePage.CsvRow | components/pages/Attendance.tsx:179-187 | name and time from the record; an unknown member gives "-" and "active", a known one with a phone gives its phone and status |
| AttendancePage.ExportCsvReadsBack | components/pages/Attendance.tsx:176-190 | split at line breaks and commas, the export is the header then one row per record of the day |
| AttendancePage.LineReadsBack | components/pages/Attendance.tsx:189 | a row of plain cells joins without a line break and splits back into its cells |
| AttendancePage.HeaderPlain | components/pages/Attendance.tsx:178 | the header cells hold no comma or line break |
| AttendancePage.StatusNamePlain | components/pages/Attendance.tsx:185 | a status text holds no comma or line break |
| AttendancePage.RowPlain | components/pages/Attendance.tsx:179-187 | a row built from plain fields has plain cells |
| AttendancePage.IssuedTokenScans | components/pages/Attendance.tsx:71 | an issued token passes the "MDQR_" check exactly when the account id starts with "MDQR_" |
| AttendancePage.ScanNotice | components/pages/Attendance.tsx:91-119 | the scan toast is destructive exactly when the call did not succeed |
| AttendancePage.InsertNotice | components/pages/Attendance.tsx:135-149 | the insert toast is destructive exactly when the insert failed |
| AttendancePage.AttendanceView.constructor | components/pages/Attendance.tsx:18-24 | not loading, not scanning, no scanner, empty id, nothing sent |
| AttendancePage.AttendanceView.HandleQrCodeScan | components/pages/Attendance.tsx:69-123 | no prefix: toast and no call. Otherwise one call, loading cleared, scanner released only on success |
| AttendancePage.AttendanceView.RecordAttendance | components/pages/Attendance.tsx:125-153 | one insert, one toast for its outcome, loading cleared |
| AttendancePage.AttendanceView.HandleManualCheckIn | components/pages/Attendance.tsx:155-174 | empty or unknown id: nothing. Already in that day: a notice and no insert. Else one insert and the id cleared |
| AttendancePage.ManualCheckInOncePerDay | components/pages/Attendance.tsx:160-170 | when the guard lets an insert through, the member has no record that day |
| EmailPortal.AllEmailsAppend | components/pages/MembersEmailPortal.tsx:13 | the address list distributes over concatenation, so member order is kept |
| EmailPortal.AllEmailsCorrect | components/pages/MembersEmailPortal.tsx:13 | exactly the non-empty addresses, never more than the members, one per member when none is empty |
| EmailPortal.CopyTextHasEveryEmail | components/pages/MembersEmailPortal.tsx:16 | every listed address occurs in the copied text |
| EmailPortal.CsvContentReadsBack | components/pages/MembersEmailPortal.tsx:28 | the data is the prefix followed by the addresses, one per line |
| EmailPortal.CsvContentWithoutAddresses | components/pages/MembersEmailPortal.tsx:13-28 | with no non-empty address the list is empty and the data is the prefix alone |
| EmailPortal.EmailPortalView.constructor | components/pages/MembersEmailPortal.tsx:10 | not copied, empty clipboard, no alerts |
| EmailPortal.EmailPortalView.CopyAll | components/pages/MembersEmailPortal.tsx:15-25 | `copied` is set only after a successful write; a failure alerts instead |
| EmailPortal.EmailPortalView.CopiedExpired | components/pages/MembersEmailPortal.tsx:20 | the timer clears `copied` only |
| OnlinePaymentsPage.TrimStart | components/pages/OnlinePayments.tsx:72 | the leading white space is removed and the result is a suffix |
| OnlinePaymentsPage.DecimalRun | components/pages/OnlinePayments.tsx:72 | the longest prefix of decimal digits |
| OnlinePaymentsPage.HexRun | components/pages/OnlinePayments.tsx:72 | the longest prefix of hexadecimal digits |
| OnlinePaymentsPage.HexDigit | components/pages/OnlinePayments.tsx:72 | a hexadecimal digit's value is below 16 |
| OnlinePaymentsPage.ParseMagnitude | components/pages/OnlinePayments.tsx:72 | a magnitude is read only from text starting with a digit |
| OnlinePaymentsPage.DecimalRunAppend | components/pages/OnlinePayments.tsx:72 | digits followed by a non-digit form a run of exactly their length |
| OnlinePaymentsPage.ParseMagnitudeDigits | components/pages/OnlinePayments.tsx:72 | printed digits followed by a non-digit read back as the number |
| OnlinePaymentsPage.ParseIntUnsigned | components/pages/OnlinePayments.tsx:72 | text starting with a digit is read from its first character |
| OnlinePaymentsPage.ParseIntNegative | components/pages/OnlinePayments.tsx:72 | a minus sign negates the magnitude |
| OnlinePaymentsPage.ParseIntReadsNatural | components/pages/OnlinePayments.tsx:72 | `parseInt` reads back a printed natural number |
| OnlinePaymentsPage.ParseIntReadsNegated | components/pages/OnlinePayments.tsx:72 | `parseInt` reads back a printed negative number |
| OnlinePaymentsPage.ParseIntReadsInteger | components/pages/OnlinePayments.tsx:72 | `parseInt` reads back `${i}` for any integer, whatever non-digit text follows |
| OnlinePaymentsPage.ParseIntNoDigits | components/pages/OnlinePayments.tsx:72 | text with no hexadecimal-digit character is NaN |
| OnlinePaymentsPage.LinkAmountTyped | components/pages/OnlinePayments.tsx:72 | a typed number is recorded unless it is zero, in which case the plan price is |
| OnlinePaymentsPage.LinkAmountFallback | components/pages/OnlinePayments.tsx:72 | an empty field, or text with no hexadecimal-digit character, records the plan price |
| OnlinePaymentsPage.WhatsAppMessage | components/pages/OnlinePayments.tsx:109-111 | the share text names the member and carries the link |
| OnlinePaymentsPage.PaymentLinksView.constructor | components/pages/OnlinePayments.tsx:25-30 | empty selections, no links, not loading |
| OnlinePaymentsPage.PaymentLinksView.BeginCreatePaymentLink | components/pages/OnlinePayments.tsx:32-61 | a missing selection: an error and no request. Unknown member or plan: nothing. Otherwise loading and exactly one request, amount typed text or plan price |
| OnlinePaymentsPage.PaymentLinksView.CompleteCreatePaymentLink | components/pages/OnlinePayments.tsx:63-98 | an error adds no link; success puts one active link first and resets the three fields; loading is cleared on every path |
| OnlinePaymentsPage.PaymentLinksView.RecordLink | components/pages/OnlinePayments.tsx:69-89 | the link goes first, one toast, the three fields reset |
| OnlinePaymentsPage.PaymentLinksView.CopyLink | components/pages/OnlinePayments.tsx:101-107 | the clipboard holds the link and one toast is shown |
| NotificationJson.ParseLiteral | components/pages/Settings.tsx:49 | a literal read consumes part of the text |
| NotificationJson.ParseLiteralText | components/pages/Settings.tsx:49 | a written literal reads back with its length |
| NotificationJson.ParseMember | components/pages/Settings.tsx:49 | reading a member consumes part of the text |
| NotificationJson.ParseMemberText | components/pages/Settings.tsx:49 | a written member reads back, leaving the text after it |
| NotificationJson.ParsePairAlone | components/pages/Settings.tsx:49 | a member with nothing after it reads as a one-member list |
| NotificationJson.ParsePairThen | components/pages/Settings.tsx:49 | a member then a comma reads as that member before the rest |
| NotificationJson.PairTextsCons | components/pages/Settings.tsx:108 | the written members are the first, a comma, then the rest |
| NotificationJson.ParseMembersSingle | components/pages/Settings.tsx:49 | one written member reads back |
| NotificationJson.ParseMembersCons | components/pages/Settings.tsx:49 | if the rest reads back, so does the whole list |
| NotificationJson.ParseMembersJoin | components/pages/Settings.tsx:49 | any non-empty written member list reads back |
| NotificationJson.ParseStringify | components/pages/Settings.tsx:108 | `JSON.parse(JSON.stringify(obj))` gives the same members in order |
| NotificationJson.Lookup | components/pages/Settings.tsx:50-53 | a missing key is undefined; a present key gives the value of one of its members |
| SettingsPage.StoredObjectLoads | components/pages/Settings.tsx:47-54 | a stored object loads flag by flag; a missing key loads as on; a flag is off only for an explicit false |
| SettingsPage.FlagPairsRead | components/pages/Settings.tsx:101-108 | the saved object reads back as the four flags |
| SettingsPage.NotificationsRoundTrip | components/pages/Settings.tsx:47-53 | saving then loading restores the four flags |
| SettingsPage.EmptyObjectLoadsAllOn | components/pages/Settings.tsx:47-53 | `{}` loads every flag as on |
| SettingsPage.PasswordProblem | components/pages/Settings.tsx:113-122 | accepted iff the two match and are at least 6 long; a mismatch is reported before the length |
| SettingsPage.FeaturesText | components/pages/Settings.tsx:205 | no features give ""; otherwise every feature occurs in the text |
| SettingsPage.Workbook | components/pages/Settings.tsx:170-208 | three sheets named Members, Payments and Plans, with one row per entity |
| SettingsPage.WorkbookRows | components/pages/Settings.tsx:176-205 | each row has its sheet's columns in order, and every cell holds its entity's field: member name, e-mail, phone, joining and expiry day, status text and plan duration; payment member, amount, method, date, status and plan (empty when missing); plan name, duration, price and joined features |
| SettingsPage.SettingsView.constructor | components/pages/Settings.tsx:25-37 | empty profile fields, every flag on, empty passwords |
| SettingsPage.SettingsView.LoadNotifications | components/pages/Settings.tsx:46-54 | loaded flags replace the current ones; unreadable text leaves them |
| SettingsPage.SettingsView.SaveNotifications | components/pages/Settings.tsx:101-110 | the key holds the written flags and one toast is shown |
| SettingsPage.SettingsView.ChangePassword | components/pages/Settings.tsx:113-137 | a rejected password calls nothing; an accepted one is sent once and only success clears both fields |
| SettingsPage.SettingsView.SaveProfile | components/pages/Settings.tsx:72-98 | no signed-in user: no write. Otherwise one write, and success refreshes that user's cache entry |
| SettingsPage.SettingsView.ClearCache | components/pages/Settings.tsx:140-145 | storage is emptied and one toast is shown |
| Invoice.ItemsHtmlAppend | lib/invoice-generator.tsx:25-36 | the rows of two item lists are the rows of each in turn: one row per item, in order |
| Invoice.ItemsHtmlSingle | lib/invoice-generator.tsx:25-36 | a single item renders as its own row |
| Invoice.ItemsHtmlHasEveryRow | lib/invoice-generator.tsx:25-36 | every item's row is in the table |
| Invoice.PaidIffCompleted | lib/invoice-generator.tsx:195-196 | "PAID", "status-paid" and "Paid in Full" exactly for "completed", the pending texts otherwise |
| Invoice.CachePaymentsShowPending | lib/invoice-generator.tsx:195-196 | the statuses the cache writes ("done", "pending") show as pending |
| Invoice.TaxLabelIff | lib/invoice-generator.tsx:231 | "18% GST" iff tax > 0, "0%" iff not |
| Invoice.InvoiceShowsTitle | lib/invoice-generator.tsx:43 | the invoice number's title is in the document |
| Invoice.InvoiceShowsNumber | lib/invoice-generator.tsx:192 | the invoice number's header line is in the document |
| Invoice.InvoiceShowsMethod | lib/invoice-generator.tsx:241 | the upper-cased payment method is in the document |
| Invoice.InvoiceShowsStatus | lib/invoice-generator.tsx:242 | the payment status line is in the document |
| Invoice.InvoiceShowsItems | lib/invoice-generator.tsx:221 | every item's row is in the document |
| Invoice.InvoiceCustomerEmail | lib/invoice-generator.tsx:207 | the customer e-mail paragraph is in the document |
| Invoice.EmailParagraphIff | lib/invoice-generator.tsx:207 | the paragraph is empty exactly when there is no address, and wraps the address otherwise |
| Recommendations.MemberListsCorrect | app/api/ai/recommendations/route.ts:10-19 | active: expiry strictly after now; expiring: 0 < ceiling days ≤ 7 |
| Recommendations.ExpiringIsActive | app/api/ai/recommendations/route.ts:10-19 | an expiring member is active |
| Recommendations.ExpiringAtMostActive | app/api/ai/recommendations/route.ts:10-19 | expiring ≤ active ≤ total |
| Recommendations.RevenueIsSumOfCompleted | app/api/ai/recommendations/route.ts:21-23 | revenue is the sum over the "completed" payments |
| Recommendations.SumAppend | app/api/ai/recommendations/route.ts:23 | the sum distributes over concatenation |
| Recommendations.RevenueIgnoresIncomplete | app/api/ai/recommendations/route.ts:21-23 | with no completed payment the revenue is 0 |
| Recommendations.RevenueAppend | app/api/ai/recommendations/route.ts:21-23 | revenue is additive over payment lists |
| Recommendations.RevenueBounds | app/api/ai/recommendations/route.ts:21-23 | with non-negative amounts, 0 ≤ revenue ≤ sum of all amounts |
| Recommendations.Divisor | app/api/ai/recommendations/route.ts:25 | the divisor is at least 1 and is the count when there are payments |
| Recommendations.RoundedAverage | app/api/ai/recommendations/route.ts:34 | `Math.round(total / n)`: the nearest integer, halves up |
| Recommendations.RoundedAverageNearest | app/api/ai/recommendations/route.ts:34 | the rounded average is within half a unit of the exact average |
| Recommendations.RoundedAverageExact | app/api/ai/recommendations/route.ts:25-34 | an exact average is returned unchanged |
| Recommendations.Summarise | app/api/ai/recommendations/route.ts:10-34 | total is the member count, expiring ≤ active ≤ total, and the average is the rounded revenue per payment |
| Recommendations.NoPaymentsAverageZero | app/api/ai/recommendations/route.ts:25 | no payments: revenue 0 and average 0, with no division by zero |
| Recommendations.PromptShowsStatistics | app/api/ai/recommendations/route.ts:27-44 | the prompt carries the five statistics lines |
| Recommendations.PromptShowsContextLine | app/api/ai/recommendations/route.ts:35 | the prompt carries the context line |
| Recommendations.PromptShowsContext | app/api/ai/recommendations/route.ts:35 | the prompt shows a non-empty context, otherwise "No additional context" |
| Recommendations.PromptFor | app/api/ai/recommendations/route.ts:7-44 | the prompt input has the member count, the revenue and the posted context |
| Recommendations.Post | app/api/ai/recommendations/route.ts:5-59 | 500 with `{error}` exactly when the body or the generator fails, else 200 with the generated text |
| Recommendations.ActiveMatchesDaysLeft | app/api/ai/recommendations/route.ts:10-13 | for a midnight expiry, active at any instant of today iff the dashboard's daysLeft > 0 |
| Recommendations.DaysUntilMidnight | app/api/ai/recommendations/route.ts:17 | at any instant of today, the ceiling of days to a midnight expiry is the dashboard's daysLeft |
| Recommendations.ExpiringMatchesReminderWindow | app/api/ai/recommendations/route.ts:15-19 | for a midnight expiry, the route's expiring members are exactly the dashboard's reminder window |

## Left out

- Network, store and cache plumbing is left out: Supabase queries, SWR deduping, the realtime subscription and the auth listeners. Each remote answer is a parameter (`Reply`, `RpcOutcome`, `InsertOutcome`, `LinkReply`, `Generation`), and each write is recorded in a log instead of being sent.
- Concurrency between awaited calls is not modelled: each handler runs to completion. `handleCreatePaymentLink` is split into the step before its request and the step after the reply.
- Date parsing, `setHours`, `toISOString`, `format`, time zones and DST are replaced by whole day numbers, and `setMonth` by the `addMonths` parameter. The route's cross-check with the dashboard (`Recommendations.DaysUntilMidnight`) assumes expiry at a UTC midnight.
- `Date.now()`, `new Date()` and `Math.random()` become parameters (`clock`, `today`, `nowMillis`, `nonce`).
- `created_at` is set from `nowMillis` only. `updated_at` timestamps are not modelled.
- Floating point is not modelled: amounts are integers.
- Recommendations.RoundedAverage: `Math.round(totalRevenue / n)` is computed exactly on rationals, not on IEEE doubles, which agrees with the double result unless the amounts are so large that the rounded quotient crosses a half.
- AttendancePage.AttendanceRate: the division and the multiplication by 100 are exact here, but the source rounds after each in doubles. 23 present of 40 gives 23/40·100 = 57.49999999999999 there, so the page shows 57 where the model gives 58. The contract states rounding of the exact rate, not the double result.
- OnlinePaymentsPage.LinkAmount: `parseInt` is exact on arbitrarily long digit strings; it does not model the loss of precision past 2^53.
- Text.Lower: it changes only ASCII letters; Unicode case mapping is not modelled.
- Text.Upper: it changes only ASCII letters; Unicode case mapping is not modelled.
- Strings are sequences of code points; UTF-16 code units are not modelled.
- NotificationJson: the JSON reader covers only flat objects of `true`/`false`/`null` values without white space or escapes, which is what `JSON.stringify` of the flags writes. Other stored text is read as unreadable.
- `Invoice`: the stylesheet and the `toLocaleDateString` output are parameters. `toLocaleString` is modelled as en-US digit grouping of whole numbers.
- `downloadInvoicePDF` and `window.open`/printing are left out: browser I/O.
- UI and browser I/O are left out: `confirm`, Blob downloads, `encodeURI`, `encodeURIComponent`, the QR image, the camera scanner, XLSX file writing, the JSON data export, the PWA install prompt and the page reload after clearing the cache. Toasts and alerts are recorded as logs.
- The WhatsApp share only builds its message text; opening the window is I/O.
- `SWITCH_BRANCH` is left out: it does nothing in the source (an empty case).
- The Settings prefill of the profile fields from `state.user` is left out: it is a plain copy into UI state.
- The QR check-in's `p_device_id` (`navigator.userAgent`) is left out of the call record.
- `console.error` logging is left out.
- The route's Groq client, API key and model name are left out. The text generator is a parameter taking the prompt's inputs (statistics and context); the prompt text itself is `Recommendations.Prompt`.
- The route's request-body failures are collapsed into one `Malformed` case with its error message: a body that is not JSON, or one missing `members`/`payments`, throws in the source.
- The posted members' and payments' other fields are left out; the route reads only the expiry date, amount and status.
- Components that only wrap other calls are not part of this model: the Stripe route, the Supabase middleware, the signup page, the landing page and the recommendations widget.
