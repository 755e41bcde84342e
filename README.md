# Resource-request portal: page logic in Dafny

The portal is a front end for resource requests. Requesters file budget, non-budget and saleable-stock requests. Administrators review them and maintain approval workflows. The finance department pays approved requests. A settings area manages users and third-party integrations. Every page keeps its tables in page state, and each event handler replaces a table with a mapped, filtered or extended copy. This project models those tables and handlers, the validators of the sign-up and login pages, and the pure views that decide what a page shows.

Each page's logic becomes one module:

- `Workflows`: the admin workflow list. Covers toggling active, the exclusive default flag, duplicating with a generated `wf-00{n+1}` id, deleting, and the summary cards.
- `AdminRequests`: the admin request table. Covers free status overwrite, wholesale replacement on edit, delete, the status-dependent row actions, the status badge and the counts.
- `FinancePayments`: the finance dashboard. Covers the payment draft with its `PAY-{year}-{NNN}` reference, the two steps `processing` then `completed`, the status filter and counts, and the row actions.
- `UserDirectory`: the user-management panel. Covers case-insensitive search, add with validation and a generated `user-00{n+1}` id, the active/inactive toggle, delete and the invitation guard.
- `Integrations`: the integrations panel. Covers the connected toggle and the per-field setting updates.
- `Signup`: the sign-up page. Covers the form's change handlers, the five-point password strength meter and the ordered validation chain of submit.
- `Login`: the login page. Covers the fixed account table, the empty-field check, the credential lookup, the session writes into browser storage, the redirect and the demo buttons.
- `RequestViews`: the requester's request page. Covers the tab filter, the balance colour, the columns, the empty-state row, titles, summary sums and the form fields shown per tab.
- `UserDashboard`: the requester's dashboard. Covers the status labels, the four tab filters and what each card shows.

Two helper modules hold what the pages share:

- `Collections` holds the sequence operations the handlers are built from: `Keep` (JavaScript `filter`), `MapWhere` (a `map` that rewrites only matching records) and `Find` (the first match). It also holds their counting, order and composition lemmas.
- `Text` holds decimal rendering of naturals (`String(n)`), `padStart`, ASCII `toLowerCase`/`toUpperCase`, `includes`, `trim` over JavaScript's whitespace and line-terminator characters, and `replace` of a first occurrence.

How the pages are modelled:

- Pages whose handlers update state are classes. Their fields are the page's state variables, and each handler is a method that assigns the new table computed by a pure function. The contracts and lemmas sit on those functions.
- The two requester pages never change their lists. The dashboard is pure functions only. The request page is a small class whose methods change only the active tab and the form's open and submitting flags, never the list.
- Timers become explicit operations. Examples are `FinancePayments.FinanceDashboard.CompletePayment` and `Signup.SignupPage.SubmitFinished`.
- The clock, the current year and `Math.random()` become parameters.
- Money is exact `real`.

Where the page code and a plain reading of the pages differ, the model follows the code:

- After a successful add, the user form reset also clears the email (components/settings/user-management-settings.tsx:124-130).
- On the request form, a quantity input appears on every tab. The budget tab has its own quantity input next to price and total. Only the unit input is exclusive to the non-budget tabs.
- The checkbox branch of the sign-up `handleChange` is never reached. Both check boxes use their own `onCheckedChange` callbacks (app/signup/page.tsx:371, 395), so the model gives `handleChange` the text inputs only and models the boxes by `SetAgreements`.
- The generated ids `wf-00{n+1}` and `user-00{n+1}` come from the current length, so they are not fresh after a delete. The lemmas `Workflows.DuplicateIdCanCollide`, `UserDirectory.AddCanDuplicateId` and `UserDirectory.SampleIdCollision` exhibit a collision. Properties that need unique ids take them as a precondition.
- The user id is also only zero-padded to three digits up to the ninth user (`UserDirectory.NewUserIdWidth`).

## Model

| member | source | states |
|---|---|---|
| `Workflows.ToggleActive` | app/admin/workflows/page.tsx:100-115 | length kept; `isActive` flips exactly on records with the id; every other field and record unchanged |
| `Workflows.ToggleActiveTwice` | app/admin/workflows/page.tsx:101-108 | toggling one id twice restores the table |
| `Workflows.ToggleActiveCount` | app/admin/workflows/page.tsx:101-108 | with unique ids, a toggle moves the active count by exactly one in the right direction |
| `Workflows.SetDefault` | app/admin/workflows/page.tsx:117-132 | a record is default iff its id is the target; all other fields, length and order preserved |
| `Workflows.SetDefaultExclusive` | app/admin/workflows/page.tsx:118-125 | with unique ids and a present id, the default records are exactly that one record |
| `Workflows.SetDefaultAbsent` | app/admin/workflows/page.tsx:118-125 | an absent id leaves no default record |
| `Workflows.SetDefaultOnlyTarget` | app/admin/workflows/page.tsx:118-125 | every default record after set-default carries the target id |
| `Workflows.Duplicate` | app/admin/workflows/page.tsx:134-151 | an absent id changes nothing; otherwise one record is appended after the unchanged table: a copy of the first match with id `wf-00{n+1}`, name `… (Copy)`, not default, zero requests, today's date, all else copied |
| `Workflows.DuplicateId` | app/admin/workflows/page.tsx:139 | `wf-00` followed by digits that read back as the new table length |
| `Workflows.CopyOf` | app/admin/workflows/page.tsx:137-143 | new id, not default, zero requests, today's date, the name extended by ` (Copy)`; every other field is the original's |
| `Workflows.DuplicateKeepsAtMostOneDefault` | app/admin/workflows/page.tsx:134-145 | duplicating preserves the at-most-one-default invariant |
| `Workflows.DuplicateKeepsTotalRequests` | app/admin/workflows/page.tsx:134-145 | duplicating leaves the "Total Requests" card unchanged |
| `Workflows.DuplicateIdEncodesLength` | app/admin/workflows/page.tsx:139 | the generated id is `wf-00` followed by digits reading back as the new length |
| `Workflows.DuplicateIdCanCollide` | app/admin/workflows/page.tsx:139 | on the sample data, delete then duplicate yields two records with id `wf-003` |
| `Workflows.Delete` | app/admin/workflows/page.tsx:158-169 | survivors are exactly the records whose id differs, drawn from the table |
| `Workflows.DeleteKeepsOrder` | app/admin/workflows/page.tsx:161 | delete distributes over concatenation, so survivors keep their order |
| `Workflows.DeleteAbsent` | app/admin/workflows/page.tsx:161 | deleting an absent id changes nothing |
| `Workflows.DeleteKeepsAtMostOneDefault` | app/admin/workflows/page.tsx:161 | delete preserves the at-most-one-default invariant |
| `Workflows.ActiveCount` | app/admin/workflows/page.tsx:398 | the active count is at most the total, and equals it iff every workflow is active |
| `Workflows.TotalRequestsAppend` | app/admin/workflows/page.tsx:406 | the request sum is additive over concatenation |
| `Workflows.TotalRequests` | app/admin/workflows/page.tsx:406 | the "Total Requests" card: no workflow's count exceeds it |
| `Workflows.WorkflowsPage.constructor` | app/admin/workflows/page.tsx:74-76 | the page starts with the three sample workflows and no pending delete |
| `Workflows.WorkflowsPage.HandleToggleActive` | app/admin/workflows/page.tsx:100-115 | the table becomes `ToggleActive` of the old table |
| `Workflows.WorkflowsPage.HandleSetDefault` | app/admin/workflows/page.tsx:117-132 | the table becomes `SetDefault` of the old table |
| `Workflows.WorkflowsPage.HandleDuplicate` | app/admin/workflows/page.tsx:134-151 | the table becomes `Duplicate` of the old table |
| `Workflows.WorkflowsPage.HandleDeleteClick` | app/admin/workflows/page.tsx:153-156 | the id is selected and the confirmation opens |
| `Workflows.WorkflowsPage.ConfirmDelete` | app/admin/workflows/page.tsx:158-169 | a selected non-empty id is deleted, otherwise the table is unchanged; the dialog closes and the selection clears |
| `AdminRequests.ChangeStatus` | app/admin/dashboard/page.tsx:183-186 | matching records get the new status from any prior status; others unchanged; length kept |
| `AdminRequests.Delete` | app/admin/dashboard/page.tsx:216-217 | survivors are exactly the records whose id differs |
| `AdminRequests.DeleteKeepsOrder` | app/admin/dashboard/page.tsx:217 | survivors keep their relative order |
| `AdminRequests.DeleteAbsent` | app/admin/dashboard/page.tsx:217 | deleting an absent id changes nothing |
| `AdminRequests.ApplyEdit` | app/admin/dashboard/page.tsx:226-229 | records with the edited id are replaced wholesale by the edited record; others unchanged |
| `AdminRequests.SaveEditKeepsEnteredTotal` | app/admin/dashboard/page.tsx:591-620 | after a quantity edit the saved total is the typed one, not price × quantity |
| `AdminRequests.Actions` | app/admin/dashboard/page.tsx:351-408 | approve and reject iff pending; reset iff not pending; in-progress iff not in progress; view, edit, delete always |
| `AdminRequests.OfferedActionsChangeStatus` | app/admin/dashboard/page.tsx:351-408 | every status action a row offers writes a status different from the current one |
| `AdminRequests.BadgeLabel` | app/admin/dashboard/page.tsx:154-167 | the badge label has the status's length |
| `AdminRequests.PendingBadgeLabel` | app/admin/dashboard/page.tsx:164 | `pending` is shown as `Pending` |
| `AdminRequests.ApprovedBadgeLabel` | app/admin/dashboard/page.tsx:164 | `approved` is shown as `Approved` |
| `AdminRequests.RejectedBadgeLabel` | app/admin/dashboard/page.tsx:164 | `rejected` is shown as `Rejected` |
| `AdminRequests.InProgressBadgeLabel` | app/admin/dashboard/page.tsx:164 | `in-progress` is shown as `In progress` |
| `AdminRequests.BadgeLabelAt` | app/admin/dashboard/page.tsx:164 | a status without a further dash is shown with only its first letter upper-cased |
| `AdminRequests.PendingPlusApprovedAtMostTotal` | app/admin/dashboard/page.tsx:424-436 | pending count plus approved count is at most the total |
| `AdminRequests.PendingCount` | app/admin/dashboard/page.tsx:430 | the "Pending Approval" card: at most the total, and zero iff no request is pending |
| `AdminRequests.ApprovedCount` | app/admin/dashboard/page.tsx:436 | the "Approved" card: at most the total, and zero iff no request is approved |
| `AdminRequests.AdminRequestsTable.constructor` | app/admin/dashboard/page.tsx:115-119 | the table starts with the given requests, nothing selected, all dialogs closed |
| `AdminRequests.AdminRequestsTable.HandleStatusChange` | app/admin/dashboard/page.tsx:183-186 | the table becomes `ChangeStatus` of the old table |
| `AdminRequests.AdminRequestsTable.HandleEdit` | app/admin/dashboard/page.tsx:201-204 | selects the request and opens the edit dialog |
| `AdminRequests.AdminRequestsTable.HandleDelete` | app/admin/dashboard/page.tsx:206-209 | selects the request and opens the delete dialog |
| `AdminRequests.AdminRequestsTable.HandleView` | app/admin/dashboard/page.tsx:211-214 | selects the request and opens the view dialog |
| `AdminRequests.AdminRequestsTable.UpdateDraft` | app/admin/dashboard/page.tsx:528-618 | an edit input replaces the draft, keeping its id |
| `AdminRequests.AdminRequestsTable.ConfirmDelete` | app/admin/dashboard/page.tsx:216-224 | deletes the selected id, closes the dialog, clears the selection |
| `AdminRequests.AdminRequestsTable.SaveEdit` | app/admin/dashboard/page.tsx:226-236 | applies the draft wholesale, closes the dialog, clears the selection |
| `FinancePayments.StartPaymentDraft` | app/finance-department/dashboard/page.tsx:242-250 | method defaults to "Bank Transfer"; invoice kept; a non-empty reference is kept, otherwise it is `PAY-{year}-{pad3(n+1)}`; nothing else changes |
| `FinancePayments.PaymentReference` | app/finance-department/dashboard/page.tsx:247 | `PAY-`, then the year's digits and a dash; for the first 999 rows exactly three characters follow that dash |
| `FinancePayments.InvoiceNumber` | app/finance-department/dashboard/page.tsx:257 | `INV-`, then the year's digits and a dash, then the vendor's first two characters (fewer for a shorter name) upper-cased, then a dash and exactly three characters |
| `FinancePayments.InvoiceEncodesRandom` | app/finance-department/dashboard/page.tsx:257 | the invoice's last three characters are digits that read back as the random number |
| `FinancePayments.ReferenceEncodesCount` | app/finance-department/dashboard/page.tsx:247 | the reference's trailing digits read back as the row count plus one |
| `FinancePayments.ReferenceEncodesYear` | app/finance-department/dashboard/page.tsx:247 | the digits after `PAY-` read back as the year |
| `Text.PadStartKeepsValue` | app/finance-department/dashboard/page.tsx:247 | zero-padding to at least the width keeps the decimal value and the digits |
| `FinancePayments.SampleReference` | app/finance-department/dashboard/page.tsx:247 | year 2025 with four rows gives `PAY-2025-005` |
| `FinancePayments.ReferenceIgnoresRequest` | app/finance-department/dashboard/page.tsx:247 | two drafts started at the same row count propose the same reference |
| `FinancePayments.Processed` | app/finance-department/dashboard/page.tsx:253-258 | status becomes processing, the date is today's, a non-empty invoice is kept and an empty one becomes `InvoiceNumber` of the year, the vendor and the random number; nothing else changes |
| `FinancePayments.ReplaceWith` | app/finance-department/dashboard/page.tsx:260-262 | records with the draft's id become the updated record; others unchanged; length kept |
| `FinancePayments.Complete` | app/finance-department/dashboard/page.tsx:273-276 | records with the id become completed; others unchanged; no record added |
| `FinancePayments.CompleteAbsent` | app/finance-department/dashboard/page.tsx:273-276 | completion on an absent id leaves the list unchanged |
| `FinancePayments.ProcessThenComplete` | app/finance-department/dashboard/page.tsx:252-282 | after process and completion, the processed record ends completed and every other record is unchanged |
| `FinancePayments.CompleteKeepsTotalAmount` | app/finance-department/dashboard/page.tsx:379-380 | completion leaves the "Total Amount" card unchanged |
| `FinancePayments.ReplaceKeepsTotalAmount` | app/finance-department/dashboard/page.tsx:379-380 | writing back a draft with the stored total leaves "Total Amount" unchanged |
| `FinancePayments.FilterByStatus` | app/finance-department/dashboard/page.tsx:284-287 | never longer than the list; "all" returns the list; any other value returns exactly the rows with that payment status |
| `FinancePayments.FilterByStatusAppend` | app/finance-department/dashboard/page.tsx:284-287 | the filter distributes over concatenation, so rows keep their order |
| `FinancePayments.FilterByStatusUnit` | app/finance-department/dashboard/page.tsx:284-287 | one row is shown once or not at all, by the filter's test, so multiplicity is kept |
| `FinancePayments.ShownBy` | app/finance-department/dashboard/page.tsx:284-287 | the filter's test: "all" passes every row, another value the rows with that status |
| `FinancePayments.FilterMatchesCount` | app/finance-department/dashboard/page.tsx:284-287 | filtering by a status shows as many rows as that status's card counts |
| `FinancePayments.StatusCountsAtMostTotal` | app/finance-department/dashboard/page.tsx:353-374 | pending, processing and completed counts sum to at most the total |
| `FinancePayments.StatusCount` | app/finance-department/dashboard/page.tsx:362-374 | a summary card's count: at most the total, and zero iff no row has that status |
| `FinancePayments.TotalAmount` | app/finance-department/dashboard/page.tsx:380 | the "Total Amount" card: never negative when no row's total is |
| `FinancePayments.Actions` | app/finance-department/dashboard/page.tsx:463-511 | pay and start iff pending; invoice and confirmation iff completed; view and payment history always |
| `FinancePayments.PaymentAndInvoiceExclusive` | app/finance-department/dashboard/page.tsx:463-505 | no row offers both paying and invoicing |
| `FinancePayments.ProcessedRecordActions` | app/finance-department/dashboard/page.tsx:463-511 | a processing row offers only view and history; once completed it also offers invoice and confirmation |
| `FinancePayments.FinanceDashboard.constructor` | app/finance-department/dashboard/page.tsx:163-168 | starts with the given requests, nothing selected, dialogs closed, filter "all" |
| `FinancePayments.FinanceDashboard.HandleView` | app/finance-department/dashboard/page.tsx:237-240 | selects the request and opens the view dialog |
| `FinancePayments.FinanceDashboard.HandleStartPayment` | app/finance-department/dashboard/page.tsx:242-250 | selects the draft, opens the payment dialog and leaves the request list unchanged |
| `FinancePayments.FinanceDashboard.EditDraft` | app/finance-department/dashboard/page.tsx:641-671 | the dialog inputs rewrite method, reference and invoice of the draft |
| `FinancePayments.FinanceDashboard.ProcessPayment` | app/finance-department/dashboard/page.tsx:252-272 | writes back the processed draft, closes the dialog, clears the selection and returns the id to complete |
| `FinancePayments.FinanceDashboard.CompletePayment` | app/finance-department/dashboard/page.tsx:273-276 | the list becomes `Complete` of the old list |
| `FinancePayments.FinanceDashboard.SetFilterStatus` | app/finance-department/dashboard/page.tsx:388 | the filter takes the chosen value |
| `UserDirectory.FilteredUsers` | components/settings/user-management-settings.tsx:90-95 | never longer than the list; exactly the users matching the lower-cased query in name, email or department, drawn from the list |
| `UserDirectory.FilteredUsersAppend` | components/settings/user-management-settings.tsx:90-95 | the search distributes over concatenation, so users keep their order |
| `UserDirectory.FilteredUsersUnit` | components/settings/user-management-settings.tsx:90-95 | one user is listed once or not at all, by `MatchesQuery` |
| `UserDirectory.MatchesQueryIff` | components/settings/user-management-settings.tsx:90-95 | a user matches iff the lower-cased query occurs at some position of one of the three lower-cased fields |
| `UserDirectory.EmptyQueryShowsAll` | components/settings/user-management-settings.tsx:90-95 | an empty query shows every user |
| `UserDirectory.SearchIgnoresQueryCase` | components/settings/user-management-settings.tsx:90-95 | searching for a query and for its lower-cased form show the same users |
| `UserDirectory.EmptyForm` | components/settings/user-management-settings.tsx:81-87 | the form starts empty with role "user" and status "active" |
| `UserDirectory.NewUser` | components/settings/user-management-settings.tsx:107-122 | the new user has id `user-00{n+1}`, last login "Never" and the form's five fields |
| `UserDirectory.AddUser` | components/settings/user-management-settings.tsx:97-122 | an empty name or email changes nothing; otherwise exactly one user is appended after the unchanged list |
| `UserDirectory.DeleteUndoesAdd` | components/settings/user-management-settings.tsx:107-122 | deleting a freshly added user with a fresh id restores the list |
| `UserDirectory.AddCanDuplicateId` | components/settings/user-management-settings.tsx:107 | if a user already carries the next id, the add yields two users with one id |
| `UserDirectory.SampleIdCollision` | components/settings/user-management-settings.tsx:107 | on the sample list, deleting any user but the last and adding gives two `user-005` |
| `UserDirectory.NewUserIdWidth` | components/settings/user-management-settings.tsx:107 | the id is eight characters long iff fewer than nine users precede it |
| `UserDirectory.NextStatus` | components/settings/user-management-settings.tsx:161-169 | active becomes inactive; any other status becomes active |
| `UserDirectory.ToggleStatus` | components/settings/user-management-settings.tsx:160-178 | matching users get the next status; others unchanged; length kept |
| `UserDirectory.ToggleStatusTwice` | components/settings/user-management-settings.tsx:161-169 | toggling twice restores users whose status is active or inactive |
| `UserDirectory.ToggleNormalisesStatus` | components/settings/user-management-settings.tsx:161-169 | after a toggle every toggled user is active or inactive |
| `UserDirectory.DeleteUser` | components/settings/user-management-settings.tsx:180-182 | never longer than the list; survivors are exactly the users whose id differs |
| `UserDirectory.DeleteUserKeepsOrder` | components/settings/user-management-settings.tsx:182 | delete distributes over concatenation, so the others keep their order |
| `UserDirectory.DeleteUserUnit` | components/settings/user-management-settings.tsx:182 | one user survives whole iff its id differs; nothing is duplicated |
| `UserDirectory.CanInviteIff` | components/settings/user-management-settings.tsx:140-147 | invitations go ahead iff the text is not all whitespace |
| `UserDirectory.StatusFromSwitch` | components/settings/user-management-settings.tsx:293-294 | the switch writes a status that reads back as the switch position |
| `UserDirectory.Capitalize` | components/settings/user-management-settings.tsx:346-359 | the badge keeps the length, upper-cases the first character and keeps the rest |
| `UserDirectory.UserManagement.constructor` | components/settings/user-management-settings.tsx:77-88 | starts with the sample users, an empty query, an empty form and closed dialogs |
| `UserDirectory.UserManagement.SetSearchQuery` | components/settings/user-management-settings.tsx:200 | the query takes the typed value |
| `UserDirectory.UserManagement.EditForm` | components/settings/user-management-settings.tsx:257-287 | the inputs rewrite name, email, role and department of the form |
| `UserDirectory.UserManagement.SetActive` | components/settings/user-management-settings.tsx:293-294 | the switch rewrites the form's status |
| `UserDirectory.UserManagement.HandleAddUser` | components/settings/user-management-settings.tsx:97-138 | added iff name and email are filled; a rejected add leaves form and dialog as they were; a successful one appends, resets the form and closes the dialog |
| `UserDirectory.UserManagement.SetInviteEmails` | components/settings/user-management-settings.tsx:225 | the text area takes the typed value |
| `UserDirectory.UserManagement.HandleInviteUsers` | components/settings/user-management-settings.tsx:140-158 | sent iff the text is not blank; a rejected invite changes nothing; a sent one clears the text and closes the dialog |
| `UserDirectory.UserManagement.HandleToggleUserStatus` | components/settings/user-management-settings.tsx:160-178 | the list becomes `ToggleStatus` of the old list |
| `UserDirectory.UserManagement.HandleDeleteUser` | components/settings/user-management-settings.tsx:180-188 | the list becomes `DeleteUser` of the old list |
| `Integrations.Toggle` | components/settings/integration-settings.tsx:52-69 | `connected` flips exactly on records with the id; everything else unchanged; length kept |
| `Integrations.ToggleTwice` | components/settings/integration-settings.tsx:53-60 | toggling twice restores the list |
| `Integrations.UpdateField` | components/settings/integration-settings.tsx:71-80 | matching records get the one field set (added if absent), other fields and records unchanged |
| `Integrations.UnknownIdChangesNothing` | components/settings/integration-settings.tsx:52-80 | toggle and update on an unknown id leave the list unchanged |
| `Integrations.UpdateLastWriteWins` | components/settings/integration-settings.tsx:71-80 | two writes of one field keep only the last |
| `Integrations.UpdatesCommute` | components/settings/integration-settings.tsx:71-80 | writes of two different fields commute |
| `Integrations.SetFieldsCommute` | components/settings/integration-settings.tsx:75 | on one record, setting two different fields commutes |
| `Integrations.UpdateKeepsConnections` | components/settings/integration-settings.tsx:71-80 | editing a setting never changes any connected flag |
| `Integrations.CardFields` | components/settings/integration-settings.tsx:119-224 | each card's inputs by id: webhook and channels for Slack and Teams, domain, key and project for Jira, client id and secret for Google Calendar, none otherwise |
| `Integrations.ToggleSwitchesInputs` | components/settings/integration-settings.tsx:52-69 | toggling a card flips whether its rendered inputs accept typing; other cards' inputs are unaffected |
| `Integrations.UpdateKeepsInputsEnabled` | components/settings/integration-settings.tsx:71-80 | editing a setting never enables or disables an input |
| `Integrations.InitialCardsCarryTheirFields` | components/settings/integration-settings.tsx:16-50 | every input a sample card renders has a value in its record, and no other setting is stored |
| `Integrations.IntegrationSettings.constructor` | components/settings/integration-settings.tsx:13-50 | starts with the four sample integrations, not saving |
| `Integrations.IntegrationSettings.HandleToggleIntegration` | components/settings/integration-settings.tsx:52-69 | the list becomes `Toggle` of the old list |
| `Integrations.IntegrationSettings.HandleUpdateIntegration` | components/settings/integration-settings.tsx:71-80 | the list becomes `UpdateField` of the old list |
| `Integrations.IntegrationSettings.HandleSaveChanges` | components/settings/integration-settings.tsx:82-83 | the save starts the loading state |
| `Integrations.IntegrationSettings.SaveFinished` | components/settings/integration-settings.tsx:86-87 | the timer callback ends the loading state |
| `Signup.WithText` | app/signup/page.tsx:49-55 | the named text field takes the value; every other field is unchanged |
| `Signup.WithTextRestore` | app/signup/page.tsx:49-55 | typing then restoring the old value gives back the form |
| `Signup.Strength` | app/signup/page.tsx:64-72 | the score is between 0 and 5 |
| `Signup.StrengthCounts` | app/signup/page.tsx:64-72 | one point each for length ≥ 8, an upper-case letter, a lower-case letter, a digit and a character outside `[A-Za-z0-9]` |
| `Signup.GetPasswordStrength` | app/signup/page.tsx:64-72 | the sequential counter computes exactly `Strength` |
| `Signup.EmptyPasswordScoresZero` | app/signup/page.tsx:64-72 | the empty password scores 0 |
| `Signup.FullStrengthIff` | app/signup/page.tsx:64-72 | a score of 5 iff all five criteria hold |
| `Signup.NonEmptyScoresOne` | app/signup/page.tsx:64-72 | any non-empty password scores at least 1 |
| `Signup.NonEmptyHasClass` | app/signup/page.tsx:67-70 | every non-empty password meets one of the four character classes |
| `Signup.StrengthColor` | app/signup/page.tsx:74-78 | red iff below 2, yellow iff 2 or 3, green iff 4 or more |
| `Signup.StrengthText` | app/signup/page.tsx:80-84 | Weak iff below 2, Medium iff 2 or 3, Strong iff 4 or more, on the same thresholds as the colour |
| `Signup.MeterWidthPercent` | app/signup/page.tsx:268 | the bar is at most full, and full iff the score is 5 |
| `Signup.MeterShownIffScored` | app/signup/page.tsx:262-268 | the strength meter is drawn exactly when the password already scores at least one point |
| `Signup.Validate` | app/signup/page.tsx:86-124 | the first failing check decides: missing fields, then mismatch, then length below 8, then terms; submitted iff all pass |
| `Signup.SubmittedNeverWeak` | app/signup/page.tsx:108-126 | a submitted password scores at least 2 and is never labelled Weak |
| `Signup.SubmittedShowedMatch` | app/signup/page.tsx:304-316 | a submitted form was showing the "passwords match" hint |
| `Signup.OptionalFieldsIrrelevant` | app/signup/page.tsx:86-124 | company name, size and newsletter never change the outcome |
| `Signup.SignupPage.constructor` | app/signup/page.tsx:34-47 | starts with an empty form, not loading, passwords hidden |
| `Signup.SignupPage.HandleChange` | app/signup/page.tsx:49-55 | the form becomes `WithText` of the old form |
| `Signup.SignupPage.HandleSelectChange` | app/signup/page.tsx:57-62 | only the company size changes |
| `Signup.SignupPage.SetAgreements` | app/signup/page.tsx:369-395 | only the two agreement flags change |
| `Signup.SignupPage.ToggleShowPassword` | app/signup/page.tsx:257 | flips password visibility |
| `Signup.SignupPage.ToggleShowConfirmPassword` | app/signup/page.tsx:299 | flips confirmation visibility |
| `Signup.SignupPage.HandleSubmit` | app/signup/page.tsx:86-126 | returns `Validate` of the form; loading starts iff submitted and is otherwise untouched |
| `Signup.SignupPage.SubmitFinished` | app/signup/page.tsx:129-130 | the timer callback ends the loading state |
| `Login.Authenticate` | app/login/page.tsx:80 | none iff no account matches both fields; otherwise the first account that matches both |
| `Login.AccountEmailsDistinct` | app/login/page.tsx:30-52 | no two accounts share an email |
| `Login.OwnCredentialsAuthenticate` | app/login/page.tsx:30-80 | each account's own credentials log in as that account |
| `Login.DemoAccount` | app/login/page.tsx:129-131 | a role in the table yields an account with that role; none iff the role is unknown |
| `Login.DemoCredentialsLogIn` | app/login/page.tsx:129-133 | demo-filled credentials pass the lookup as the demo account |
| `Login.SessionWrites` | app/login/page.tsx:82-108 | the role is stored; the typed email iff "remember me"; token and session only for the account's own known role |
| `Login.KnownRoleKeysDistinct` | app/login/page.tsx:92-108 | a known role's token and session keys differ from each other and from the general keys |
| `Login.DemoAccountsHaveSessions` | app/login/page.tsx:30-52 | every account has a role that gets a token and a session |
| `Login.LoginPage.constructor` | app/login/page.tsx:55-61 | starts with empty fields, not loading, nothing scheduled, on the login page, with the given storage |
| `Login.LoginPage.SetCredentials` | app/login/page.tsx:227-271 | the inputs set email, password and "remember me" |
| `Login.LoginPage.HandleSubmit` | app/login/page.tsx:63-78 | an empty field is refused with loading and the schedule untouched; otherwise loading starts and the lookup is scheduled with the typed email, password and "remember me" |
| `Login.LoginPage.FinishLogin` | app/login/page.tsx:77-126 | runs only for a scheduled submission, with its values; a failed lookup leaves storage and location; a match writes the session and moves to its dashboard; loading ends and the schedule clears either way |
| `Login.LoginPage.HandleDemoLogin` | app/login/page.tsx:129-139 | a known role fills that account's credentials; an unknown one changes nothing |
| `Login.LoginPage.ToggleShowPassword` | app/login/page.tsx:261 | flips password visibility |
| `RequestViews.FilteredRequests` | app/user/request/page.tsx:133 | never longer than the list; exactly the requests whose type is the active tab's key, drawn from the list |
| `RequestViews.FilteredRequestsAppend` | app/user/request/page.tsx:133 | the tab filter distributes over concatenation, so requests keep their original order |
| `RequestViews.FilteredRequestsUnit` | app/user/request/page.tsx:133 | one request is shown once or not at all, by its type |
| `RequestViews.TabsPartition` | app/user/request/page.tsx:133 | with known types, every request is on exactly one tab |
| `RequestViews.BalanceColor` | app/user/request/page.tsx:169-175 | red iff balance ≤ 0, yellow iff 0 < balance < 0.2 × total, green otherwise |
| `RequestViews.SampleBalanceColors` | app/user/request/page.tsx:20-73 | the spent sample budget is red; the one with a quarter left is green |
| `RequestViews.Columns` | app/user/request/page.tsx:135-148 | ID first, description, details and unit last, and the budget columns iff on the budget tab |
| `RequestViews.EmptyRowSpansTable` | app/user/request/page.tsx:369-373 | the empty row spans 9 columns on the budget tab and 4 elsewhere, the table's width |
| `RequestViews.EmptyRow` | app/user/request/page.tsx:369-376 | the empty row appears iff the tab shows no request, spanning the table, with the tab's message |
| `RequestViews.EmptyRowIff` | app/user/request/page.tsx:369-376 | the empty row appears iff no request has the tab's type |
| `RequestViews.TabKeyReplaced` | app/user/request/page.tsx:375 | replacing the first dash of each tab key gives the spaced key |
| `RequestViews.EmptyMessageText` | app/user/request/page.tsx:375 | the message reads "No budget", "No non budget" or "No saleable stock" … "requests found." |
| `RequestViews.TabTitlesDistinct` | app/user/request/page.tsx:235-246 | each tab has its own title |
| `RequestViews.TabTitle` | app/user/request/page.tsx:235-246 | `getTabTitle`: every heading ends in ` Requests` |
| `RequestViews.TypeLabel` | app/user/request/page.tsx:227 | the type card's label is the tab's heading without ` Requests` |
| `RequestViews.SumTotal` | app/user/request/page.tsx:192 | the "Total Budget" card: never negative when no row's total is |
| `RequestViews.SumUtilized` | app/user/request/page.tsx:198 | the "Total Utilized" card: never negative when no row's utilised amount is |
| `RequestViews.SumBalance` | app/user/request/page.tsx:204 | the balance card: never negative when no row's balance is |
| `RequestViews.SummaryBalances` | app/user/request/page.tsx:185-233 | with balanced rows, the balance card is the total card minus the utilised card |
| `RequestViews.SampleBudgetCardsAddUp` | app/user/request/page.tsx:20-73 | every sample row is balanced |
| `RequestViews.FormInputs` | app/user/request/page.tsx:410-500 | budget code, price and total iff budget tab; unit iff not budget; quantity and type always |
| `RequestViews.ResourceTypeOptions` | app/user/request/page.tsx:417-450 | five options per tab, "other" last |
| `RequestViews.RequestPage.constructor` | app/user/request/page.tsx:77-80 | starts with the sample requests on the budget tab, form closed |
| `RequestViews.RequestPage.SetActiveTab` | app/user/request/page.tsx:279-306 | the tab buttons set the active tab |
| `RequestViews.RequestPage.SetShowForm` | app/user/request/page.tsx:269 | the form opens or closes |
| `RequestViews.RequestPage.HandleSubmit` | app/user/request/page.tsx:82-84 | only the submitting flag changes; no request is added |
| `RequestViews.RequestPage.SubmitFinished` | app/user/request/page.tsx:87-93 | the form closes and the list is unchanged |
| `UserDashboard.StatusLabel` | app/user/dashboard/page.tsx:48-77 | the four known statuses get their labels; any other status is shown verbatim |
| `UserDashboard.KnownLabelsDistinct` | app/user/dashboard/page.tsx:48-77 | the four known statuses get four different labels |
| `UserDashboard.TabRequests` | app/user/dashboard/page.tsx:99-200 | never longer than the list; "all" shows every request; every other tab shows exactly the requests of its statuses, pending including in-progress |
| `UserDashboard.TabRequestsAppend` | app/user/dashboard/page.tsx:139-200 | every tab's filter distributes over concatenation, so requests keep their order |
| `UserDashboard.TabRequestsUnit` | app/user/dashboard/page.tsx:139-200 | one request is listed once or not at all on each tab, by `InTab` |
| `UserDashboard.TabsPartition` | app/user/dashboard/page.tsx:139-200 | with known statuses, the pending, approved and rejected tabs split the list |
| `UserDashboard.UnknownStatusOnlyOnAll` | app/user/dashboard/page.tsx:99-200 | a request with an unknown status appears only on "all" |
| `UserDashboard.Card` | app/user/dashboard/page.tsx:117-229 | feedback on "all" and rejected, assignee on "all" and pending, each when present; resubmit on rejected cards |
| `UserDashboard.ResubmitIffRejected` | app/user/dashboard/page.tsx:131-229 | on any tab, resubmit is offered iff the request is rejected |
| `UserDashboard.RejectedCardsAgree` | app/user/dashboard/page.tsx:117-229 | a rejected request shows the same feedback and resubmit on "all" and on the rejected tab |
| `UserDashboard.SampleStatusesKnown` | app/user/dashboard/page.tsx:10-45 | every sample request has a known status |
| `Collections.Keep` | app/admin/workflows/page.tsx:161 | `filter`: never longer than the input; every kept element is from the input and passes; every passing element is kept |
| `Collections.KeepAppend` | app/admin/workflows/page.tsx:161 | `filter` distributes over concatenation, so survivors keep their order |
| `Collections.KeepUnit` | app/admin/workflows/page.tsx:161 | `filter` keeps or drops each single element whole, never duplicating it |
| `Collections.KeepEmptyIff` | app/admin/dashboard/page.tsx:430-436 | a filter is empty exactly when no element passes, so a zero card means no such row |
| `Collections.MapWhere` | app/admin/workflows/page.tsx:101-108 | the selective `map`: length kept, selected elements replaced by their image, the others kept |
| `Collections.Find` | app/admin/workflows/page.tsx:135 | `find`: none iff nothing passes; otherwise the first passing element |
| `Text.NatToString` | app/admin/workflows/page.tsx:139 | `String(n)`: a non-empty digit string, with a leading zero only for zero, one digit iff below ten |
| `Text.NatToStringRoundTrip` | app/admin/workflows/page.tsx:139 | the rendered digits read back as the number |
| `Text.PadStart` | app/finance-department/dashboard/page.tsx:247 | `padStart`: length is the larger of the width and the input; the input is the suffix; the rest is the fill character |
| `Text.Lower` | components/settings/user-management-settings.tsx:92-94 | `toLowerCase` on ASCII: same length, no upper-case letter left, each character lower-cases to the same as the input's |
| `Text.IncludesIff` | components/settings/user-management-settings.tsx:92-94 | `includes` holds iff the needle occurs at some position |
| `Text.TrimEmptyIff` | components/settings/user-management-settings.tsx:141 | `trim` leaves nothing iff every character is whitespace or a line terminator |
| `Text.ReplaceFirst` | app/user/request/page.tsx:375 | `replace` of the first occurrence of a character keeps the length |
| `Text.ReplaceFirstAt` | app/user/request/page.tsx:375 | only the first occurrence is replaced; the text after it is kept as is |

## Left out

- Timers are left out. The delays of login, sign-up, saving, the request form and payment completion become explicit second operations or disappear.
- Toasts, dialogs' visual state beyond their open flags, icons, priority badges, colours other than those modelled, and `router.push` redirects are left out. The login redirect is the `location` field; the sign-up redirect is not modelled.
- The logout handlers on the admin, workflow and finance pages (app/admin/workflows/page.tsx:79-98 and the like) only clear browser storage and redirect, so they are not modelled.
- `Date.now()`, `new Date()` years and dates, and `Math.random()` in the invoice number are parameters.
- `Intl.NumberFormat` currency formatting is left out.
- Money is exact `real`, not JavaScript floating point. The balance colour boundary `total * 0.2` and the summary sums are therefore exact, and no claim is made about floating-point rounding.
- The average success rate card (app/admin/workflows/page.tsx:414) uses `parseInt` and `Math.round` over percentage strings and is not modelled.
- The `parseFloat`/`parseInt` conversions of the admin edit inputs are not modelled; an edit replaces the draft with any record of the same id.
- `AdminRequests.BadgeLabel` states only the label's length as its own contract; the labels of the four statuses are the separate lemmas beside it.
- `toLowerCase` and `toUpperCase` are modelled on ASCII letters only; JavaScript applies Unicode case mapping. `trim` uses JavaScript's full whitespace and line-terminator set.
- String lengths are counted in Dafny characters, not UTF-16 code units.
- The user request form's submit never adds to the table (app/user/request/page.tsx:82-96); the model shows only its flags.
- Workflow step editing and the workflow create, edit and preview pages are not part of this model; the list only carries a `steps` count.
- Id uniqueness is not established for any table, because generated ids can collide; properties that need it take it as a precondition.
- The browser storage writes of a successful login are modelled as a map the page owns, with structured keys; JSON serialisation of the session record is not modelled.
- AdminRequests.AdminRequestsTable.ConfirmDelete and AdminRequests.AdminRequestsTable.SaveEdit require a selected request. With nothing selected the page would throw a TypeError on `selectedRequest.id` (app/admin/dashboard/page.tsx:217, 228). That cannot happen from the UI because the dialogs open only through a selection, so the throw is not modelled.
- FinancePayments.FinanceDashboard.EditDraft and FinancePayments.FinanceDashboard.ProcessPayment require a selected draft for the same reason (app/finance-department/dashboard/page.tsx:253-257, 641-671). The TypeError on a null selection is not modelled.
- Integrations.UpdateField takes one of the seven setting names the cards pass (components/settings/integration-settings.tsx:126-219). The handler accepts any string as a computed key (lines 71-75), so a call with `connected`, `id` or `name` could overwrite those. No call site does that, and `UpdateKeepsConnections` holds only over the seven names.
- The "Payment History" item (app/finance-department/dashboard/page.tsx:508-511) is modelled as an offered action. It has no handler, so choosing it does nothing to model.
- Login.LoginPage.HandleSubmit does not model the disabled submit button while loading (app/login/page.tsx:288). A second accepted submission before the first lookup replaces the scheduled values, whereas the source would run two lookups.
