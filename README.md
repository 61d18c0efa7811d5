# TaskEarn client decision rules in Dafny

TaskEarn is a coin-based micro-task marketplace. Buyers post tasks and pay
workers in coins. Workers submit work and withdraw coins as money. Admins
manage users, tasks and withdrawal requests. This project models the web
client's own decision rules, which sit around calls to the server:

- **Validators.** Registration (with the password-strength score), login,
  task creation, withdrawal, work submission and report filing. Each
  returns the first failing check, and checks run in the code's order.
- **Money.** The withdrawal rate is 20 coins per dollar, and the minimum is
  200 coins. Dollar values are exact whole cents (a coin is 5 cents). The
  coin-package catalogue is fixed.
- **Pagination.** The task list builds its query and resets to page 1 when
  a filter changes. Both lists have Previous/Next transitions, and these
  keep the page in range.
- **List updates after server actions.**
  - Approving, rejecting and deleting remove by id.
  - Removing a user removes by email.
  - A role change or task edit updates by key.
  - Each removes or rewrites exactly the matching entries and keeps the
    others in order.
- **Role dispatch.**
  - Each role gets its own sidebar menu.
  - The dashboard index redirects each role to its home page.
  - A route table lists the roles each route admits.
  - For each role, every sidebar entry is a route that admits that role.

A server call is modelled as a boolean outcome (`ok`). A handler returns the
request it would send as data, next to the new page state. Text inputs are
`string`. An `<input type="number">` is an `Option<int>`, where `None` is
the empty box and reads as 0. Trimming and the `\s` class use JavaScript's
whitespace set (module `Text`).

The registration form's password message asks for "at least 8 characters
and include uppercase, lowercase, and a number". The check only requires a
score of 3 out of 5. The model follows the check:
`Register.ShortPasswordAccepted` shows that `"aB1"` is accepted.

## Model

| member | source | states |
|---|---|---|
| Text.TrimStart | src/pages/Register.jsx:48 | the result is a suffix of the input, what was cut is all whitespace, and it does not start with whitespace |
| Text.TrimEnd | src/pages/Register.jsx:48 | the result is a prefix of the input, what was cut is all whitespace, and it does not end with whitespace |
| Text.Trim | src/pages/Register.jsx:48 | `trim` gives a slice `s[i..j]` with only whitespace before `i` and after `j`, whose ends are not whitespace; it is empty exactly when the text is all whitespace |
| Text.NumberValue | src/pages/dashboard/AddTask.jsx:41-42 | an empty number input reads as 0, any other as its value |
| EmailFormat.PatternGivesShape | src/pages/Register.jsx:56 | an address matching the pattern has no whitespace, exactly one '@' (not first), and a '.' with text on both sides in the domain |
| EmailFormat.ShapeGivesPattern | src/pages/Register.jsx:56 | every address of that shape matches the pattern |
| EmailFormat.EmailPatternCharacterized | src/pages/Register.jsx:56 | the pattern accepts exactly the addresses of that shape |
| EmailFormat.MatchingEmailIsNotBlank | src/pages/Login.jsx:24-31 | an address passing the format check also passes the blank check |
| EmailFormat.SurroundingSpaceRejected | src/pages/Login.jsx:28 | the pattern runs on untrimmed text, so a leading or trailing space fails it |
| Register.Strength | src/pages/Register.jsx:9-17 | the reference score: the number of the five criteria the password meets, never more than 5 |
| Register.PasswordStrength | src/pages/Register.jsx:9-17 | the score equals the number of criteria met and lies in 0..5 |
| Register.StrengthIsSumOfPoints | src/pages/Register.jsx:10-16 | length >= 8, an upper-case letter, a lower-case letter, a digit and a non-alphanumeric character each add exactly one point |
| Register.StrengthZeroIffEmpty | src/pages/Register.jsx:10-16 | the score is 0 exactly for the empty password |
| Register.StrengthGrowsWithText | src/pages/Register.jsx:10-16 | appending characters never lowers the score |
| Register.ValidateRegistration | src/pages/Register.jsx:44-63 | checks in order: client configured, name, email present, email format, score >= 3; each error is reported exactly when the earlier checks pass and its own fails |
| Register.AcceptedEmailHasShape | src/pages/Register.jsx:56-59 | an accepted registration's address has the plain shape above |
| Register.SampleStrength | src/pages/Register.jsx:11-15 | "aB1" scores 3 |
| Register.ShortPasswordAccepted | src/pages/Register.jsx:60-63 | a 3-character password passes the password check |
| Register.StartingCoin | src/pages/Register.jsx:81 | the server's coin, else 10 for a worker and 50 for any other role |
| Register.StoredPhoto | src/pages/Register.jsx:79 | the trimmed typed URL when not blank, else the provider's photo, else "" |
| Register.StoredUser | src/pages/Register.jsx:76-82 | the stored user has the account's email, the trimmed name, the stored photo, the chosen role and the starting coin |
| Login.ValidateLogin | src/pages/Login.jsx:20-35 | checks in order: client configured, email present, email format, password non-empty; each error exactly when the earlier checks pass and its own fails |
| Login.SpacesPasswordPasses | src/pages/Login.jsx:32-35 | a password of spaces passes, since it is not trimmed |
| Login.AfterLoginTarget | src/pages/Login.jsx:15 | the origin path, or /dashboard when there is none or it is empty |
| Login.FallbackUser | src/pages/Login.jsx:45-51 | when the profile fetch fails, the stored user is a worker with 0 coins |
| Login.FirstGoogleRegistration | src/pages/Login.jsx:82-87 | a first-time Google user registers with the account's email as worker, named "User" when there is no display name, with photo "" when there is none |
| Login.FirstGoogleUser | src/pages/Login.jsx:88-94 | the stored Google user has the account's email and the raw display name and photo, is a worker, and has the server's coin, else 10 |
| Login.StoredNameSkipsDefault | src/pages/Login.jsx:84-90 | an empty display name is registered as "User" but stored as "" |
| Login.ValidateGoogle | src/pages/Login.jsx:68-71 | Google sign-in proceeds exactly when both the client and the provider are configured |
| Login.SameEmailRuleAsRegistration | src/pages/Login.jsx:28-31 | login rejects an address as invalid exactly when registration does |
| AddTask.ValidateTask | src/pages/dashboard/AddTask.jsx:44-67 | checks in order: title, detail, workers >= 1, pay >= 1, date, submission info; each error exactly when the earlier checks pass and its own fails |
| AddTask.ValidTaskCost | src/pages/dashboard/AddTask.jsx:41-59 | a valid form's total cost is at least its pay and at least its worker count, both >= 1 |
| AddTask.PayloadOf | src/pages/dashboard/AddTask.jsx:77-82 | the posted counts are the form's worker count and pay, whose product is the total cost; title, detail, date, submission info and image URL are the form's |
| AddTask.SubmitTask | src/pages/dashboard/AddTask.jsx:38-91 | posts exactly when the checks pass and the balance covers the total; a short balance gives "Not enough coins" and goes to purchase-coin; a successful post empties the form and goes to my-tasks; a failed profile fetch or a failed post shows the request error and stays on the page |
| AddTask.ExactBalanceSuffices | src/pages/dashboard/AddTask.jsx:71 | a balance equal to the total is enough to post |
| AddTask.ResetFormFailsFirstCheck | src/pages/dashboard/AddTask.jsx:83 | the reset form reads 0 workers and 0 pay and fails at the title check |
| Records.CoinBalance | src/pages/dashboard/Withdrawals.jsx:20 | a missing user or coin counts as 0 (also the header balance, DashboardLayout.jsx line 102) |
| Withdrawals.DollarCents | src/pages/dashboard/Withdrawals.jsx:19-21 | cents × 20 = coins × 100, so coins/20 dollars is exact in cents |
| Withdrawals.MinimumIsTenDollars | src/pages/dashboard/Withdrawals.jsx:7 | 200 coins are 1000 cents |
| Withdrawals.CheckWithdrawal | src/pages/dashboard/Withdrawals.jsx:30-37 | below 200 is rejected first, then above the balance; passes exactly when 200 <= coins <= balance |
| Withdrawals.ButtonMatchesGuards | src/pages/dashboard/Withdrawals.jsx:117 | when not loading, the button is enabled exactly when both guards pass |
| Withdrawals.EnabledOnlyWhenOffered | src/pages/dashboard/Withdrawals.jsx:22 | an enabled button implies a balance of at least 200, so the form was offered |
| Withdrawals.SubmitWithdrawal | src/pages/dashboard/Withdrawals.jsx:28-58 | sends exactly when the guards pass, and what it sends is within 200..balance; a successful post clears the coin and account fields and keeps the payment system; the success message shows only when the refetches after it also succeed, otherwise the request error |
| Withdrawals.PostedThenRefreshFailed | src/pages/dashboard/Withdrawals.jsx:46-54 | a post followed by a failed refetch leaves the fields cleared and shows the error |
| Withdrawals.PaymentSystemStaysOffered | src/pages/dashboard/Withdrawals.jsx:12 | the initial channel is offered, and a submit keeps an offered channel in the form and in the request |
| Withdrawals.MinimumCheckedFirst | src/pages/dashboard/Withdrawals.jsx:30-33 | a request below 200 gets the minimum message and sends nothing, whatever the balance |
| Withdrawals.EmptyInputRejected | src/pages/dashboard/Withdrawals.jsx:18 | an empty coin box counts as 0 and is rejected by the minimum |
| PurchaseCoin.CatalogueIncreasing | src/pages/dashboard/PurchaseCoin.jsx:10-15 | coins and price both strictly increase along the catalogue |
| PurchaseCoin.IndexOf | src/pages/dashboard/PurchaseCoin.jsx:23 | -1 exactly when absent; otherwise the first position holding the package |
| PurchaseCoin.IndexOfChosenPackage | src/pages/dashboard/PurchaseCoin.jsx:23 | the index sent for the i-th package is i |
| PurchaseCoin.DemoConfirmation | src/pages/dashboard/PurchaseCoin.jsx:38 | the demo confirmation carries the package's coins and price |
| PurchaseCoin.AfterIntent | src/pages/dashboard/PurchaseCoin.jsx:22-32 | demo mode sets the "not configured" error, a failure the "failed to create" error, otherwise the client secret is kept |
| PurchaseCoin.DemoPanelAfterIntent | src/pages/dashboard/PurchaseCoin.jsx:47 | a fresh checkout shows the demo panel exactly when the answer was demo mode or a failure |
| PurchaseCoin.DemoPay | src/pages/dashboard/PurchaseCoin.jsx:34-45 | sends the package's coins and price; failure sets an error, success clears it |
| TaskList.Decimal | src/pages/dashboard/TaskList.jsx:13 | the page number is written as non-empty decimal digits |
| TaskList.DecimalRoundTrip | src/pages/dashboard/TaskList.jsx:13 | reading the written digits back gives the page number |
| TaskList.LimitIsPageSize | src/pages/dashboard/TaskList.jsx:13 | the limit text "12" is the page size in decimal |
| TaskList.NamesDistinct | src/pages/dashboard/TaskList.jsx:13-16 | the five query names are pairwise distinct, so comparing keys as values agrees with comparing the names |
| TaskList.Lookup | src/pages/dashboard/TaskList.jsx:13-16 | a key is absent exactly when no entry carries it |
| TaskList.Set | src/pages/dashboard/TaskList.jsx:14-16 | after setting a key that was absent it maps to the value, every other key keeps its value, and no key appears twice |
| TaskList.NewParams | src/pages/dashboard/TaskList.jsx:13 | a fresh query holds the page (in decimal) and limit "12" and no other key, each once |
| TaskList.SetIfGiven | src/pages/dashboard/TaskList.jsx:14-16 | a filter key is added exactly when its box is non-empty; other keys keep their values and none appears twice |
| TaskList.BuildQuery | src/pages/dashboard/TaskList.jsx:13-16 | the query always has page and limit=12; search, rewardMin and rewardMax appear exactly when non-empty; no key twice |
| TaskList.PreviousPage | src/pages/dashboard/TaskList.jsx:77 | Previous gives max(1, p-1), never below 1 |
| TaskList.NextPage | src/pages/dashboard/TaskList.jsx:85 | Next adds exactly 1 |
| TaskList.Apply | src/pages/dashboard/TaskList.jsx:27-86 | editing search or a reward filter resets to page 1; Previous/Next act only when the pager is shown (total > 12) and the button is enabled (page > 1; page×12 < total) |
| TaskList.FilterEditResetsPage | src/pages/dashboard/TaskList.jsx:27-41 | each filter edit returns to page 1 |
| TaskList.ApplyKeepsPageInRange | src/pages/dashboard/TaskList.jsx:74-86 | every action keeps the page >= 1 and each page after the first starting at a counted task |
| TaskList.RunKeepsPageInRange | src/pages/dashboard/TaskList.jsx:74-86 | any run of actions keeps the page in range |
| TaskList.InitialInRange | src/pages/dashboard/TaskList.jsx:8 | the initial page 1 is in range |
| MySubmissions.RequestFor | src/pages/dashboard/MySubmissions.jsx:5-12 | every request asks for 10 per page |
| MySubmissions.StatusColor | src/pages/dashboard/MySubmissions.jsx:15-19 | approved is green, rejected is red, anything else is amber, each exactly |
| MySubmissions.PreviousPage | src/pages/dashboard/MySubmissions.jsx:54 | max(1, p-1) |
| MySubmissions.NextPage | src/pages/dashboard/MySubmissions.jsx:62 | min(totalPages, p+1) |
| MySubmissions.Apply | src/pages/dashboard/MySubmissions.jsx:51-66 | clicks act only when the pager is shown (totalPages > 1) and the button is enabled (page > 1; page < totalPages) |
| MySubmissions.ClicksKeepRange | src/pages/dashboard/MySubmissions.jsx:53-66 | clicks keep 1 <= page <= totalPages |
| MySubmissions.PageStaysPositive | src/pages/dashboard/MySubmissions.jsx:54 | the page never drops below 1 |
| MySubmissions.NextClampInactiveWhenEnabled | src/pages/dashboard/MySubmissions.jsx:62-63 | with Next enabled, the clamp never binds and Next adds 1 |
| TaskDetails.TakeSlot | src/pages/dashboard/TaskDetails.jsx:30 | required_workers drops by exactly 1 and no other field changes; a missing task stays missing |
| TaskDetails.Submit | src/pages/dashboard/TaskDetails.jsx:18-36 | blank details show a prompt and send nothing; otherwise the route id and trimmed details are sent, and success clears the box and takes a slot |
| TaskDetails.SentDetailsAreTrimmed | src/pages/dashboard/TaskDetails.jsx:27 | sent details are non-empty and carry no surrounding whitespace |
| TaskDetails.SubmitFromVisibleForm | src/pages/dashboard/TaskDetails.jsx:63 | submitting from the visible form keeps the quota >= 0, and taking the last slot hides the form |
| TaskDetails.NoDoubleSubmit | src/pages/dashboard/TaskDetails.jsx:20-29 | after a success, submitting again sends nothing |
| TasksToReview.DecisionFor | src/pages/dashboard/TasksToReview.jsx:17 | the decision request names the submission and the verdict |
| TasksToReview.DecisionMembers | src/pages/dashboard/TasksToReview.jsx:18 | after a successful approve or reject, exactly the submissions with other ids remain |
| TasksToReview.DecisionRemovesOne | src/pages/dashboard/TasksToReview.jsx:26 | with distinct ids, the decided entry goes and the rest keep their order |
| TasksToReview.DecisionOnUnlistedId | src/pages/dashboard/TasksToReview.jsx:18 | deciding an unlisted id leaves the list unchanged |
| TasksToReview.Decide | src/pages/dashboard/TasksToReview.jsx:15-29 | on failure nothing changes; on success the modal closes |
| TasksToReview.Report | src/pages/dashboard/TasksToReview.jsx:31-39 | sends exactly when a submission is open and the reason is not blank, with that id and the trimmed reason; success clears the reason and reporting id and closes the modal |
| TasksToReview.ReportKeepsPending | src/pages/dashboard/TasksToReview.jsx:31-38 | reporting never changes the pending list |
| MyTasks.FormOf | src/pages/dashboard/MyTasks.jsx:16 | the edit form holds the task's title, detail and submission info |
| MyTasks.StartEdit | src/pages/dashboard/MyTasks.jsx:14-17 | opening the editor fills the form from the task |
| MyTasks.Merge | src/pages/dashboard/MyTasks.jsx:23 | the merge takes the form's three fields and keeps every other field |
| MyTasks.MergeOwnForm | src/pages/dashboard/MyTasks.jsx:23 | merging a task's own form gives the task back |
| MyTasks.Save | src/pages/dashboard/MyTasks.jsx:19-26 | with no edit, nothing is sent or changed; otherwise the form is sent for the edited id; failure changes nothing |
| MyTasks.SaveTouchesOnlyTheEditedTask | src/pages/dashboard/MyTasks.jsx:23 | success rewrites the three fields of the tasks with the edited id and leaves the others |
| MyTasks.SaveKeepsWorkersAndPay | src/pages/dashboard/MyTasks.jsx:8-23 | no save changes a task's id, worker count, pay or date |
| MyTasks.UnchangedFormKeepsList | src/pages/dashboard/MyTasks.jsx:14-23 | saving an untouched form leaves the list as it was |
| MyTasks.Delete | src/pages/dashboard/MyTasks.jsx:28-35 | nothing without confirmation; otherwise the id is sent; success removes by id and closes the editor; failure changes nothing |
| MyTasks.DeleteMembers | src/pages/dashboard/MyTasks.jsx:32 | exactly the tasks with other ids remain |
| MyTasks.DeleteRemovesOne | src/pages/dashboard/MyTasks.jsx:32 | with distinct ids, the deleted entry goes and the rest keep their order |
| ManageUsers.SelectableRolesAreTheThreeRoles | src/pages/dashboard/ManageUsers.jsx:60-62 | the selector offers exactly admin, buyer and worker |
| ManageUsers.ChangeRole | src/pages/dashboard/ManageUsers.jsx:13-19 | the email and role are sent; failure changes nothing; success closes the selector |
| ManageUsers.RoleChangeTouchesOnlyThatUser | src/pages/dashboard/ManageUsers.jsx:16 | success sets the role of the users with that email, and no other field or user changes |
| ManageUsers.RoleChangeKeepsEmails | src/pages/dashboard/ManageUsers.jsx:16 | a role change never adds, drops or reorders users |
| ManageUsers.Remove | src/pages/dashboard/ManageUsers.jsx:21-27 | nothing without confirmation; otherwise the email is sent; success removes by email; failure changes nothing |
| ManageUsers.RemoveMembers | src/pages/dashboard/ManageUsers.jsx:25 | exactly the users with other emails remain |
| ManageUsers.RemoveDropsOne | src/pages/dashboard/ManageUsers.jsx:25 | with distinct emails, the removed entry goes and the rest keep their order |
| ManageTasks.Delete | src/pages/dashboard/ManageTasks.jsx:12-18 | nothing without confirmation; otherwise the id is sent; success removes by id; failure changes nothing |
| ManageTasks.DeleteMembers | src/pages/dashboard/ManageTasks.jsx:16 | exactly the tasks with other ids remain |
| ManageTasks.DeleteKeepsOrder | src/pages/dashboard/ManageTasks.jsx:16 | deleting from a concatenation deletes from each part, so relative order is kept |
| ManageTasks.DeleteRemovesOne | src/pages/dashboard/ManageTasks.jsx:16 | with distinct ids, the deleted entry goes and the rest keep their order |
| WithdrawRequests.Apply | src/pages/dashboard/WithdrawRequests.jsx:12-17 | Payment Success is the only action; success removes by id; failure changes nothing |
| WithdrawRequests.ApproveOnlyShrinks | src/pages/dashboard/WithdrawRequests.jsx:15 | approval never adds a request, and the approved id is gone |
| WithdrawRequests.ApproveRemovesOne | src/pages/dashboard/WithdrawRequests.jsx:15 | with distinct ids, the approved entry goes and the rest keep their order |
| WithdrawRequests.RunOnlyShrinks | src/pages/dashboard/WithdrawRequests.jsx:45-52 | any sequence of approvals leaves only requests that were pending |
| DashboardLayout.NavFor | src/layouts/DashboardLayout.jsx:40 | worker gets the worker menu, buyer the buyer menu, any other role or no user the admin menu |
| DashboardLayout.EveryMenuEndsWithProfile | src/layouts/DashboardLayout.jsx:10-36 | every menu's last entry is /dashboard/profile |
| DashboardLayout.PaymentHistoryOnlyForWorkersAndBuyers | src/layouts/DashboardLayout.jsx:10-40 | payment history is linked exactly for worker and buyer |
| DashboardIndex.Home | src/pages/dashboard/DashboardIndex.jsx:4-24 | no user: nothing; worker, buyer, admin: replace-redirect to their homes, each exactly; any other role: the role-missing panel |
| DashboardIndex.RedirectsReplace | src/pages/dashboard/DashboardIndex.jsx:7-9 | every redirect uses replace |
| DashboardIndex.HomesDistinct | src/pages/dashboard/DashboardIndex.jsx:7-9 | different roles go to different homes |
| App.Find | src/App.jsx:33-67 | the first route whose pattern matches, or none exactly when no route matches |
| App.Resolve | src/App.jsx:66 | an unmatched path redirects to / exactly when no route matches |
| App.ExactPathsDistinct | src/App.jsx:34-64 | no two fixed paths coincide, so first match is the only match |
| App.FixedPathsHaveNoId | src/App.jsx:50 | no fixed path also matches task-details/:id |
| App.ResolveExact | src/App.jsx:34-64 | each fixed path resolves to its own screen and guard |
| App.WorkerOnlyRoutes | src/App.jsx:48-52 | worker-home, task-list, task-details/:id, my-submissions and withdrawals are exactly the worker-only routes |
| App.BuyerOnlyRoutes | src/App.jsx:53-57 | buyer-home, add-task, my-tasks, tasks-to-review and purchase-coin are exactly the buyer-only routes |
| App.AdminOnlyRoutes | src/App.jsx:59-63 | admin-home, manage-users, manage-tasks, withdraw-requests and reports are exactly the admin-only routes |
| App.SharedAndOpenRoutes | src/App.jsx:34-64 | payment-history admits exactly buyer and worker; profile and the index carry only the dashboard guard; /, /login and /register are outside it |
| App.ResolveTaskDetails | src/App.jsx:50 | every task-details/:id path reaches the task-details screen for workers only |
| App.RelativePathRedirects | src/App.jsx:66 | a path not starting with / is redirected home |
| App.MenuEntriesAdmitRole | src/layouts/DashboardLayout.jsx:10-36 | for worker, buyer and admin, every menu entry is a signed-in route whose role list admits that role |
| App.WorkerMenuPositions | src/layouts/DashboardLayout.jsx:10-17 | every worker menu entry is a route admitting workers |
| App.BuyerMenuPositions | src/layouts/DashboardLayout.jsx:19-27 | every buyer menu entry is a route admitting buyers |
| App.AdminMenuPositions | src/layouts/DashboardLayout.jsx:29-36 | every admin menu entry is a route admitting admins |
| App.HomeRedirectAdmitsRole | src/pages/dashboard/DashboardIndex.jsx:7-9 | each role's home redirect is a route that admits it |
| App.AssignableRolesHaveHomes | src/pages/dashboard/ManageUsers.jsx:60-62 | every role an admin can assign has a home redirect |
| Lists.Filter | src/pages/dashboard/TasksToReview.jsx:18 | `.filter` never lengthens a list (its members are given by Lists.FilterMembers) |
| Lists.FilterMembers | src/pages/dashboard/TasksToReview.jsx:18 | an element survives exactly when it was there and passes the test |
| Lists.MapWhere | src/pages/dashboard/MyTasks.jsx:23 | the `.map(x => … ? f(x) : x)` update keeps the length, replaces each selected element by its image and keeps the others |
| Lists.RemoveKey | src/pages/dashboard/ManageTasks.jsx:16 | removing by key never lengthens a list (its members are given by Lists.RemoveKeyMembers) |
| Lists.FilterConcat | src/pages/dashboard/ManageTasks.jsx:16 | filtering a concatenation is the concatenation of the filtered parts |
| Lists.FilterRemovesOne | src/pages/dashboard/TasksToReview.jsx:18 | filtering out the one rejected entry leaves the rest in order |
| Lists.RemoveKeyAt | src/pages/dashboard/WithdrawRequests.jsx:15 | with distinct keys, removing the i-th key gives the list without position i |
| Lists.RemoveKeyMembers | src/pages/dashboard/ManageUsers.jsx:25 | exactly the entries with other keys remain |
| Lists.UpdateKey | src/pages/dashboard/ManageUsers.jsx:16 | same length; matching entries are mapped and the others kept, position by position |

## Left out

- The coin ledger is not modelled: escrow on posting, payout on approval, refunds on delete, and withdrawal processing. It lives on the server; the client only calls endpoints.
- HTTP calls, their async ordering and races between them are not modelled. Each handler takes the outcome of each of its requests as a boolean (Withdrawals.SubmitWithdrawal has one for the post and one for the refetches after it), and the server's error text is one abstract constructor per message.
- Loading flags are not modelled, except where they disable a button (`Withdrawals.SubmitEnabled`).
- Data fetched on page load replaces a list wholesale; it is modelled only as the page count in `MySubmissions.Apply`.
- Firebase authentication, `localStorage` writes, `window.location.reload` and navigation are not modelled. A navigation appears only as its target path.
- Stripe Elements, the card form and the refetch of the user after payment are not modelled, and neither is image upload to ImgBB. Both are foreign services. `src/lib/api.js` and `src/components/PrivateRoute.jsx` are not part of this model.
- The model does not capture `PrivateRoute`'s behaviour. `App.Admits` reads the route table alone: no role list, or the role is in the list.
- React Router matching is not modelled: case-insensitivity, trailing slashes, ranking by specificity. The table's fixed paths are pairwise distinct and no fixed path matches `task-details/:id`, so first-match and ranked matching agree.
- `Number()` of non-numeric or fractional text is not modelled (NaN passes `< 1`). Number inputs are whole numbers or empty. Dollar amounts are whole cents instead of `toFixed(2)` text.
- The ISO conversion of the completion date is not modelled, and neither is date display.
- AddTask.SubmitTask: a profile without `coin` is not modelled. In the code, `undefined < total` is false and the task is posted. Here the balance is either a number or a failed profile fetch.
- PurchaseCoin.IndexOf: compares packages by value, where `PACKAGES.indexOf(pkg)` compares object identity. The two agree on every input the page produces, because the chosen package is always an element of the catalogue, and its entries are distinct.
- FirstGoogleUser: a missing display name or photo is stored as JSON `null`; the model's user record has no null, so it takes the provider's values as strings.
- Withdrawals.SubmitWithdrawal: the refetched profile and withdrawal list that replace the page's data after a post are not modelled, only whether the refetch succeeded.
- Register.PasswordStrength: `p.length` counts UTF-16 code units; the model counts characters.
- TaskList.RunKeepsPageInRange: holds for a fixed task count. A reload that shrinks the count under the current page is not covered.
- Rendering is not modelled: labels, the "10 coins = $1" caption of the purchase page, and the role selector's open/close via `setRoleEdit`.
