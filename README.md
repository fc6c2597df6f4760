# NGO front end: sessions, route guards and list editing, in Dafny

This project models the logic of the NGO invoice-management front end
(pureluna/ngo_frontend, React and TypeScript). Every page is JSX around a
small core, and that core is modelled here:

- the role-to-permission table and the three-field session of the
  authentication context, mirrored into the browser's key/value store and
  read back at start-up;
- the `PrivateRoute` guard and the route table, with `PublicRoute` in front
  of the sign-in and sign-up pages;
- sign-in against the seed accounts and the user registry, with the seed
  merge and the return path;
- sign-up with its validation chain and email uniqueness;
- the user-management handlers (approve, reject, delete, change role), each
  written back to the store;
- the mock service's in-memory invoice and user lists;
- the invoice list page, the new-invoice form and the filterable invoice
  table;
- the role menus of the dashboard and the top bar, and the role context.

One module per source file. `Common` holds `Option`, `Result`, the role
enumeration, and `Filter` / `FindFirst` (`Array.prototype.filter` /
`findIndex`) with their lemmas. `Storage` holds the stored records and
`LocalStorage`, a class with a `map<string, string>` of plain keys and two
typed list slots, `users` and `invoices` (the `users` and `mockInvoices` keys). A list slot is `Absent`,
`Corrupt` (text `JSON.parse` rejects) or a `List`. Whatever changes state in
the source is a class whose methods say what they modify. The `map` and
`filter` bodies are functions with lemmas.

The model joins the route table, the permission table and the menus. It
proves that every menu destination of every role passes the guard except
one. The volunteer's "My Invoices" card and button lead to `/my-invoices`.
That route requires `view_invoices`, which no role holds, so no session ever
sees that page (`Routes.MyInvoicesUnreachable`,
`DashboardPage.DashboardCardsReachable`). The model also states these facts
as written:

- hydration does not fail closed;
- sign-in ignores the approval status;
- the role change has no guard for super administrators;
- the super administrator cannot open the new-invoice form.

## Model

| member | source | states |
|---|---|---|
| AuthContext.PermissionTableShape | src/contexts/AuthContext.tsx:18-44 | every role has a non-empty list; all three hold `view_all_invoices`; only volunteers hold `create_invoices`; only the super administrator holds `delete_invoices`; no role holds `view_invoices` |
| AuthContext.HasPermission | src/contexts/AuthContext.tsx:104-107 | false for a null or empty role whatever the authentication flag; for a role name, true exactly when the permission is in that role's list; an error (the TypeError of the lookup) exactly when the role is a non-empty string naming no role |
| AuthContext.Hydrate | src/contexts/AuthContext.tsx:55-63 | authenticated exactly when the stored flag is the string "true"; role and email are the stored strings when their keys exist, each read on its own |
| AuthContext.Mirror | src/contexts/AuthContext.tsx:65-87 | the flag key is present exactly when authenticated, with value "true"; the role and email keys are present exactly when the fields are truthy, with their values; every other key is untouched |
| AuthContext.HydrateMirror | src/contexts/AuthContext.tsx:55-87 | hydrating the store the effects wrote gives back the session, for every session whose optional fields are absent or non-empty |
| AuthContext.LoginSurvivesRestart | src/contexts/AuthContext.tsx:55-93 | after a persisted `login(role, email)` a restart gives the same three fields; an empty email is not written and comes back null |
| AuthContext.HydrateDoesNotFailClosed | src/contexts/AuthContext.tsx:55-63 | a stored "true" with no role and no email hydrates to an authenticated session with a null role |
| AuthContext.MirrorSignedOut | src/contexts/AuthContext.tsx:65-102 | persisting the signed-out session removes exactly the three keys |
| AuthContext.AuthProvider.constructor | src/contexts/AuthContext.tsx:54-87 | the cells start as the hydrated store, and the effects then leave the store mirroring them |
| AuthContext.AuthProvider.Persist | src/contexts/AuthContext.tsx:65-87 | the store becomes the mirror of the current session; the list slots are unchanged |
| AuthContext.AuthProvider.Login | src/contexts/AuthContext.tsx:89-93 | authenticated, role and email are set together, and the store mirrors them |
| AuthContext.AuthProvider.Logout | src/contexts/AuthContext.tsx:95-102 | the session is false/null/null and the store loses exactly the three keys |
| Guard.PrivateRoute | src/routes/PrivateRoute.tsx:12-32 | unauthenticated always goes to `/login` carrying the location, and only then; a role mismatch or a permission lookup that says no goes to `/not-authorized`; it renders exactly when authenticated and the session meets the requirement (independent definition `Meets`); it throws only for a non-role string under a permission requirement |
| Guard.GuardTotalOnWellTypedSessions | src/routes/PrivateRoute.tsx:16-31 | for sessions whose role is absent or a role name the guard never throws, and with both props given it renders only when both hold |
| Guard.NoRequirementAdmitsEverySession | src/routes/PrivateRoute.tsx:16-31 | with no props every authenticated session renders |
| Routes.PublicRoute | src/App.tsx:25-28 | redirects to `/dashboard` exactly when authenticated |
| Routes.Navigate | src/App.tsx:50-165 | a path no route spells exactly matches nothing; a shown page is the requested one; unguarded paths always show; protected paths show only to authenticated sessions and send the others to `/login` carrying the path |
| Routes.RoutesCarryOneRequirement | src/App.tsx:73-161 | no route sets both a role and a permission, and every permission named is non-empty |
| Routes.RoleGatedRoutes | src/App.tsx:84-161 | `/users` and `/reports/generate` admit exactly the super administrator, `/accounts/add` exactly the administrator |
| Routes.PermissionGatedRoute | src/App.tsx:94-143 | a permission-gated route admits a signed-in role exactly when the role holds the permission, and otherwise sends it to `/not-authorized` |
| Routes.MyInvoicesUnreachable | src/App.tsx:128-135 | no session, signed in or not, is shown `/my-invoices` |
| Routes.SuperAdminCannotCreateInvoices | src/App.tsx:102-109 | the super administrator is sent to `/not-authorized` from `/invoices/new` |
| Routes.SignedInSkipsPublicPages | src/App.tsx:55-70 | `/login` and `/signup` send authenticated sessions to `/dashboard` and show to the others |
| LoginPage.SeedRole | src/pages/LoginPage.tsx:68-81 | a role is found exactly when some seed account has this email and password, and it is that account's role |
| LoginPage.VerifyCredentials | src/pages/LoginPage.tsx:62-95 | success carries the tab's role; a seed match decides alone (success exactly when its role is the tab's); otherwise success exactly when the first registry entry with this email and password has the tab's role; unreadable registry text fails |
| LoginPage.SeedAdminNeedsAdminTab | src/pages/LoginPage.tsx:73-76 | the seed administrator succeeds on the admin tab and fails on the volunteer tab, whatever the registry holds (typing that email selects the admin tab, so the failure needs a later tab change) |
| LoginPage.StatusIsIgnored | src/pages/LoginPage.tsx:84-88 | the entry's status never changes the verdict; a rejected entry with the right password signs in |
| LoginPage.TabsCoverRoles | src/pages/LoginPage.tsx:106-111 | every role has a tab and no two tabs share a role |
| LoginPage.TabForEmail | src/pages/LoginPage.tsx:133-140 | a tab is selected exactly for the three seed emails, and it is the tab of that seed's role |
| LoginPage.TypedSeedEmailSignsIn | src/pages/LoginPage.tsx:62-81 | a typed seed email with the seed password signs in on the tab the email selected, as the seed's role, whatever the registry holds |
| LoginPage.ReturnTo | src/pages/LoginPage.tsx:33 | the carried path when present and non-empty, else `/dashboard` |
| LoginPage.MissingSeeds | src/pages/LoginPage.tsx:43-45 | exactly the seeds whose email the registry lacks, in seed order; none when every seed email is present |
| LoginPage.MergeSeeds | src/pages/LoginPage.tsx:37-51 | existing entries first and unchanged, then exactly the missing seeds; afterwards every seed email is registered |
| LoginPage.MergeSeedsIdempotent | src/pages/LoginPage.tsx:43-50 | merging a second time changes nothing |
| LoginPage.LoginPage.constructor | src/pages/LoginPage.tsx:23-33 | empty form, no error, first tab, the carried path kept |
| LoginPage.LoginPage.InitializeUsers | src/pages/LoginPage.tsx:35-60 | an absent registry becomes the seeds, a present one the merge; unreadable text aborts with nothing changed; a non-empty `lastRegisteredEmail` fills the email field and is removed |
| LoginPage.LoginPage.OnEmailChange | src/pages/LoginPage.tsx:129-141 | the email becomes the typed value; a seed email switches to its role's tab, any other value keeps the tab |
| LoginPage.LoginPage.OnTabChange | src/pages/LoginPage.tsx:125-127 | the tab becomes the chosen one and nothing else changes |
| LoginPage.LoginPage.HandleSubmit | src/pages/LoginPage.tsx:97-123 | an empty field sets its error and skips verification; on success the session is the tab's role with this email, mirrored, and navigation goes to the return path; otherwise the single error message and nothing else changes |
| LoginPage.RedirectThenResume | src/pages/LoginPage.tsx:116-119 | an anonymous visit to a protected page goes to `/login` carrying it, and signing in with a role it admits returns there |
| LoginPage.VolunteerResumesAtInvoices | src/pages/LoginPage.tsx:116-119 | a volunteer sent from `/invoices` to sign in comes back to `/invoices` |
| SignupPage.FormError | src/pages/SignupPage.tsx:64-78 | no error exactly when all four fields are filled, the passwords match and have at least 8 characters; an empty field is reported first, a mismatch before a short password |
| SignupPage.NewUser | src/pages/SignupPage.tsx:80-88 | always a pending volunteer with the form's name, email and password |
| SignupPage.AppendFreshEmailKeepsUnique | src/pages/SignupPage.tsx:41-49 | appending an entry with a new email keeps registry emails unique |
| SignupPage.SignupPage.constructor | src/pages/SignupPage.tsx:18-24 | empty form and no error |
| SignupPage.SignupPage.SaveUserData | src/pages/SignupPage.tsx:35-58 | saves exactly when the registry is readable and lacks the email; then the registry is the old list plus the entry at the end, uniqueness preserved; a taken email gives "Email already registered" and leaves the registry |
| SignupPage.SignupPage.HandleSubmit | src/pages/SignupPage.tsx:60-98 | a validation error is shown and nothing is stored; otherwise a saved entry sets `lastRegisteredEmail` and navigates to `/login`, a refused one leaves the store |
| UserManagementPage.SeedUsers | src/pages/UserManagementPage.tsx:50-75 | three approved entries, one per role, with distinct emails |
| UserManagementPage.WithStatus | src/pages/UserManagementPage.tsx:91-96 | same length; entries with the email get the status, every other entry and field is unchanged |
| UserManagementPage.WithStatusIdempotent | src/pages/UserManagementPage.tsx:91-96 | approving (or rejecting) twice is doing it once |
| UserManagementPage.WithRole | src/pages/UserManagementPage.tsx:131-136 | same length; entries with the email get the role, nothing else changes |
| UserManagementPage.RoleChangeDemotesSuperAdmin | src/pages/UserManagementPage.tsx:129-136 | the seeded super administrator can be demoted: the handler checks no current role |
| UserManagementPage.WithoutEmail | src/pages/UserManagementPage.tsx:121 | no entry with the email remains; every other entry does, as many times as before and in order |
| UserManagementPage.DeleteAbsentEmail | src/pages/UserManagementPage.tsx:121 | deleting an unregistered email leaves the list as it was |
| UserManagementPage.TablesPartitionRegistry | src/pages/UserManagementPage.tsx:155-156 | the two tables hold exactly the admin and the volunteer entries; with the super administrators they count every entry |
| UserManagementPage.RoleCountsAddUp | src/pages/UserManagementPage.tsx:155-156 | the per-role sublists together are as long as the registry |
| UserManagementPage.UserManagementPage.constructor | src/pages/UserManagementPage.tsx:33-34 | empty list, no error |
| UserManagementPage.UserManagementPage.LoadUsers | src/pages/UserManagementPage.tsx:41-87 | an empty or absent registry becomes the three approved seeds, shown and stored; a non-empty one is shown; unreadable text sets "Failed to load users" |
| UserManagementPage.UserManagementPage.HandleApprove | src/pages/UserManagementPage.tsx:89-102 | the list becomes the approved one and the store holds the same list |
| UserManagementPage.UserManagementPage.HandleReject | src/pages/UserManagementPage.tsx:104-117 | the list becomes the rejected one and the store holds the same list |
| UserManagementPage.UserManagementPage.HandleDelete | src/pages/UserManagementPage.tsx:119-127 | the list loses the email's entries and the store holds the same list |
| UserManagementPage.UserManagementPage.HandleRoleChange | src/pages/UserManagementPage.tsx:129-142 | the list has the new role on the email's entries and the store holds the same list |
| Api.Login | src/services/api.ts:23-37 | succeeds exactly for the mock email and password, always as `admin` with the mock token; anything else is "Invalid credentials" |
| Api.MockApi.constructor | src/services/api.ts:39-75 | the four seed invoices, the two seed users, and `nextId` 5, so ids are fresh from the start |
| Api.MockApi.GetInvoices | src/services/api.ts:48-52 | the current list unless the simulated failure fires, then its message |
| Api.MockApi.CreateInvoice | src/services/api.ts:54-69 | a blank vendor, then a non-positive amount, then the simulated failure, each rejects with nothing inserted; otherwise a `Pending` invoice with id `nextId` goes to the front and `nextId` grows by one; ids stay unique and below `nextId` |
| Api.MockApi.GetUsers | src/services/api.ts:77-80 | the current user list |
| Api.MockApi.UpdateUserRole | src/services/api.ts:82-89 | an unknown id is "User not found" (checked first), then a role outside admin/volunteer is "Invalid role"; otherwise only the first matching user's role changes and that user is returned |
| Api.MockApi.DeleteUser | src/services/api.ts:91-97 | an unknown id is "User not found" with nothing removed; otherwise exactly the first match is removed and returned, the rest keep their order |
| Api.MockApi.CreateUser | src/services/api.ts:99-106 | an email without `@` is "Invalid email", then a bad role "Invalid role"; otherwise one user is appended |
| InvoicesPage.WithInvoiceStatus | src/pages/InvoicesPage.tsx:75-85 | same length; invoices with the id get the status, every other invoice and field is unchanged |
| InvoicesPage.StatusChangeKeepsIds | src/pages/InvoicesPage.tsx:76-84 | every id stays at its position; an unknown id changes nothing |
| InvoicesPage.WithoutInvoice | src/pages/InvoicesPage.tsx:93 | no invoice with the id remains; every other one does, as many times as before and in order |
| InvoicesPage.DeleteAbsentInvoice | src/pages/InvoicesPage.tsx:93 | deleting an unknown id leaves the list as it was |
| InvoicesPage.PageControls | src/pages/InvoicesPage.tsx:88-90 | the status selector exactly for the `admin` and `super_admin` strings; Add exactly when `hasPermission('create_invoices')`, Delete exactly when `hasPermission('delete_invoices')`; the page throws with the permission lookup |
| InvoicesPage.ControlsByRole | src/pages/InvoicesPage.tsx:88-90 | both administrator roles edit statuses, only volunteers add, only the super administrator deletes |
| InvoicesPage.AddButtonMatchesGuard | src/pages/InvoicesPage.tsx:89-116 | the Add button shows exactly to the roles the guard of `/invoices/new` admits |
| InvoicesPage.InvoicesPage.constructor | src/pages/InvoicesPage.tsx:49-51 | the seeds are shown while loading, no error |
| InvoicesPage.InvoicesPage.FetchData | src/pages/InvoicesPage.tsx:55-73 | a non-empty stored list is shown; an empty or absent one is replaced by the seeds, shown and stored; unreadable text sets "Failed to fetch data"; loading ends in every case |
| InvoicesPage.InvoicesPage.HandleStatusChange | src/pages/InvoicesPage.tsx:75-86 | the list gets the status change and the store holds the same list |
| InvoicesPage.InvoicesPage.HandleDeleteInvoice | src/pages/InvoicesPage.tsx:92-96 | the list loses the id's invoices and the store holds the same list |
| AddInvoicePage.SanitizeAmount | src/pages/AddInvoicePage.tsx:165 | only digits and dots remain; every digit and dot of the input remains, as many times as it occurs and in order |
| AddInvoicePage.SanitizeAmountIdempotent | src/pages/AddInvoicePage.tsx:165 | clean input passes unchanged, so sanitising twice is sanitising once |
| AddInvoicePage.CreatedBy | src/pages/AddInvoicePage.tsx:64 | the session email when truthy, else `Unknown` |
| AddInvoicePage.AddInvoicePage.constructor | src/pages/AddInvoicePage.tsx:19-29 | the empty form with `Bank Transfer` and `Pending`, no success, no error |
| AddInvoicePage.AddInvoicePage.NewInvoice | src/pages/AddInvoicePage.tsx:53-65 | the record carries all nine form fields (the amount through `parseFloat`), the id and time given, the author and no status |
| AddInvoicePage.AddInvoicePage.ResetFields | src/pages/AddInvoicePage.tsx:72-80 | the nine fields return to the empty form |
| AddInvoicePage.AddInvoicePage.OnAmountChange | src/pages/AddInvoicePage.tsx:165 | only the amount changes, to the sanitised input |
| AddInvoicePage.AddInvoicePage.HandleSubmit | src/pages/AddInvoicePage.tsx:33-87 | an empty field gives the check-your-details error and stores nothing; unreadable stored text gives the save error; otherwise the stored list is the old one plus the new record at the end, the form is reset and `/invoices` is scheduled |
| InvoicesTable.LowerStr | src/components/InvoicesTable.tsx:81 | same length, each character lowered |
| InvoicesTable.LowerStrIdempotent | src/components/InvoicesTable.tsx:81 | lowering twice is lowering once |
| InvoicesTable.Filtered | src/components/InvoicesTable.tsx:72-98 | an invoice is shown exactly when it passes all five filters, as many times as it is listed, and the shown list is an order-preserving subsequence of the list |
| InvoicesTable.NoFiltersShowAll | src/components/InvoicesTable.tsx:72-98 | with every filter empty the whole list is shown |
| InvoicesTable.FilterOrderIrrelevant | src/components/InvoicesTable.tsx:75-95 | applying the five filters in the opposite order gives the same list |
| InvoicesTable.StepKeepsInvariant | src/components/InvoicesTable.tsx:73-96 | after each step the working list is the list filtered by the filters applied so far; an empty filter input leaves it unchanged |
| InvoicesTable.ApplyFilters | src/components/InvoicesTable.tsx:72-98 | the five sequential conditional filters produce exactly `Filtered` |
| InvoicesTable.StatusColor | src/components/InvoicesTable.tsx:21-35 | success, warning, error, info exactly for the lowered status approved, pending, rejected or unpaid, paid |
| InvoicesTable.StatusColorIgnoresCase | src/components/InvoicesTable.tsx:21-22 | the colour of a status and of its lowered form agree |
| InvoicesTable.InvoiceTable.constructor | src/components/InvoicesTable.tsx:46-55 | empty lists, loading, no error, every filter empty |
| InvoicesTable.InvoiceTable.FetchInvoices | src/components/InvoicesTable.tsx:57-70 | on success both lists are the service's list; a failure shows its message; loading ends |
| InvoicesTable.InvoiceTable.RefreshFiltered | src/components/InvoicesTable.tsx:72-98 | the shown list becomes `Filtered` of the list under the current inputs |
| InvoicesTable.InvoiceTable.ClearFilters | src/components/InvoicesTable.tsx:170-176 | the five inputs are empty again; the lists are untouched until the filter effect runs |
| InvoicesTable.InvoiceTable.ClearFiltersThenRefresh | src/components/InvoicesTable.tsx:72-98 | after Clear Filters and the filter effect it triggers, the table shows the whole list |
| DashboardPage.DashboardCards | src/pages/DashboardPage.tsx:48-82 | cards exist exactly for the three role names, and every card leads to a protected route of the table |
| DashboardPage.DashboardCardsReachable | src/pages/DashboardPage.tsx:48-82 | for each role every card's page is shown to that role except `/my-invoices` |
| DashboardPage.VolunteerMyInvoicesCardRejected | src/pages/DashboardPage.tsx:65-71 | the volunteer's first card leads to `/my-invoices`, from which the volunteer is sent to `/not-authorized` |
| DashboardNavigation.NavigationItems | src/components/DashboardNavigation.tsx:25-69 | buttons exist exactly for the three role names, and every button leads to a protected route of the table |
| DashboardNavigation.NavigationItemsReachable | src/components/DashboardNavigation.tsx:25-69 | for each role every button's page is shown to that role except `/my-invoices` |
| DashboardNavigation.DashboardNavigation.HandleLogout | src/components/DashboardNavigation.tsx:20-23 | signs out (store loses the three keys), then goes to `/login`, which the signed-out session is shown |
| RoleContext.InitialRole | src/contexts/RoleContext.tsx:17-19 | the stored `role` when present and non-empty, else `volunteer`; never empty |
| RoleContext.SetRoleThenReload | src/contexts/RoleContext.tsx:17-25 | what `setRole` writes is what the next start-up reads, except the empty string, which reads back as `volunteer` |
| RoleContext.RoleProvider.constructor | src/contexts/RoleContext.tsx:16-19 | the cell starts as the initial role read from the store |
| RoleContext.RoleProvider.SetRole | src/contexts/RoleContext.tsx:22-25 | any string is accepted; cell and store both hold it |
| Storage.ReadList | src/pages/SignupPage.tsx:38 | an absent key reads as the empty list, a stored list as itself, and only unreadable text fails |
| Common.ParseRole | src/contexts/AuthContext.tsx:4 | the role whose name the string is, if any |
| Common.FindFirst | src/services/api.ts:93 | the first position the predicate accepts, or none when it accepts no element |

## Left out

- Rendering, Material-UI layout, toasts, `alert` and the menu anchor of the top bar are presentation and are not modelled.
- `src/components/ProtectedRoute.tsx` is not part of this model. It is an older navigation bar that uses a different key (`currentUserEmail`), and its logout leaves `userRole` in the store.
- The root `App.tsx` (an older route table), `ForgotPasswordPage`, `UserProfilePage`, `AboutPage`, `NotAuthorized` and the `ui` components are not part of this model.
- The service's `delay` and the axios instance with its interceptor are left out. `Math.random` failures are a `fail` parameter.
- Clock readings (`new Date().toISOString()`, `Date.now()`) are parameters. The three seed timestamps of the user-management page are taken as one reading.
- `parseFloat` and `new Date(...)` are parameters, with `None` standing for NaN or an invalid date. The table's `totalAmount` sum is floating-point arithmetic and is left out.
- JSON text that parses but is not an array of well-formed records is folded into `Corrupt`. The invoice page's load would seed for a non-array and show a parsed string.
- `toLowerCase` and `trim` cover ASCII only. String length counts Dafny characters, not UTF-16 code units.
- React scheduling is sequential here. The authentication context's persistence effects run inside `Login` and `Logout`. The invoice table's filter effect is the separate `RefreshFiltered` step, which a caller runs after `FetchInvoices`, `ClearFilters` or a filter input change; `ClearFiltersThenRefresh` is that sequence for Clear Filters. Stale closures are not modelled; the status-change handler computes from the same list as its updater.
- `localStorage.setItem` cannot fail here. The catch branches of the user-management handlers ("Failed to approve user" and the like) need a quota error, so they are not modelled.
- The user-management page's own `getStatusColor` and the UI-only disabling of the role selector for super administrators are not modelled. The handler they guard is.
- The `setTimeout` before navigating to `/invoices` after a new invoice is not modelled. `AddInvoicePage.AddInvoicePage.HandleSubmit` returns the scheduled path.
- The sign-up page's `handleChange`, the login page's password field and the add-invoice text fields other than the amount are plain field assignments and are not modelled.
- Routes.Navigate: paths are matched exactly; the router's case-insensitive, trailing-slash-tolerant matching (`/Users`, `/users/`) is not modelled. Every such spelling meets the same guard as the exact path.
- Api.MockApi.CreateInvoice: the amount is a real, so the NaN case of `!invoice.amount` cannot arise.
- Api.MockApi.UpdateUserRole: returns the updated user by value; the aliasing between the returned object and the list element is not modelled.
- Api.MockApi.GetInvoices: returns the list by value; the source hands out its live module array, so a later `unshift` would show through what the caller holds. This aliasing is not modelled.
- Api.MockApi.GetUsers: returns the list by value; the live array's later `splice` or `push` showing through the caller's copy is not modelled.
- Api.MockApi.CreateUser: ids come from the clock and may collide; uniqueness of user ids is not tracked.
- SignupPage.SignupPage.SaveUserData: for unreadable registry text it states only that some error message is set, not the exact `SyntaxError` text.
