# SOREUNITY business suite — verified model of its decision logic

SOREUNITY is a Next.js business suite: point of sale, finance, inventory, HR,
support, shipping, business intelligence and a system-health dashboard, on a
hosted backend. This project models in Dafny the parts of it whose behaviour
can be stated precisely, one module per source file:

- `Recovery` and `RecoveryProperties` model the automated recovery watchdog
  (`src/app/system-health/recovery.ts`). It keeps a table of five recovery
  actions and a per-type cooldown map. A check passes a global distress gate
  and then walks the table in order. It runs each action whose threshold test
  and cooldown test pass, and stamps the action's type once the effect has
  completed. A throwing effect ends the walk, and its error goes to the admin
  notification. The clock and each effect's outcome are parameters.
- `PluginSystem` models the development plugin manager: a name-keyed registry
  with install, init and destroy hooks, rollback on hook failure, and an event
  log.
- `Middleware` models the request guard. `SignIn` models the sign-in page:
  role routes, error messages and the outcome of an attempt.
- `POSClient` models the point-of-sale cart and product search.
- `TransactionList`, `FinancePage` and `InventoryPage` model the finance and
  inventory aggregates.
- `EmployeeDirectory`, `EmployeeManagement`, `LeaveManagement` and
  `AttendanceTracking` model the HR lists.
- `HelpDesk`, `KnowledgeBase` and `TutorialSection` model the support screens.
- `ShippingPage` models the shipment search and tracking dialog.
- `SystemHealthPage` models the five-entry alert list and the gauges.
- `DashboardBuilder` models the custom dashboard's widget list.
- `Common` holds the shared pieces: an option type, ASCII case folding and
  substring search, order-preserving filters, counting, first-appearance
  de-duplication, and decimal digits with their round trip.

Components whose handlers update state become classes. Their fields are the
component's state. Their methods state the new state in terms of pure
functions on lists, and lemmas prove what those functions promise.

Money is integer cents. Every time reading (`Date.now()`, `new Date()`),
random draw (`Math.random()`) and backend or router answer is a parameter of
the operation that uses it.

Two details of the recovery controller shape the model:

- The controller stamps an action only after its effect completes
  (`src/app/system-health/recovery.ts:99-100`).
- A throwing effect aborts the rest of the walk, and its error goes to
  `notifyAdmin` (`src/app/system-health/recovery.ts:90-93`, `97-100`).

## Model

| member | source | states |
|---|---|---|
| Recovery.AutomatedRecovery.constructor | src/app/system-health/recovery.ts:17-23 | The controller starts with the five-entry action table, no timestamps and no notifications |
| Recovery.AutomatedRecovery.ExecuteRecoveryActions | src/app/system-health/recovery.ts:96-103 | The loop over the table leaves the timestamps, the effects run and the error exactly as the walk `Run` describes, one table entry per iteration |
| Recovery.AutomatedRecovery.CheckAndRecover | src/app/system-health/recovery.ts:82-94 | A check applies the distress gate, then the walk; a thrown error is appended to the admin notifications instead of reaching the caller |
| RecoveryProperties.TableDispatch | src/app/system-health/recovery.ts:32-80 | On the controller's table, the target-name dispatch fires exactly when the type's own condition holds: restart on CPU > 90, scale on memory > 85, cleanup on memory > 80, optimize on response time > 3000, backup on disk > 95 |
| RecoveryProperties.DatabaseIgnoresThreshold | src/app/system-health/recovery.ts:118-119 | The `database` target fires iff response time > 3000, whatever its threshold |
| RecoveryProperties.UnknownTargetNeverFires | src/app/system-health/recovery.ts:110-124 | A target other than the five known names never fires |
| RecoveryProperties.TableKindsDistinct | src/app/system-health/recovery.ts:32-80 | The table's types are restart, scale, cleanup, optimize, backup, in that order and all distinct, so each has its own cooldown key |
| RecoveryProperties.CooldownMeaning | src/app/system-health/recovery.ts:19-19 | A type is ready iff at least 300000 ms have passed since its timestamp, a missing timestamp counting as 0 |
| RecoveryProperties.CooldownMonotone | src/app/system-health/recovery.ts:105-108 | Once ready, a type stays ready as the clock advances |
| RecoveryProperties.RunExtends | src/app/system-health/recovery.ts:96-102 | A walk only appends to the record of effects run |
| RecoveryProperties.RunInTableOrder | src/app/system-health/recovery.ts:97-99 | The types run form a subsequence of the table's types |
| RecoveryProperties.RunStopsAtThrow | src/app/system-health/recovery.ts:96-102 | Every effect run but the last completed; the walk ends with an error iff the last one threw, and that error is the throw's |
| RecoveryProperties.RunStampFrame | src/app/system-health/recovery.ts:98-100 | Each timestamp is either as before or the completion time of an effect run for that type |
| RecoveryProperties.RunOnlyTriggered | src/app/system-health/recovery.ts:98-99 | Every effect run belongs to a table entry whose threshold test passed |
| RecoveryProperties.RunRespectsCooldown | src/app/system-health/recovery.ts:98-108 | A type still inside its cooldown window for the whole walk is not run and keeps its timestamp |
| RecoveryProperties.RunKindsFromTable | src/app/system-health/recovery.ts:97-99 | Every type run has an entry in the table |
| RecoveryProperties.RunLeavesOtherTypes | src/app/system-health/recovery.ts:100-107 | A type with no entry among the remaining actions is not run and keeps its timestamp, so running one type never changes another's readiness |
| RecoveryProperties.RunRecordsCompletion | src/app/system-health/recovery.ts:99-100 | With distinct types, every completed effect leaves its completion time as its type's timestamp |
| RecoveryProperties.RunThrowerKeepsStamp | src/app/system-health/recovery.ts:99-100 | With distinct types, a throwing effect leaves its type's timestamp as it was |
| RecoveryProperties.QuietSnapshotChangesNothing | src/app/system-health/recovery.ts:84-89 | Without CPU > 90, memory > 90, disk > 95 or response time > 5000, a check runs nothing and changes no timestamp and no notification |
| RecoveryProperties.CheckOrderFor | src/app/system-health/recovery.ts:82-102 | Over any table with a faithful dispatch, one check runs effects in table order, each for a type whose condition holds |
| RecoveryProperties.CheckNotifiesFor | src/app/system-health/recovery.ts:87-93 | One check: every effect but the last completed, and the notification log grows by the last one's error exactly when it threw |
| RecoveryProperties.CheckStampsFor | src/app/system-health/recovery.ts:96-108 | One check: a type not run keeps its timestamp, a completed type gets its completion time, a throwing type keeps its timestamp |
| RecoveryProperties.CheckSummaryFor | src/app/system-health/recovery.ts:82-108 | Every check over a table with distinct types and a faithful dispatch has all of the order, trigger, throw, notification and timestamp properties above |
| RecoveryProperties.CheckSummary | src/app/system-health/recovery.ts:32-108 | Every check of the controller's own table has those properties, with restart, scale, cleanup, optimize, backup as the order |
| RecoveryProperties.CheckRespectsCooldown | src/app/system-health/recovery.ts:98-108 | A check whose clock stays inside a type's cooldown window neither runs that type nor touches its timestamp |
| RecoveryProperties.RunHeadFirst | src/app/system-health/recovery.ts:97-99 | When the first remaining action passes both tests, its effect is the next one run |
| RecoveryProperties.CheckRunsReadyRestartFirst | src/app/system-health/recovery.ts:32-40 | With CPU > 90 and restart's cooldown elapsed, restart is the first effect run |
| RecoveryProperties.CpuSpikeRunsOnlyRestart | src/app/system-health/recovery.ts:110-121 | The snapshot {CPU 95, memory 50, disk 50, response 100} with no history at time ≥ 300000 runs only restart; its completion becomes the only timestamp, or its throw the only new notification |
| RecoveryProperties.CheckStampsReadyRestart | src/app/system-health/recovery.ts:98-100 | A ready restart that completes at `done` leaves `done` as restart's timestamp |
| RecoveryProperties.RestartCooldownAcrossChecks | src/app/system-health/recovery.ts:98-108 | After a restart completes at `done`, a second check with any effects of its own, starting less than 300000 ms after `done`, does not run it again and keeps `done` as its timestamp; one starting 300000 ms or more after `done` runs it first |
| PluginSystem.Names | src/lib/dev-tools/plugin-system.ts:20-20 | The registry's names, one per plugin, in order |
| PluginSystem.Find | src/lib/dev-tools/plugin-system.ts:70-72 | A plugin is found iff its name is registered, and the one found carries that name |
| PluginSystem.Remove | src/lib/dev-tools/plugin-system.ts:62-62 | Deleting a name keeps exactly the plugins with other names, each as often as before, in order |
| PluginSystem.PluginManager.constructor | src/lib/dev-tools/plugin-system.ts:20-20 | The manager starts with no plugins and no events |
| PluginSystem.PluginManager.RegisterPlugin | src/lib/dev-tools/plugin-system.ts:34-50 | Registering keeps names unique and leaves the registry, events and outcome described by `Register` |
| PluginSystem.PluginManager.UnregisterPlugin | src/lib/dev-tools/plugin-system.ts:52-68 | Unregistering keeps names unique and leaves the registry, events and outcome described by `Unregister` |
| PluginSystem.PluginManager.GetPlugin | src/lib/dev-tools/plugin-system.ts:70-72 | Lookup finds a plugin iff the name is registered, and the plugin found has that name |
| PluginSystem.PluginManager.GetAllPlugins | src/lib/dev-tools/plugin-system.ts:74-76 | Every registered plugin exactly once, in registration order |
| PluginSystem.NamesAppend | src/lib/dev-tools/plugin-system.ts:44-44 | Appending plugins appends their names |
| PluginSystem.FindUnique | src/lib/dev-tools/plugin-system.ts:70-72 | With unique names, looking up a registered plugin's name gives that plugin |
| PluginSystem.RemoveKeepsNamesDistinct | src/lib/dev-tools/plugin-system.ts:62-62 | Deleting a name keeps names unique, drops that name and keeps every other name |
| PluginSystem.RegisterKeepsNamesDistinct | src/lib/dev-tools/plugin-system.ts:34-50 | Registering never makes two plugins share a name |
| PluginSystem.UnregisterKeepsNamesDistinct | src/lib/dev-tools/plugin-system.ts:52-68 | Unregistering never makes two plugins share a name |
| PluginSystem.RegisterDuplicateRejected | src/lib/dev-tools/plugin-system.ts:35-37 | Registering a present name rejects with "Plugin … is already registered", before any hook, leaving the registry and events unchanged |
| PluginSystem.RegisterFailureRollsBack | src/lib/dev-tools/plugin-system.ts:39-49 | A failing install or onInit leaves the registry unchanged, emits one pluginError and rejects with the hook's error |
| PluginSystem.RegisterThenGet | src/lib/dev-tools/plugin-system.ts:34-50 | Registering succeeds iff the name is new and the hooks succeed; then the plugin is appended, found by its name, and pluginRegistered is the only event |
| PluginSystem.UnregisterAbsentRejected | src/lib/dev-tools/plugin-system.ts:53-56 | Unregistering an absent name rejects with "Plugin … is not registered" and changes nothing |
| PluginSystem.UnregisterFailureKeepsPlugin | src/lib/dev-tools/plugin-system.ts:59-66 | A failing onDestroy keeps the plugin registered, emits pluginError and rejects with its error |
| PluginSystem.UnregisterThenGet | src/lib/dev-tools/plugin-system.ts:52-72 | Unregistering succeeds iff the name is present and onDestroy succeeds; then the name is gone, every other lookup is unchanged and pluginUnregistered is the only event |
| PluginSystem.RemoveFreshAppended | src/lib/dev-tools/plugin-system.ts:44-62 | Deleting the name of a plugin set under a fresh name gives back the entries before it |
| PluginSystem.RegisterUnregisterRoundTrip | src/lib/dev-tools/plugin-system.ts:34-68 | Registering a fresh plugin and then unregistering it, with succeeding hooks, restores the registry |
| Middleware.EffectiveRole | src/middleware.ts:15-15 | The role in force is never empty: the user's non-empty role, else staff |
| Middleware.DashboardPath | src/middleware.ts:16-16 | A role's dashboard is the manager or the staff dashboard |
| Middleware.Decide | src/middleware.ts:14-25 | A request passes iff signed in off the auth pages and `/`, or signed out on an auth page; every redirect goes to the sign-in page or a dashboard |
| Middleware.DashboardForRole | src/middleware.ts:15-16 | The manager dashboard is for role `manager` exactly; everyone else, including a user without a role, gets the staff dashboard |
| Middleware.SignedInLeavesAuthPages | src/middleware.ts:14-18 | A signed-in user on an auth page or `/` is redirected to their role's dashboard |
| Middleware.SignedOutDecision | src/middleware.ts:21-25 | A signed-out user passes on auth pages and is sent to `/auth/signin` elsewhere |
| Middleware.NoRedirectLoop | src/middleware.ts:14-25 | The target of every redirect lets the same request through |
| SignIn.RoleRoute | src/app/auth/signin/page.tsx:45-53 | `manager` and `staff` go to their dashboards, any other role to `/dashboard` |
| SignIn.AuthErrorMessage | src/app/auth/signin/page.tsx:68-76 | The shown error is never empty, and any message other than the two known ones is shown as is |
| SignIn.ThrownMessage | src/app/auth/signin/page.tsx:117-121 | A thrown error shows its message, or a default when that is empty |
| SignIn.MountRoute | src/app/auth/signin/page.tsx:30-43 | On mount the page navigates iff a session with a user exists |
| SignIn.SignInPage.constructor | src/app/auth/signin/page.tsx:19-24 | The page starts with empty fields, not loading, no error and no navigation |
| SignIn.SignInPage.HandleInputChange | src/app/auth/signin/page.tsx:55-58 | Typing sets the named field and keeps the other |
| SignIn.SignInPage.HandleSignIn | src/app/auth/signin/page.tsx:78-125 | `loading` is false when an attempt ends; an invalid form changes nothing; a valid one records the error and navigations of `SignInOutcome` |
| SignIn.ValidFormMeaning | src/app/auth/signin/page.tsx:60-66 | The form is invalid iff the email or the password is empty |
| SignIn.KnownAuthErrors | src/app/auth/signin/page.tsx:69-73 | The two known service errors are reworded, and an empty message becomes "Failed to sign in" |
| SignIn.SessionNavigates | src/app/auth/signin/page.tsx:98-111 | A session navigates to the role's dashboard (manager or staff) and refreshes; a throwing navigation falls back to `/dashboard`; only a failing fallback records an error |
| SignIn.FailureRecordsError | src/app/auth/signin/page.tsx:92-121 | Every answer other than a session records a non-empty error and navigates nowhere; no session and no error gives "Authentication failed" |
| SignIn.MountRouteAgreesWithGuard | src/app/auth/signin/page.tsx:35-38 | Where the page navigates on mount is the role's dashboard, which the request guard lets through |
| SignIn.RoleRouteVersusDashboardPath | src/app/auth/signin/page.tsx:45-53 | The redirect table and the inline route agree on manager and staff and disagree on every other non-empty role |
| POSClient.Ids | src/app/pos/components/POSClient.tsx:49-49 | The product ids of the cart lines, in order |
| POSClient.Bump | src/app/pos/components/POSClient.tsx:51-55 | Lines with the id gain one unit; every other line is unchanged |
| POSClient.SetQuantity | src/app/pos/components/POSClient.tsx:71-75 | Lines with the id take the new quantity; every other line is unchanged |
| POSClient.AddItem | src/app/pos/components/POSClient.tsx:47-59 | After adding, the product's id is in the cart and no other id appears |
| POSClient.RemoveItem | src/app/pos/components/POSClient.tsx:61-63 | Removing keeps exactly the lines with other ids, each as often as before, in order |
| POSClient.Filtered | src/app/pos/components/POSClient.tsx:78-80 | The products shown are those whose name contains the query ignoring case, each as often as before, in order |
| POSClient.SaleLines | src/app/pos/components/POSClient.tsx:88-92 | Checkout sends one line per cart line, in order, with its id, quantity and price |
| POSClient.POSScreen.constructor | src/app/pos/components/POSClient.tsx:18-20 | The screen starts with no products, an empty cart and an empty query |
| POSClient.POSScreen.AddToCart | src/app/pos/components/POSClient.tsx:47-59 | Adding keeps cart ids unique and gives the cart of `AddItem` |
| POSClient.POSScreen.RemoveFromCart | src/app/pos/components/POSClient.tsx:61-63 | Removing keeps cart ids unique and gives the cart of `RemoveItem` |
| POSClient.POSScreen.UpdateQuantity | src/app/pos/components/POSClient.tsx:65-76 | Updating keeps cart ids unique and gives the cart of `UpdateItem` |
| POSClient.POSScreen.HandleCheckout | src/app/pos/components/POSClient.tsx:84-104 | Checkout, offered only with a non-empty cart, sends the cart's lines and empties the cart exactly when the sale is accepted |
| POSClient.POSScreen.ShownProducts | src/app/pos/components/POSClient.tsx:78-80 | The products on screen match the current query |
| POSClient.AddKeepsIdsDistinct | src/app/pos/components/POSClient.tsx:49-57 | Adding never puts a product on two lines |
| POSClient.RemoveKeepsIdsDistinct | src/app/pos/components/POSClient.tsx:61-63 | Removing never puts a product on two lines |
| POSClient.AddExistingBumps | src/app/pos/components/POSClient.tsx:49-56 | Adding a product already in the cart raises that line's quantity by one and keeps the length and every other line |
| POSClient.AddNewAppends | src/app/pos/components/POSClient.tsx:57-57 | Adding a new product appends it with quantity 1, not its stock quantity |
| POSClient.TotalAppend | src/app/pos/components/POSClient.tsx:82-82 | The total of two carts joined is the sum of their totals |
| POSClient.TotalBump | src/app/pos/components/POSClient.tsx:51-55 | Adding one unit of a product on a line raises the total by that line's price |
| POSClient.TotalAfterAddNew | src/app/pos/components/POSClient.tsx:57-57 | Adding a new product raises the total by its price |
| POSClient.TotalAfterAddExisting | src/app/pos/components/POSClient.tsx:49-56 | Adding a product already in the cart raises the total by the line's price, not the product's |
| POSClient.TotalOfLines | src/app/pos/components/POSClient.tsx:82-82 | An empty cart totals 0, and each line adds its price times its quantity |
| POSClient.UpdateQuantityEffect | src/app/pos/components/POSClient.tsx:65-75 | A quantity below 1 removes the product; any other quantity replaces only the product's quantity and keeps the length |
| POSClient.EmptyQueryShowsAll | src/app/pos/components/POSClient.tsx:78-80 | An empty query shows every product |
| TransactionList.CalculateSummary | src/app/finance/components/TransactionList.tsx:24-36 | The balance is income minus expense |
| TransactionList.BalanceDisplay | src/app/finance/components/TransactionList.tsx:120-124 | The card's label is Surplus iff the balance is non-negative, Deficit otherwise |
| TransactionList.TransactionListState.constructor | src/app/finance/components/TransactionList.tsx:10-14 | The list starts empty with the summary of the empty list |
| TransactionList.TransactionListState.HandleSaveTransaction | src/app/finance/components/TransactionList.tsx:70-85 | A returned row goes first and the rest keep their order; a failure or no data leaves the list; the summary stays that of the list |
| TransactionList.SumOfTypeIsSumWhere | src/app/finance/components/TransactionList.tsx:25-30 | Filtering by type and then summing equals summing the amounts of that type, other types ignored |
| TransactionList.EmptySummary | src/app/finance/components/TransactionList.tsx:24-35 | An empty list has income, expense and balance 0 |
| TransactionList.PrependUpdatesSummary | src/app/finance/components/TransactionList.tsx:24-36 | A new first row adds its amount to income or to expense by its type and moves the balance accordingly; other types change nothing |
| TransactionList.BalanceDisplayRoundTrip | src/app/finance/components/TransactionList.tsx:123-124 | The card shows the balance's absolute value, and the label gives back its sign |
| FinancePage.FinanceOverview | src/app/finance/page.tsx:17-25 | Net profit is revenue minus expenses |
| FinancePage.AbsentDataIsZero | src/app/finance/page.tsx:19-25 | Without data every figure is 0 |
| FinancePage.OverviewMatchesSummary | src/app/finance/page.tsx:17-25 | On the same list the page's figures equal the transaction list's income, expense and balance |
| FinancePage.OverviewSumsByType | src/app/finance/page.tsx:17-23 | Revenue sums the income amounts and expenses the expense amounts |
| InventoryPage.InventoryCounts | src/app/inventory/page.tsx:17-19 | Both counts are at most the total, and absent data counts 0 everywhere |
| InventoryPage.OutOfStockIsLowStock | src/app/inventory/page.tsx:18-19 | With no negative minimum, out-of-stock rows are no more than low-stock rows |
| InventoryPage.NegativeMinimumBreaksOrder | src/app/inventory/page.tsx:18-19 | With a negative minimum an empty row is out of stock but not low on stock |
| InventoryPage.CountsAfterAppend | src/app/inventory/page.tsx:17-19 | One more row adds one to the total and one to each count whose test it passes |
| EmployeeDirectory.SetField | src/app/hr/components/EmployeeDirectory.tsx:90-93 | Typing keeps every text field present and the id |
| EmployeeDirectory.UpdateEmployees | src/app/hr/components/EmployeeDirectory.tsx:96-102 | Employees with the selected id take the form's fields; all others are unchanged; the length is kept |
| EmployeeDirectory.DeleteEmployee | src/app/hr/components/EmployeeDirectory.tsx:114-116 | Deleting keeps exactly the employees with other ids, each as often as before, in order |
| EmployeeDirectory.Ids | src/app/hr/components/EmployeeDirectory.tsx:28-28 | The ids of the employees, in order |
| EmployeeDirectory.EmployeeDirectoryState.constructor | src/app/hr/components/EmployeeDirectory.tsx:56-65 | The directory starts with the two initial employees, closed, with no selection and blank fields |
| EmployeeDirectory.EmployeeDirectoryState.HandleOpenDialog | src/app/hr/components/EmployeeDirectory.tsx:67-82 | Opening on an employee loads it; opening without one clears the selection and loads blank fields |
| EmployeeDirectory.EmployeeDirectoryState.HandleCloseDialog | src/app/hr/components/EmployeeDirectory.tsx:84-88 | Closing clears the selection and the form |
| EmployeeDirectory.EmployeeDirectoryState.HandleInputChange | src/app/hr/components/EmployeeDirectory.tsx:90-93 | Typing sets one field of the form |
| EmployeeDirectory.EmployeeDirectoryState.HandleSubmit | src/app/hr/components/EmployeeDirectory.tsx:95-112 | Submitting updates or adds and always ends closed, with no selection and a cleared form |
| EmployeeDirectory.EmployeeDirectoryState.HandleDelete | src/app/hr/components/EmployeeDirectory.tsx:114-116 | Deleting gives the list of `DeleteEmployee` |
| EmployeeDirectory.UpdateChangesOnlySelected | src/app/hr/components/EmployeeDirectory.tsx:96-102 | An update keeps every id, the length and the order; employees with the selected id take the form's text fields; every other employee is unchanged |
| EmployeeDirectory.AddAppendsOne | src/app/hr/components/EmployeeDirectory.tsx:104-109 | Adding appends one employee built from the form with id equal to the old length plus one |
| EmployeeDirectory.DeleteRemovesId | src/app/hr/components/EmployeeDirectory.tsx:114-116 | After deleting no employee has the id |
| EmployeeDirectory.DeleteThenAddDuplicatesId | src/app/hr/components/EmployeeDirectory.tsx:36-53 | Ids are not kept unique: deleting employee 1 and adding leaves two employees with id 2 |
| EmployeeManagement.SaveId | src/app/hr/components/EmployeeManagement.tsx:47-47 | The saved id is never empty, and an edited employee with a non-empty id keeps it |
| EmployeeManagement.Replace | src/app/hr/components/EmployeeManagement.tsx:56-56 | Employees with the id are replaced; all others are unchanged; the length is kept |
| EmployeeManagement.DeleteEmployee | src/app/hr/components/EmployeeManagement.tsx:68-70 | Deleting keeps exactly the employees with other ids, each as often as before, in order |
| EmployeeManagement.EmployeeManagementState.constructor | src/app/hr/components/EmployeeManagement.tsx:30-32 | The manager starts empty, closed, with no current employee |
| EmployeeManagement.EmployeeManagementState.HandleClickOpen | src/app/hr/components/EmployeeManagement.tsx:34-37 | Opening to add clears the current employee, so the next save adds |
| EmployeeManagement.EmployeeManagementState.HandleEdit | src/app/hr/components/EmployeeManagement.tsx:63-66 | Opening to edit remembers the employee, so the next save edits it |
| EmployeeManagement.EmployeeManagementState.HandleClose | src/app/hr/components/EmployeeManagement.tsx:39-41 | Closing only closes the dialog |
| EmployeeManagement.EmployeeManagementState.HandleSave | src/app/hr/components/EmployeeManagement.tsx:43-61 | Saving gives the list of `SaveEmployees` and closes the dialog |
| EmployeeManagement.EmployeeManagementState.HandleDelete | src/app/hr/components/EmployeeManagement.tsx:68-70 | Deleting gives the list of `DeleteEmployee` |
| EmployeeManagement.EditKeepsIdAndOthers | src/app/hr/components/EmployeeManagement.tsx:47-56 | Editing replaces the matching employees wholesale by the form under the same id and keeps the length and every other employee |
| EmployeeManagement.AddAppendsTimestamped | src/app/hr/components/EmployeeManagement.tsx:47-58 | Adding appends one employee whose id spells the time in decimal |
| EmployeeManagement.EditEmptyIdGetsTimestamp | src/app/hr/components/EmployeeManagement.tsx:47-47 | An edited employee with an empty id receives the time as its id |
| LeaveManagement.StatusOf | src/app/hr/components/LeaveManagement.tsx:75-75 | A decision never sets Pending |
| LeaveManagement.UpdateStatus | src/app/hr/components/LeaveManagement.tsx:76-78 | Requests with the id take the decided status; others are unchanged; the length is kept |
| LeaveManagement.LeaveManagementState.constructor | src/app/hr/components/LeaveManagement.tsx:46-47 | No requests and the dialog closed |
| LeaveManagement.LeaveManagementState.HandleClickOpen | src/app/hr/components/LeaveManagement.tsx:49-51 | Opens the dialog |
| LeaveManagement.LeaveManagementState.HandleClose | src/app/hr/components/LeaveManagement.tsx:53-55 | Closes the dialog |
| LeaveManagement.LeaveManagementState.HandleSubmit | src/app/hr/components/LeaveManagement.tsx:57-73 | Submitting appends the new request and closes the dialog |
| LeaveManagement.LeaveManagementState.HandleStatusUpdate | src/app/hr/components/LeaveManagement.tsx:75-79 | The update applies whatever the current status |
| LeaveManagement.LeaveManagementState.ClickDecision | src/app/hr/components/LeaveManagement.tsx:119-134 | The Approve and Reject buttons exist only on a Pending row and decide that row's id |
| LeaveManagement.SubmitAppendsPending | src/app/hr/components/LeaveManagement.tsx:60-71 | A submitted request goes last, Pending, with the form's fields and an id spelling the time; earlier requests are kept |
| LeaveManagement.UpdateChangesOnlyStatus | src/app/hr/components/LeaveManagement.tsx:75-79 | An update changes only the status, only of requests with the id, and never makes a request Pending |
| LeaveManagement.PendingNeverGrows | src/app/hr/components/LeaveManagement.tsx:33-33 | No update increases the number of Pending requests |
| LeaveManagement.ClickDecidesOnlyThatRequest | src/app/hr/components/LeaveManagement.tsx:119-134 | With unique ids, a button click decides its own request and no other |
| LeaveManagement.SharedIdRedecides | src/app/hr/components/LeaveManagement.tsx:61-78 | Two requests created in the same millisecond share an id, so deciding one re-decides the other |
| AttendanceTracking.DateOf | src/app/hr/components/AttendanceTracking.tsx:36-36 | The default date is the longest prefix without `T`, ending just before the first `T` |
| AttendanceTracking.AttendanceTrackingState.constructor | src/app/hr/components/AttendanceTracking.tsx:34-36 | No records, closed, and the default date is the date part of the creation time |
| AttendanceTracking.AttendanceTrackingState.HandleClickOpen | src/app/hr/components/AttendanceTracking.tsx:38-40 | Opens the dialog |
| AttendanceTracking.AttendanceTrackingState.HandleClose | src/app/hr/components/AttendanceTracking.tsx:42-44 | Closes the dialog |
| AttendanceTracking.AttendanceTrackingState.HandleSubmit | src/app/hr/components/AttendanceTracking.tsx:46-61 | Submitting appends the new record and closes the dialog |
| AttendanceTracking.SubmitAppendsPresent | src/app/hr/components/AttendanceTracking.tsx:49-59 | A submit adds exactly one record, last, with status Present, the form's fields and an id spelling the time; earlier records are kept in order |
| AttendanceTracking.DateOfSkipsPrefix | src/app/hr/components/AttendanceTracking.tsx:36-36 | Text without a `T` passes through the split untouched |
| AttendanceTracking.DateOfTimestamp | src/app/hr/components/AttendanceTracking.tsx:36-36 | The date part of `date` + `T` + `time` is `date` |
| HelpDesk.PadStart | src/app/support/components/HelpDesk.tsx:71-71 | Padding gives the wider of the text and the width, ends with the text, and fills the front with the pad character |
| HelpDesk.HelpDeskState.constructor | src/app/support/components/HelpDesk.tsx:67-68 | The desk starts with the two demonstration tickets and the initial form |
| HelpDesk.HelpDeskState.HandleInputChange | src/app/support/components/HelpDesk.tsx:108-112 | Typing sets one text field |
| HelpDesk.HelpDeskState.HandlePriorityChange | src/app/support/components/HelpDesk.tsx:104-106 | Choosing a priority changes only the priority |
| HelpDesk.HelpDeskState.FormValid | src/app/support/components/HelpDesk.tsx:114-120 | The form is valid iff subject, description and category are all non-empty |
| HelpDesk.HelpDeskState.HandleSubmitTicket | src/app/support/components/HelpDesk.tsx:74-84 | Submitting, which the disabled button allows only on a valid form (`HelpDesk.tsx:166-167`), puts the new ticket first with its subject, description and category all non-empty, and resets the form |
| HelpDesk.SubmitPutsTicketFirst | src/app/support/components/HelpDesk.tsx:75-82 | A submitted ticket goes first, open, with the form's fields and the time; the earlier tickets follow in their order |
| HelpDesk.FormValidity | src/app/support/components/HelpDesk.tsx:114-120 | Validity ignores the priority, requires the three text fields, and fails on the initial form |
| HelpDesk.ThreeDigits | src/app/support/components/HelpDesk.tsx:71-71 | A number below 1000 padded to three is its hundreds, tens and units digits |
| HelpDesk.ThreeDigitsValue | src/app/support/components/HelpDesk.tsx:71-71 | Three digit characters read back as the number they spell |
| HelpDesk.TicketIdFormat | src/app/support/components/HelpDesk.tsx:70-72 | A ticket id is ten characters, `TICKET-` and three digits that read back as the draw |
| HelpDesk.ChipColorsRoundTrip | src/app/support/components/HelpDesk.tsx:86-102 | Each status and each priority has its own non-default colour, which gives it back |
| HelpDesk.StatusAndPriorityShareColors | src/app/support/components/HelpDesk.tsx:86-102 | Open and high share error, in progress and medium warning, resolved and low success, and no other pair shares a colour |
| KnowledgeBase.CategoryList | src/app/support/components/KnowledgeBase.tsx:50-50 | The articles' categories, one per article, in order |
| KnowledgeBase.Categories | src/app/support/components/KnowledgeBase.tsx:50-50 | The chips list each article category exactly once and nothing else |
| KnowledgeBase.FilterArticles | src/app/support/components/KnowledgeBase.tsx:52-60 | The articles shown are those passing the search test and the category test, each as often as before, in order |
| KnowledgeBase.ClickChip | src/app/support/components/KnowledgeBase.tsx:86-86 | Clicking the selected chip deselects it; clicking another selects it |
| KnowledgeBase.KnowledgeBaseState.constructor | src/app/support/components/KnowledgeBase.tsx:47-48 | An empty query and no category |
| KnowledgeBase.KnowledgeBaseState.SetSearchQuery | src/app/support/components/KnowledgeBase.tsx:70-70 | Typing sets the query |
| KnowledgeBase.KnowledgeBaseState.ClickCategory | src/app/support/components/KnowledgeBase.tsx:86-86 | A chip click toggles the selection as `ClickChip` says |
| KnowledgeBase.KnowledgeBaseState.ClickTag | src/app/support/components/KnowledgeBase.tsx:122-122 | A tag click makes the tag the query |
| KnowledgeBase.CategoriesFirstAppearance | src/app/support/components/KnowledgeBase.tsx:50-50 | One more article adds its category at the end exactly when it is new: categories are in order of first appearance |
| KnowledgeBase.FourCategories | src/app/support/components/KnowledgeBase.tsx:50-50 | Four articles with four different categories list them in article order |
| KnowledgeBase.ArticleCategories | src/app/support/components/KnowledgeBase.tsx:15-50 | The chips are Getting Started, Inventory, Finance, Administration |
| KnowledgeBase.CategoriesDistinct | src/app/support/components/KnowledgeBase.tsx:15-44 | The four article categories are different |
| KnowledgeBase.EmptySearchShowsAll | src/app/support/components/KnowledgeBase.tsx:53-57 | An empty query and no category show every article |
| KnowledgeBase.ChipClickTwice | src/app/support/components/KnowledgeBase.tsx:86-86 | Two clicks on a chip that was not selected end with no selection; on the selected chip they restore the selection |
| KnowledgeBase.TagClickKeepsArticle | src/app/support/components/KnowledgeBase.tsx:55-122 | Clicking a tag of a shown article keeps that article shown |
| TutorialSection.ShownStep | src/app/support/components/TutorialSection.tsx:122-125 | The step on screen is one of the selected tutorial's steps |
| TutorialSection.TutorialSectionState.constructor | src/app/support/components/TutorialSection.tsx:59-60 | No tutorial selected, step 0 |
| TutorialSection.TutorialSectionState.HandleTutorialSelect | src/app/support/components/TutorialSection.tsx:62-65 | Starting a tutorial selects it at step 0 |
| TutorialSection.TutorialSectionState.HandleNext | src/app/support/components/TutorialSection.tsx:67-69 | Next, shown before the last step, moves one step on and stays in bounds |
| TutorialSection.TutorialSectionState.HandleBack | src/app/support/components/TutorialSection.tsx:71-73 | Back, disabled on the first step, moves one step back and stays in bounds |
| TutorialSection.TutorialSectionState.HandleReset | src/app/support/components/TutorialSection.tsx:75-77 | Restart, shown on the last step, returns to step 0 |
| TutorialSection.TutorialSectionState.HandleBackToList | src/app/support/components/TutorialSection.tsx:103-103 | Back to the list clears the selection and keeps the step |
| TutorialSection.TutorialsHaveSteps | src/app/support/components/TutorialSection.tsx:17-56 | Every listed tutorial has three steps |
| TutorialSection.PressKeepsInBounds | src/app/support/components/TutorialSection.tsx:131-145 | With the buttons' guards one click keeps the step inside the selected tutorial |
| TutorialSection.RunKeepsInBounds | src/app/support/components/TutorialSection.tsx:122-145 | Any series of clicks keeps the shown step inside the selected tutorial |
| TutorialSection.StartOpensFirstStep | src/app/support/components/TutorialSection.tsx:62-65 | Starting a tutorial shows its first step, whatever step was left before |
| TutorialSection.BackToListThenStart | src/app/support/components/TutorialSection.tsx:64-103 | Leaving for the list keeps the step, and the next start resets it |
| TutorialSection.NextNeedsItsGuard | src/app/support/components/TutorialSection.tsx:137-145 | Next on the last step would leave the steps; the guard keeps the view unchanged |
| ShippingPage.FilterShipments | src/app/shipping/page.tsx:125-128 | The shipments shown are those whose order number or destination contains the query ignoring case, each as often as before, in order |
| ShippingPage.ShippingDashboard.constructor | src/app/shipping/page.tsx:120-123 | The mock shipments, an empty query, no selection and the dialog closed |
| ShippingPage.ShippingDashboard.SetSearchQuery | src/app/shipping/page.tsx:120-128 | Typing sets the query and leaves the shipments themselves alone |
| ShippingPage.ShippingDashboard.HandleTrackShipment | src/app/shipping/page.tsx:130-133 | Tracking selects the shipment and opens the dialog |
| ShippingPage.ShippingDashboard.CloseTrackingDialog | src/app/shipping/page.tsx:216-216 | Closing only closes the dialog and keeps the selection |
| ShippingPage.EmptyQueryKeepsAll | src/app/shipping/page.tsx:125-128 | An empty query keeps every shipment |
| ShippingPage.FilterIdempotent | src/app/shipping/page.tsx:125-128 | Filtering the filtered list again by the same query changes nothing |
| ShippingPage.OrderNumberFindsShipment | src/app/shipping/page.tsx:125-128 | A shipment's own order number finds it |
| ShippingPage.StatusColorsDistinct | src/app/shipping/page.tsx:106-117 | Pending is warning, in transit info, delivered success, and exactly every other status is default |
| SystemHealthPage.DrawAlert | src/app/system-health/page.tsx:44-49 | An update raises an alert iff its draw exceeds 0.8; the alert is a warning or an error about CPU or memory |
| SystemHealthPage.PushAlert | src/app/system-health/page.tsx:50-50 | The alert list never exceeds five entries |
| SystemHealthPage.GaugeColor | src/app/system-health/page.tsx:89-107 | A gauge is either error or primary |
| SystemHealthPage.SystemHealth.constructor | src/app/system-health/page.tsx:21-30 | Zero metrics, no alerts, loading |
| SystemHealthPage.SystemHealth.UpdateMetrics | src/app/system-health/page.tsx:34-54 | An update sets the drawn metrics, applies the alert update, keeps at most five raised alerts and ends loading, which nothing sets again |
| SystemHealthPage.PushAlertOrder | src/app/system-health/page.tsx:50-50 | The new alert goes first, followed by the previous first min(4, n) alerts in order |
| SystemHealthPage.PushKeepsRaised | src/app/system-health/page.tsx:46-50 | Pushing a warning or error keeps every alert a warning or an error |
| SystemHealthPage.RunKeepsAlertsBounded | src/app/system-health/page.tsx:29-57 | From no alerts, any series of updates leaves at most five, each a warning or an error |
| SystemHealthPage.GaugeThresholds | src/app/system-health/page.tsx:89-107 | CPU and memory are red exactly above 80, disk exactly above 90 |
| SystemHealthPage.DrawnMetricsInRange | src/app/system-health/page.tsx:35-41 | Draws in [0, 1) give percentages in [0, 100), a response time in [0, 1000) and a user count in [0, 999] |
| DashboardBuilder.Capitalize | src/app/business-intelligence/components/CustomDashboardBuilder.tsx:33-33 | Capitalising upper-cases the first character and keeps the rest |
| DashboardBuilder.RemoveWidget | src/app/business-intelligence/components/CustomDashboardBuilder.tsx:39-41 | Removing keeps exactly the widgets with other ids, each as often as before, in order |
| DashboardBuilder.RenameWidget | src/app/business-intelligence/components/CustomDashboardBuilder.tsx:57-61 | Widgets with the id take the new title; others are unchanged; the length is kept |
| DashboardBuilder.CustomDashboardBuilder.constructor | src/app/business-intelligence/components/CustomDashboardBuilder.tsx:26-27 | No widgets and the title "My Custom Dashboard" |
| DashboardBuilder.CustomDashboardBuilder.AddWidgetAt | src/app/business-intelligence/components/CustomDashboardBuilder.tsx:29-37 | Adding gives the list of `AddWidget` |
| DashboardBuilder.CustomDashboardBuilder.RemoveWidgetById | src/app/business-intelligence/components/CustomDashboardBuilder.tsx:39-41 | Removing gives the list of `RemoveWidget` |
| DashboardBuilder.CustomDashboardBuilder.RenameWidgetById | src/app/business-intelligence/components/CustomDashboardBuilder.tsx:57-61 | Editing a title gives the list of `RenameWidget` |
| DashboardBuilder.CustomDashboardBuilder.SetDashboardTitle | src/app/business-intelligence/components/CustomDashboardBuilder.tsx:91-91 | Editing the dashboard title sets it |
| DashboardBuilder.NewTitles | src/app/business-intelligence/components/CustomDashboardBuilder.tsx:33-33 | The three Add buttons title their widgets New Line Chart, New Bar Chart and New Pie Chart |
| DashboardBuilder.AddAppendsWidget | src/app/business-intelligence/components/CustomDashboardBuilder.tsx:29-36 | Adding appends one medium widget of the type with its title and an id `widget-` plus the time's digits; earlier widgets are kept in order |
| DashboardBuilder.RemoveDeletesId | src/app/business-intelligence/components/CustomDashboardBuilder.tsx:39-41 | After removing no widget has the id |
| DashboardBuilder.RenameChangesOnlyTitle | src/app/business-intelligence/components/CustomDashboardBuilder.tsx:57-61 | Editing changes only titles, only of widgets with the id |
| DashboardBuilder.SameMillisecondSharesId | src/app/business-intelligence/components/CustomDashboardBuilder.tsx:31-40 | Two widgets added in the same millisecond share their id, and removing one removes both |
| DashboardBuilder.SizesGrow | src/app/business-intelligence/components/CustomDashboardBuilder.tsx:45-124 | Heights are 200, 300 and 400 and widths 4, 6 and 12 for small, medium and large: they grow together, heights are distinct, and every width divides the row of 12 |

## Left out

- Backend I/O is not modelled. This covers the queries in `fetchTransactions` and `fetchProducts` and the `create_sale` call. It also covers `CustomerList.tsx`, `CustomerDetails.tsx`, `AnalyticsCard.tsx` with its realtime channel and growth percentage, `src/lib/supabase/server.ts`, `src/app/auth/layout.tsx` and `src/app/pos/page.tsx`. Where an answer matters, it is a parameter: save response, sale accepted, sign-in response, navigation outcome, query data.
- Clocks and randomness are parameters: `now`, `nowIso`, the alert and metric draws, and the ticket draw. The draw is taken to be below 1000, as `Math.floor(Math.random() * 1000)` is.
- Recovery effect bodies are abstract outcomes: completion at a clock reading, or a throw. This leaves out `setTimeout`, logging, and the wording of the wrapped errors. `notifyAdmin` is modelled as appending the error to a log.
- Recovery timing: a check's clock advances only across completed effects, so each stamp is the completion time of its effect.
- The singleton (`getInstance`, `automatedRecovery`) is modelled as one explicit instance.
- Concurrency is not modelled: overlapping checks or intervals, and asynchronous interleaving of React state updates. Each handler runs to completion on the state it read.
- `recovery.ts` validates no metric ranges, and none is modelled.
- The event emitter is kept as the list of emitted events. Listeners, and a listener that throws, are not modelled.
- Money is integer cents. JavaScript floating point, `NaN`, and `toFixed`/`toLocaleString`/`toLocaleDateString` formatting are not modelled.
- Toasts and console logging are not modelled.
- `SignIn.RoleRoute` and `SignIn.AuthErrorMessage` do not model lookups of inherited object keys such as `constructor` or `toString`. Those would yield a function value instead of the default.
- `Common.Lower` folds ASCII letters only, not full Unicode case mapping.
- `TransactionList`: the transaction record is defined in `src/app/finance/components/TransactionModal.tsx`, which is not part of this model. A transaction is its type, amount and description.
- `FinancePage.FinanceOverview` does not model the `|| 0` fallback of a sum that is `NaN`, which cannot arise from integer amounts.
- `SignIn.SignInOutcome` takes a created session to carry a user. A session without a user makes the role lookup at `src/app/auth/signin/page.tsx:99` throw into the outer catch; the model covers that only as the `CallThrew` answer with the runtime's message.
- `TransactionList.TransactionListState.HandleSaveTransaction` takes a successful insert to return at least one row. An empty `data` array, which would prepend `undefined` (`src/app/finance/components/TransactionList.tsx:79-80`), is not modelled.
- `EmployeeManagement`: reading the form's fields is modelled as five strings; a missing field (`null`) is not modelled.
- `EmployeeDirectory`: the form is a record of optional fields, matching the partial record the source spreads. The `as Employee` cast on the add path is modelled only for a form holding every text field, which the dialog always supplies.
- `ShippingPage`: the tracking timeline, the dialog's layout and the shipment details display are presentation only.
- `SystemHealthPage`: the interval's scheduling and its cleanup on unmount are not modelled; an update is one call.
- `DashboardBuilder`: the charts' sample data is not modelled.
- Presentation-only files are not modelled: the chart screens, tab shells, layout and barrel files, and the middleware's `matcher` configuration.
