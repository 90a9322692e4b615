# Car-renting client: a Dafny model of its state and selection rules

The system is a React/Redux single-page client for a car-rental service. Customers
post rent requests (a car, a starting point and a destination). Drivers bid on pending
requests. A customer accepts or rejects bids. Administrators manage users, cars and
rents. This project models the client's core in Dafny and proves properties of it:

- **Record stores** (`RecordStore`, `Stores`): the four Redux slices for rents, bids,
  cars and users. One generic `Slice<T>` class holds `items`, `current`, `loading` and
  `error`, with one method per reducer case. The user slice is the only one that also
  registers pending and rejected cases for create, update and delete.
- **Auth session** (`AuthSession`): the auth reducer as a pure `Apply` over an
  `AuthState`, plus a `Session` class whose methods assign the fields one by one and
  are proved equal to `Apply`. It also covers the branching inside `initializeAuth`
  and the login/register payload split.
- **Route guards** (`RouteGuards`): `ProtectedRoute` and `PublicRoute` as decision
  functions returning render, redirect or spinner.
- **Role-scoped selections** (`Visibility`, `DriverPages`, `CustomerBids`,
  `AdminStats`, `HomePage`):
  - a driver's bids, available jobs, bid groups and earnings;
  - a customer's rents and the bids on each;
  - the admin counts, revenue, unique customers and active ratio;
  - the home page's top-rated cars and brand counts.
- **Page handlers** (`DriverPages.JobBoard`, `CustomerBids.RentalsPage`,
  `AdminRents`, `UserAdmin`, `CarAdmin`): the state they update around each await and
  the exact request bodies they send.
- **Forms** (`FormRules`, `RentForm`, `LoginForm`): the rent form's rules, session
  guard and payload; the login email pattern; the password rule.

HTTP calls, local storage and `JSON.parse` become inputs. A thunk's outcome is a
payload or an error message. The stored token and user are optional strings, and
parsing is a function returning `None` where `JSON.parse` would throw.
`window.confirm` is a boolean input.

JavaScript details the model keeps:

- `a?._id === b?._id` is equality of `Option` values. With no signed-in user
  (`None`), a bid whose driver is a bare id string therefore matches, exactly as
  `undefined === undefined` does. `Domain.Ref` distinguishes a populated reference
  (`Populated(id)`) from a bare id string (`Raw(id)`).
- A missing amount or rating counts as 0, as `x || 0` does.
- Sorting uses a stable insertion sort, matching the stable `Array.prototype.sort`.
- The `minLength` rules count UTF-16 code units, as JavaScript's `.length` does
  (`FormRules.JsLength`): three emoji make a six-unit password.

Behaviour of the code worth noting:

- Accepting a bid sends one update for that bid only. It does not reject the sibling
  bids or move the rent to `ongoing` (`Stores.AcceptDoesNotCascade`,
  `CustomerBids.AcceptTouchesOneBid`).
- The client checks no status transition: the status request carries the chosen
  status whatever the rent's current one (`AdminRents.AnyStatusFromAnyStatus`).
- The rent, bid and car slices ignore the pending and rejected cases of create,
  update and delete (`Stores.RentCreateFailureNotRecorded`).
- In the user slice a successful create, update or delete leaves `loading` set
  (`Stores.UserMutationLeavesLoading`).

## Model

| member | source | states |
|---|---|---|
| RecordStore.FirstIndex | src/store/slices/rentSlice.ts:137 | the found index holds the id and no earlier record does; None means no record holds it |
| RecordStore.FindIndex | src/store/slices/rentSlice.ts:137 | the left-to-right `findIndex` scan returns exactly FirstIndex |
| RecordStore.ReplaceFirstOnlyFirstMatch | src/store/slices/bidSlice.ts:136-140 | an update overwrites only the first record with the payload's id; with no match nothing changes; records with other ids are never touched |
| RecordStore.ReplaceFirstContains | src/store/slices/rentSlice.ts:136-140 | after an update the payload is in the list iff it was there or some record had its id: an update never inserts |
| RecordStore.ReplaceFirstIdempotent | src/store/slices/rentSlice.ts:136-140 | applying the same update twice equals applying it once |
| RecordStore.RemoveIdCorrect | src/store/slices/rentSlice.ts:146-147 | after a delete no record has the id, every other record survives, and the order is kept |
| RecordStore.RemoveIdIdempotent | src/store/slices/rentSlice.ts:146-147 | deleting an id twice equals deleting it once |
| RecordStore.RemoveIdLength | src/store/slices/rentSlice.ts:146-147 | exactly the records carrying the id are dropped: new length plus their count is the old length |
| RecordStore.Slice.constructor | src/store/slices/rentSlice.ts:20-25 | the initial state: no records, no current record, not loading, no error |
| RecordStore.Slice.ClearError | src/store/slices/rentSlice.ts:96-98 | `clearError` sets error to null and changes nothing else |
| RecordStore.Slice.SetCurrent | src/store/slices/rentSlice.ts:99-101 | `setCurrentRent` changes only the current record |
| RecordStore.Slice.Pending | src/store/slices/rentSlice.ts:106-109 | a registered pending case sets loading and clears error; an unregistered one changes nothing |
| RecordStore.Slice.Rejected | src/store/slices/rentSlice.ts:114-117 | a registered rejected case clears loading and stores the message; an unregistered one changes nothing |
| RecordStore.Slice.GetAllFulfilled | src/store/slices/rentSlice.ts:110-113 | the list is replaced wholesale by the payload and loading is cleared |
| RecordStore.Slice.GetByIdFulfilled | src/store/slices/bidSlice.ts:123-126 | the payload becomes the current record and loading is cleared |
| RecordStore.Slice.CreateFulfilled | src/store/slices/carSlice.ts:137-139 | exactly one record is appended at the end; the flags are untouched |
| RecordStore.Slice.UpdateFulfilled | src/store/slices/rentSlice.ts:136-144 | the list becomes ReplaceFirst of the old list; the current record follows only on an id match |
| RecordStore.Slice.DeleteFulfilled | src/store/slices/rentSlice.ts:146-151 | the list becomes RemoveId of the old list; the current record is nulled exactly when its id is the deleted one |
| Stores.NewRentSlice | src/store/slices/rentSlice.ts:103-152 | the rent slice is keyed by `_id` and does not register mutation pending/rejected cases |
| Stores.NewBidSlice | src/store/slices/bidSlice.ts:103-152 | the bid slice is keyed by `_id` and does not register mutation pending/rejected cases |
| Stores.NewCarSlice | src/store/slices/carSlice.ts:108-157 | the car slice is keyed by `_id` and does not register mutation pending/rejected cases |
| Stores.NewUserSlice | src/store/slices/userSlice.ts:104-177 | the user slice is keyed by `_id` and registers pending/rejected for every thunk |
| Stores.UserMutationLeavesLoading | src/store/slices/userSlice.ts:133-172 | after a pending then fulfilled create, update or delete the user slice is still loading |
| Stores.RentCreateFailureNotRecorded | src/store/slices/rentSlice.ts:132-134 | a rejected rent create never reaches `error` |
| Stores.AcceptDoesNotCascade | src/store/slices/bidSlice.ts:136-140 | storing an accepted bid leaves a pending sibling bid on the same rent pending |
| AuthSession.Apply | src/store/slices/authSlice.ts:102-168 | every settled case ends not loading and initialized; logout nulls user and token and keeps loading and error; setUser stores the payload as user, keeps the token and sets initialized; initializeAuth fulfilled stores the payload's token and user; sign-in fulfilled stores the payload and clears error; sign-in rejected keeps token and user; init pending and clearError touch one field |
| AuthSession.InitializedIsStable | src/store/slices/authSlice.ts:101-168 | once initialized, no sequence of actions un-initializes the session |
| AuthSession.InitializeAuth | src/store/slices/authSlice.ts:44-64 | rejects iff both stored values are non-empty and parsing fails; otherwise resolves with a token exactly when with a user, and only from stored values |
| AuthSession.InitializeTokenIffUser | src/store/slices/authSlice.ts:123-134 | after initializeAuth settles, the session has a token iff it has a user, is idle and initialized |
| AuthSession.FailureMessage | src/store/slices/authSlice.ts:76-79 | a non-empty server message is used; otherwise "Login failed" or "Registration failed" |
| AuthSession.SignInOutcome | src/store/slices/authSlice.ts:67-96 | a response resolves with a user record that is the server record minus `accessToken`, whose value becomes the token; a failure rejects with FailureMessage |
| AuthSession.SignInSplitRoundTrip | src/store/slices/authSlice.ts:72-75 | putting the token back into the user record reproduces the server's record |
| AuthSession.InitialUser | src/store/slices/authSlice.ts:22-32 | the initial user is the parsed stored user when that string is non-empty, else null |
| AuthSession.Session.constructor | src/store/slices/authSlice.ts:35-41 | the initial state holds the stored token and user, not loading, no error, not initialized |
| AuthSession.Session.Logout | src/store/slices/authSlice.ts:102-108 | the new state is Apply(old state, Logout) |
| AuthSession.Session.SetUser | src/store/slices/authSlice.ts:109-112 | the new state is Apply(old state, SetUser) |
| AuthSession.Session.ClearError | src/store/slices/authSlice.ts:113-115 | the new state is Apply(old state, ClearError) |
| AuthSession.Session.InitializePending | src/store/slices/authSlice.ts:120-122 | the new state is Apply(old state, InitPending) |
| AuthSession.Session.InitializeFulfilled | src/store/slices/authSlice.ts:123-128 | the new state is Apply(old state, InitFulfilled) |
| AuthSession.Session.InitializeRejected | src/store/slices/authSlice.ts:129-134 | the new state is Apply(old state, InitRejected) |
| AuthSession.Session.SignInPending | src/store/slices/authSlice.ts:136-139 | the new state is Apply(old state, SignInPending) |
| AuthSession.Session.SignInFulfilled | src/store/slices/authSlice.ts:140-146 | the new state is Apply(old state, SignInFulfilled) |
| AuthSession.Session.SignInRejected | src/store/slices/authSlice.ts:147-151 | the new state is Apply(old state, SignInRejected) |
| RouteGuards.ProtectedRoute | src/components/routes/ProtectedRoute.tsx:10-28 | no token redirects to /login; a non-empty role list without the user's role redirects to /; a listed role, or an absent or empty list, renders; never a spinner |
| RouteGuards.DashboardFor | src/components/routes/PublicRoute.tsx:25-36 | admin, driver and user map to their dashboards; anything else maps to / |
| RouteGuards.PublicRoute | src/components/routes/PublicRoute.tsx:9-38 | spinner iff not initialized or loading; a restricted page with token and user redirects by role; otherwise it renders |
| RouteGuards.UnrestrictedRendersWhenIdle | src/components/routes/PublicRoute.tsx:9 | with the default `restricted = false` an idle session renders the page |
| RouteGuards.SettledSessionShowsNoSpinner | src/store/slices/authSlice.ts:123-168 | after any settled thunk no public page shows the spinner |
| RouteGuards.LogoutLocksProtectedPages | src/store/slices/authSlice.ts:102-108 | after logout every protected page redirects to /login and an idle login page renders |
| RouteGuards.SignInOpensRoleRoutes | src/components/routes/ProtectedRoute.tsx:20-27 | after sign-in a protected page renders iff its list holds the role, and the login page redirects to that role's dashboard |
| RouteGuards.DriverOnAppRoutes | src/App.tsx:85-109 | a driver may open the shared dashboard but is sent home from the user-only and admin-only routes |
| Visibility.MyBids | src/pages/dashboard/DriverMyBids.tsx:17 | exactly the bids whose driver id equals the user's id, in order |
| Visibility.NoBidByIffNoneInMyBids | src/pages/dashboard/DriverAvailableJobs.tsx:26-29 | a rent has no bid by this driver, populated or raw, iff none of the driver's bids is on it |
| Visibility.NoPopulatedBidByIffNoneInMyBids | src/pages/dashboard/DriverDashboard.tsx:33-36 | the same equivalence with only populated rent references |
| Visibility.AvailableJobs | src/pages/dashboard/DriverAvailableJobs.tsx:26-30 | exactly the pending rents without a bid by this driver, in original order |
| Visibility.DashboardAvailable | src/pages/dashboard/DriverDashboard.tsx:33-36 | exactly the pending rents without a bid by this driver through a populated rent reference, in order |
| Visibility.OtherDriversDoNotExclude | src/pages/dashboard/DriverAvailableJobs.tsx:26-30 | adding other drivers' bids never changes the available jobs |
| Visibility.JobsPageWithinDashboard | src/pages/dashboard/DriverDashboard.tsx:33-36 | the jobs page's list is a subsequence of the dashboard's |
| Visibility.RawRentRefOnlyHidesOnJobsPage | src/pages/dashboard/DriverDashboard.tsx:35 | a bid with a bare rent id hides the rent on the jobs page but not on the dashboard |
| Visibility.ThreeRentScenario | src/pages/dashboard/DriverAvailableJobs.tsx:27-30 | sample: of two pending rents and one ongoing, the one bid on and the ongoing one are hidden |
| Visibility.MyRents | src/pages/dashboard/UserMyBids.tsx:28 | exactly the rents whose customer id equals the user's id, in order |
| Visibility.BidsForRent | src/pages/dashboard/UserMyBids.tsx:31-35 | exactly the bids whose rent reference, populated or raw, is the rent's id |
| Visibility.BidsForRentPartition | src/pages/dashboard/UserMyBids.tsx:31-35 | each bid belongs to the list of exactly the rent its reference names |
| DriverPages.BidGroup | src/pages/dashboard/DriverMyBids.tsx:20-22 | exactly the driver's bids with the given status, a subsequence of MyBids |
| DriverPages.GroupsDisjoint | src/pages/dashboard/DriverMyBids.tsx:20-22 | groups for different statuses share no bid |
| DriverPages.GroupsPartitionMyBids | src/pages/dashboard/DriverMyBids.tsx:20-22 | the three group sizes sum to at most the number of the driver's bids, and to exactly that when all statuses are valid |
| DriverPages.BidStatusLabel | src/pages/dashboard/DriverMyBids.tsx:24-51 | accepted and rejected get their own labels; every other status is labelled Pending |
| DriverPages.UnknownStatusLabelledPendingButUngrouped | src/pages/dashboard/DriverMyBids.tsx:20-51 | a bid with an unknown status is labelled Pending yet counted in no group |
| DriverPages.EarningsSnoc | src/pages/dashboard/DriverDashboard.tsx:30 | one more bid adds its amount, missing as 0, exactly when it is this driver's and accepted |
| DriverPages.NoAcceptedNoEarnings | src/pages/dashboard/DriverDashboard.tsx:26-30 | without accepted bids of this driver the earnings are 0 |
| DriverPages.TotalEarnings | src/pages/dashboard/DriverDashboard.tsx:26-30 | the reduce over this driver's accepted bids; with no negative amount the earnings are not negative (EarningsSnoc gives the step) |
| DriverPages.DriverDashboard | src/pages/dashboard/DriverDashboard.tsx:25-36 | the earnings are TotalEarnings; the active and pending lists are exactly the first min(5, group size) bids of their groups; the available count is the dashboard's available list length |
| DriverPages.BidRequestFor | src/pages/dashboard/DriverAvailableJobs.tsx:35-48 | a bid is sent iff a rent is selected and amount and location are non-empty; it is pending, for the selected rent, by the current user |
| DriverPages.SubmittedBidClosesJob | src/pages/dashboard/DriverAvailableJobs.tsx:26-48 | assuming the server echoes the created bid with this driver populated, its rent is no longer an available job once stored |
| DriverPages.RawEchoKeepsJobOpen | src/store/slices/bidSlice.ts:132-134 | a created bid stored with the bare driver id the client sends leaves the job board exactly as it was |
| DriverPages.JobBoard.constructor | src/pages/dashboard/DriverAvailableJobs.tsx:14-18 | nothing selected, empty fields, not submitting |
| DriverPages.JobBoard.Select | src/pages/dashboard/DriverAvailableJobs.tsx:155 | selecting a rent changes only the selection |
| DriverPages.JobBoard.Cancel | src/pages/dashboard/DriverAvailableJobs.tsx:218-222 | cancel clears the selection, the amount and the location |
| DriverPages.JobBoard.SubmitBid | src/pages/dashboard/DriverAvailableJobs.tsx:32-48 | the request is BidRequestFor the current fields; submitting is set only when a request is sent |
| DriverPages.JobBoard.SubmitSettled | src/pages/dashboard/DriverAvailableJobs.tsx:50-66 | submitting is reset in every case; a fulfilled create clears the fields, sets the message and refetches |
| CustomerBids.AcceptRequest | src/pages/dashboard/UserMyBids.tsx:38-41 | accept sends one update of that bid with only `bidStatus: accepted` |
| CustomerBids.RejectRequest | src/pages/dashboard/UserMyBids.tsx:57-60 | reject sends one update of that bid with only `bidStatus: rejected` |
| CustomerBids.AcceptTouchesOneBid | src/pages/dashboard/UserMyBids.tsx:37-54 | storing the accepted bid changes that slot only; every other bid is unchanged |
| CustomerBids.RentStatusLabel | src/pages/dashboard/UserMyBids.tsx:69-104 | the three statuses get their labels; anything else is Unknown |
| CustomerBids.CardFooterExclusive | src/pages/dashboard/UserMyBids.tsx:201-213 | on a pending rent exactly one of View-bids and waiting shows; on others neither; View-bids iff there is a bid |
| CustomerBids.PendingBidsOn | src/pages/dashboard/UserMyBids.tsx:134-135 | exactly the bids on the rent with pending status: each listed bid is on the rent and pending, every such bid is listed, and the order is the rent's bid order |
| CustomerBids.PendingBidsOnIsOneFilter | src/pages/dashboard/UserMyBids.tsx:134-135 | filtering the rent's bids by status equals one filter of the whole store by "on this rent and pending" |
| CustomerBids.PendingBadge | src/pages/dashboard/UserMyBids.tsx:147-151 | a shown badge holds the number of pending bids on the rent, counted both through PendingBidsOn and over the whole store; it is hidden iff that number is 0 |
| CustomerBids.PendingBadgeHiddenIffNonePending | src/pages/dashboard/UserMyBids.tsx:135-151 | the badge is hidden iff no bid on the rent is pending |
| CustomerBids.DecidedBidOffersNothing | src/pages/dashboard/UserMyBids.tsx:312 | once accepted or rejected a bid offers neither button |
| CustomerBids.RentalsPage.constructor | src/pages/dashboard/UserMyBids.tsx:15-16 | no rent selected and the modal closed |
| CustomerBids.RentalsPage.ModalBids | src/pages/dashboard/UserMyBids.tsx:225-251 | the modal lists the selected rent's bids, and only while open with a selection |
| CustomerBids.RentalsPage.OpenBids | src/pages/dashboard/UserMyBids.tsx:201-206 | View-bids selects the rent and opens the modal |
| CustomerBids.RentalsPage.CloseModal | src/pages/dashboard/UserMyBids.tsx:231-234 | closing clears the selection and the modal |
| CustomerBids.RentalsPage.AcceptSettled | src/pages/dashboard/UserMyBids.tsx:43-53 | a fulfilled accept refetches rents and bids and closes the modal; otherwise nothing changes |
| CustomerBids.RentalsPage.RejectSettled | src/pages/dashboard/UserMyBids.tsx:61-66 | a reject never refetches rents and refetches bids only when fulfilled |
| AdminStats.CountKey | src/pages/dashboard/AdminDashboard.tsx:39-46 | a filter count is at most the list length |
| AdminStats.RentStatusCounts | src/pages/dashboard/AdminDashboard.tsx:43-46 | the pending, ongoing and completed counts sum to at most the number of rents |
| AdminStats.RentStatusCountsCover | src/pages/dashboard/MyCars.tsx:195-207 | with valid statuses the three counts sum to exactly the number of rents |
| AdminStats.UserRoleCounts | src/pages/dashboard/AdminDashboard.tsx:39-41 | the admin, driver and customer counts sum to at most the number of users |
| AdminStats.RevenueSnoc | src/pages/dashboard/AdminDashboard.tsx:50-55 | one more bid adds its amount, missing as 0, exactly when it is accepted |
| AdminStats.TotalRevenue | src/pages/dashboard/AdminDashboard.tsx:50-55 | the reduce over accepted bids; with no negative amount the revenue is not negative (RevenueSnoc gives the step) |
| AdminStats.NoAcceptedNoRevenue | src/pages/dashboard/AdminDashboard.tsx:50-55 | without accepted bids the revenue is 0 |
| AdminStats.EarningsWithinRevenue | src/pages/dashboard/DriverDashboard.tsx:30 | with non-negative amounts a driver's earnings never exceed the total revenue |
| AdminStats.AdminOverview | src/pages/dashboard/AdminDashboard.tsx:34-55 | loading iff any slice loads; total cars, users, rents and bids are the list lengths; the role and status counts, the pending and accepted bid counts and the revenue are the filter counts and sum; the recent lists are the first at most 5 in store order |
| AdminStats.UserKeys | src/pages/dashboard/AdminRentmanagement.tsx:138 | the set of customer ids, populated or raw, of the rents: each rent's id is in it, and nothing else |
| AdminStats.UniqueUsers | src/pages/dashboard/AdminRentmanagement.tsx:142-144 | the size of the set UserKeys of distinct customer ids; at most the rents, and at least one when there are rents |
| AdminStats.SameCustomerCountsOnce | src/pages/dashboard/AdminRentmanagement.tsx:138 | a populated and a raw reference to one customer count once |
| AdminStats.DistinctCustomersCountEach | src/pages/dashboard/AdminRentmanagement.tsx:142-144 | rentals by pairwise different customers give one customer per rental |
| AdminStats.UniqueUsersSnoc | src/pages/dashboard/AdminRentmanagement.tsx:142-144 | one more rental adds a customer exactly when no earlier rental has the same customer id |
| AdminStats.Round | src/pages/dashboard/AdminRentmanagement.tsx:477 | `Math.round` on a non-negative value: the nearest integer, halves up |
| AdminStats.PercentRounded | src/pages/dashboard/AdminRentmanagement.tsx:477 | a rounded percentage lies in [0,100], 0 for none and 100 for all |
| AdminStats.ActiveRatio | src/pages/dashboard/AdminRentmanagement.tsx:477 | 0 with no rents or none ongoing, 100 when all are ongoing, always within [0,100] |
| AdminStats.StatusColor | src/pages/dashboard/MyCars.tsx:37-48 | the three statuses get their colours; anything else gray |
| AdminStats.StatusColorDistinguishes | src/pages/dashboard/AdminRentmanagement.tsx:93-104 | gray iff the status is invalid; valid statuses get distinct colours |
| AdminStats.RentalsTable | src/pages/dashboard/MyCars.tsx:88-115 | the table lists every rent in store order |
| AdminStats.RentalsTableShowsOthersRents | src/pages/dashboard/MyCars.tsx:115 | a rent of another customer is listed, though not among the viewer's own rents |
| AdminRents.EditRequest | src/pages/dashboard/AdminRentmanagement.tsx:45-51 | the edit sends only startingPoint and destination |
| AdminRents.StatusRequest | src/pages/dashboard/AdminRentmanagement.tsx:65-68 | a status change sends only rentStatus |
| AdminRents.AnyStatusFromAnyStatus | src/pages/dashboard/AdminRentmanagement.tsx:61-68 | whatever the rent's current status, the status request carries exactly the chosen status; an edit request carries no status and a status request no route field |
| AdminRents.RentAdminPage.constructor | src/pages/dashboard/AdminRentmanagement.tsx:13-19 | nothing updating, deleting or being edited |
| AdminRents.RentAdminPage.EditClick | src/pages/dashboard/AdminRentmanagement.tsx:27-33 | the rent becomes the edited one and the form is prefilled from it |
| AdminRents.RentAdminPage.EditForm | src/pages/dashboard/AdminRentmanagement.tsx:201-218 | typing changes only the edit form |
| AdminRents.RentAdminPage.EditCancel | src/pages/dashboard/AdminRentmanagement.tsx:156-229 | cancel drops the edited rent only |
| AdminRents.RentAdminPage.EditSubmit | src/pages/dashboard/AdminRentmanagement.tsx:35-51 | a request is sent iff a rent is edited and the admin confirms; declining changes nothing |
| AdminRents.RentAdminPage.EditSettled | src/pages/dashboard/AdminRentmanagement.tsx:52-58 | after the await, success or not, the list is refetched, the edit closed and updatingId reset |
| AdminRents.RentAdminPage.StatusUpdate | src/pages/dashboard/AdminRentmanagement.tsx:61-68 | confirmed: sends StatusRequest and marks the rent updating; declined: nothing changes |
| AdminRents.RentAdminPage.StatusSettled | src/pages/dashboard/AdminRentmanagement.tsx:69-74 | after the await the list is refetched and updatingId reset |
| AdminRents.RentAdminPage.Delete | src/pages/dashboard/AdminRentmanagement.tsx:77-84 | confirmed: sends the id and marks it deleting; declined: nothing changes |
| AdminRents.RentAdminPage.DeleteSettled | src/pages/dashboard/AdminRentmanagement.tsx:85-90 | after the await the list is refetched and deletingId reset |
| AdminRents.EditRoundTrip | src/pages/dashboard/AdminRentmanagement.tsx:27-59 | click, type, confirm and settle send exactly the typed route and leave nothing busy or open |
| AdminRents.RentalsTablePage.constructor | src/pages/dashboard/MyCars.tsx:12 | nothing is being deleted |
| AdminRents.RentalsTablePage.Delete | src/pages/dashboard/MyCars.tsx:20-24 | delete is dispatched only after confirmation; declining changes nothing |
| AdminRents.RentalsTablePage.DeleteSettled | src/pages/dashboard/MyCars.tsx:25-34 | after the attempt the list is refetched and deletingId reset in all cases |
| UserAdmin.FilteredUsers | src/pages/dashboard/UsersManagement.tsx:123-129 | a user is kept iff the lower-cased term is in the lower-cased name or email and the role filter is `all` or the user's role; order kept |
| UserAdmin.EmptySearchKeepsAllUsers | src/pages/dashboard/UsersManagement.tsx:123-129 | an empty term with role `all` keeps every user in order |
| UserAdmin.UserSearchIgnoresCase | src/pages/dashboard/UsersManagement.tsx:124-126 | terms that lower-case alike select the same users |
| UserAdmin.SearchByNameFindsUser | src/pages/dashboard/UsersManagement.tsx:124-126 | searching a user's own name in any case finds them |
| UserAdmin.RoleCountsMatchRoleFilter | src/pages/dashboard/UsersManagement.tsx:214-226 | each role count equals the size of the list filtered by that role |
| UserAdmin.NewUserForm | src/pages/dashboard/UsersManagement.tsx:56-63 | the new-user form has role `user`, rating 0 and empty strings |
| UserAdmin.RatingOrZero | src/pages/dashboard/UsersManagement.tsx:51 | a missing rating becomes 0 |
| UserAdmin.TextOrEmpty | src/pages/dashboard/UsersManagement.tsx:50 | a missing image becomes the empty string |
| UserAdmin.EditUserForm | src/pages/dashboard/UsersManagement.tsx:45-52 | the edit form copies name, email and role, defaults image and rating, and empties the password |
| UserAdmin.CreateUserBody | src/pages/dashboard/UsersManagement.tsx:100 | a create sends the six form fields |
| UserAdmin.UpdateUserBody | src/pages/dashboard/UsersManagement.tsx:79-84 | an update sends only role, img and rating; never name, email or password |
| UserAdmin.UsersPage.constructor | src/pages/dashboard/UsersManagement.tsx:21-33 | the modal closed, empty search, role `all`, the new-user form |
| UserAdmin.UsersPage.OpenModal | src/pages/dashboard/UsersManagement.tsx:41-66 | editing iff a user is given; the form is that user's prefill or the new-user form |
| UserAdmin.UsersPage.CloseModal | src/pages/dashboard/UsersManagement.tsx:68-72 | closing clears the modal, the editing flag and the selection |
| UserAdmin.UsersPage.Submit | src/pages/dashboard/UsersManagement.tsx:74-100 | an update of the selected user when editing with a selection; otherwise a create |
| UserAdmin.UsersPage.SubmitSettled | src/pages/dashboard/UsersManagement.tsx:93-107 | the modal closes and users are refetched only on a fulfilled result |
| UserAdmin.UsersPage.SetSearch | src/pages/dashboard/UsersManagement.tsx:186-195 | the search box and role select change only the filter |
| Domain.ConfirmedDelete | src/pages/dashboard/UsersManagement.tsx:111-121 | a delete of that id is sent iff confirmed; the list is refetched iff confirmed and the delete is fulfilled, never without a request |
| UserAdmin.EditUnchanged | src/pages/dashboard/UsersManagement.tsx:41-84 | opening a user and saving unchanged sends that user's role, image and rating only |
| CarAdmin.FilteredCars | src/pages/dashboard/CarsManagement.tsx:124-128 | a car is kept iff the lower-cased term is in the lower-cased name, brand or model; order kept |
| CarAdmin.EmptySearchKeepsAllCars | src/pages/dashboard/CarsManagement.tsx:124-128 | an empty term keeps every car in order |
| CarAdmin.CarSearchIgnoresCase | src/pages/dashboard/CarsManagement.tsx:124-128 | terms that lower-case alike select the same cars |
| CarAdmin.SearchByBrandFindsCar | src/pages/dashboard/CarsManagement.tsx:126 | searching a car's brand in any case finds it |
| CarAdmin.NewCarForm | src/pages/dashboard/CarsManagement.tsx:62-74 | Petrol, capacity 5, New, rating 0 and empty strings |
| CarAdmin.EditCarForm | src/pages/dashboard/CarsManagement.tsx:47-60 | the prefill copies every field, a missing rating becoming 0 |
| CarAdmin.CarOfForm | src/pages/dashboard/CarsManagement.tsx:8-18 | the car a form describes carries the form's fields |
| CarAdmin.EditFormRoundTrip | src/pages/dashboard/CarsManagement.tsx:47-60 | a rated car opened and saved unchanged is the same car; an unrated one comes back rated 0 |
| CarAdmin.CarBody | src/pages/dashboard/CarsManagement.tsx:88-101 | create and update send all nine form fields |
| CarAdmin.CarsPage.constructor | src/pages/dashboard/CarsManagement.tsx:24-38 | the modal closed, empty search, the new-car form |
| CarAdmin.CarsPage.OpenModal | src/pages/dashboard/CarsManagement.tsx:46-77 | editing iff a car is given; the form is its prefill or the new-car form |
| CarAdmin.CarsPage.CloseModal | src/pages/dashboard/CarsManagement.tsx:79-83 | closing clears the modal, the editing flag and the selection |
| CarAdmin.CarsPage.Submit | src/pages/dashboard/CarsManagement.tsx:85-101 | an update of the selected car when editing with a selection; otherwise a create |
| CarAdmin.CarsPage.SubmitSettled | src/pages/dashboard/CarsManagement.tsx:94-108 | the modal closes and cars are refetched only on a fulfilled result |
| CarAdmin.CarsPage.SetSearch | src/pages/dashboard/CarsManagement.tsx:161 | the search box changes only the term |
| CarAdmin.NewCarDefaults | src/pages/dashboard/CarsManagement.tsx:62-108 | a new car submitted untouched is a create carrying the defaults |
| HomePage.TopRatedCars | src/pages/Home.tsx:19-22 | at most 6 cars, each numerically rated at least 4.5, non-increasing by rating; a qualifying car left out is rated no higher than all 6 shown |
| HomePage.FewRatedCarsAllShown | src/pages/Home.tsx:19-22 | with at most 6 qualifying cars all are shown |
| HomePage.BrandOrder | src/pages/Home.tsx:25-28 | the object's keys: distinct, exactly the brands that occur |
| HomePage.BrandCounts | src/pages/Home.tsx:25-28 | the reduce yields one key per brand, in first-appearance order, holding that brand's car count, at least 1 |
| HomePage.BrandTotalsCoverCars | src/pages/Home.tsx:25-28 | the brand counts sum to the number of cars |
| HomePage.TopBrands | src/pages/Home.tsx:30-33 | at most 8 entries, non-increasing by count, each a brand present with its exact count of at least 1, no brand twice; a brand left out has no more cars than all 8 shown |
| HomePage.FewBrandsAllShown | src/pages/Home.tsx:30-33 | with at most 8 brands all are shown |
| FormRules.RequiredMinLength | src/pages/dashboard/RentCar.tsx:129-135 | no error iff the value is non-empty and its UTF-16 length reaches the minimum; the required message for empty, the length message for short |
| FormRules.JsLength | src/pages/dashboard/RentCar.tsx:129-135 | the `.length` the minLength rule compares: between the character count and twice it, and 0 only for the empty string |
| FormRules.BmpLength | src/pages/dashboard/RentCar.tsx:129-135 | without characters beyond the Basic Multilingual Plane the UTF-16 length is the character count |
| RentForm.RentErrors | src/pages/dashboard/RentCar.tsx:99-160 | errors for a missing car, and for a starting point or destination shorter than 3 UTF-16 code units, with the source's messages |
| RentForm.RentBody | src/pages/dashboard/RentCar.tsx:52-59 | the created rent carries the form's car, starting point and destination and `rentStatus: pending` |
| RentForm.RentSubmit | src/pages/dashboard/RentCar.tsx:46-59 | validation first; a valid form without an initialized session or user goes to /login; otherwise exactly RentBody is created |
| RentForm.NoSessionNoRent | src/pages/dashboard/RentCar.tsx:47-50 | without an initialized session or a user no rent is created |
| RentForm.RentCarPage.constructor | src/pages/dashboard/RentCar.tsx:24 | empty form, the select in sync |
| RentForm.RentCarPage.ApplyQuery | src/pages/dashboard/RentCar.tsx:38-44 | a non-empty `carId` query preselects that car in form and select; otherwise nothing changes |
| RentForm.RentCarPage.SelectCar | src/pages/dashboard/RentCar.tsx:101-104 | choosing a car sets both the select and the form value |
| RentForm.RentCarPage.SetStartingPoint | src/pages/dashboard/RentCar.tsx:129 | typing changes only the starting point |
| RentForm.RentCarPage.SetDestination | src/pages/dashboard/RentCar.tsx:154 | typing changes only the destination |
| RentForm.RentCarPage.Submit | src/pages/dashboard/RentCar.tsx:46-59 | the submit step is RentSubmit of the current fields |
| RentForm.PreselectedRent | src/pages/dashboard/RentCar.tsx:38-59 | a preselected car with valid places, submitted when signed in, creates a pending rent for that car |
| LoginForm.IndexOf | src/pages/Login.tsx:81 | the first position of a character, or none |
| LoginForm.LastIndexOf | src/pages/Login.tsx:81 | the last position of a character, or none |
| LoginForm.CheckEmail | src/pages/Login.tsx:81 | accepts iff there is an `@` and a `.` and the split at the first `@` and the last `.` matches the pattern's three character classes |
| LoginForm.CheckEmailMatchesPattern | src/pages/Login.tsx:81 | the direct check at the first `@` and last `.` accepts exactly the strings the pattern matches |
| LoginForm.SplitIsUnique | src/pages/Login.tsx:81 | any matching split sits at the first `@` and the last `.` |
| LoginForm.AcceptedEmailShape | src/pages/Login.tsx:81 | an accepted email has exactly one `@`, and after its last `.` come two or more letters only |
| LoginForm.EmailIgnoresCase | src/pages/Login.tsx:81 | the `i` flag: an email is accepted iff its lower-cased form is |
| LoginForm.EmailError | src/pages/Login.tsx:78-84 | no error iff the pattern matches; the required message for empty, the invalid message otherwise |
| LoginForm.PasswordError | src/pages/Login.tsx:109-115 | no error iff the UTF-16 length is at least 6; the required message for empty, the length message for short |
| LoginForm.PasswordLengthInCodeUnits | src/pages/Login.tsx:109-115 | three emoji pass the six-unit rule, five letters do not |
| LoginForm.LoginAttempt | src/pages/Login.tsx:25-26 | login is dispatched with email and password iff both fields pass |
| FormRules.NavigateOnFulfilled | src/pages/Login.tsx:27-29 | navigation iff the thunk is fulfilled, always to /dashboard; the rent form uses the same step (src/pages/dashboard/RentCar.tsx:61-63) |
| LoginForm.DoubledDotSubmitted | src/pages/Login.tsx:77-81 | "a@b..io" matches the pattern, so with a six-letter password the login is dispatched |
| LoginForm.EmailSamples | src/pages/Login.tsx:81 | sample inputs: a plain address passes; a one-letter suffix or a second `@` fails |

## Left out

- HTTP: the thunk bodies and the `api` client are not part of this model. Each thunk's outcome is an input (payload or error message).
- Local storage: reads and writes become inputs. `localStorage.setItem` of an undefined token is not modelled.
- `JSON.parse`: an input function returning `None` where it throws. Parses that yield non-object values are not distinguished from profiles.
- Text search: `toLowerCase` is modelled for ASCII letters only; Unicode case mapping is not modelled.
- Floating point: amounts are integers and ratings exact reals. `parseFloat`/`parseInt` of inputs, `toFixed(2)` and NaN are not modelled. `Math.round` is exact rounding over reals.
- `Object.entries` key order: the model orders brands by first appearance. It does not model JavaScript putting integer-like keys (a brand named "123") first.
- React, the router and react-hook-form internals, JSX, styling, `useEffect` ordering and `setTimeout` are not modelled. Handlers are split at their await into a before step and a settled step.
- Overlapping requests and refetch races: each handler awaits one dispatch at a time, and interleavings are not modelled.
- Server echoes: `CustomerBids.Patched` is the record the server is assumed to send back for a bid PATCH, namely the bid with only the sent fields changed. No server code is part of this model, so `CustomerBids.AcceptTouchesOneBid` and `CustomerBids.DecidedBidOffersNothing` hold under that assumption.
- DriverPages.SubmittedBidClosesJob: assumes the server answers `createBid` with the driver populated. The client sends the bare id, and `DriverPages.RawEchoKeepsJobOpen` shows that with a bare-id echo the rent stays listed until the refetch.
- Browser form validation: the login email input has `type="email"` and the form has no `noValidate`, so the browser's own email check and whitespace trimming run before the pattern. The model checks only the pattern. For example, "a@b..io" matches it, so `LoginForm.LoginAttempt` returns credentials (`LoginForm.DoubledDotSubmitted`), yet a browser blocks that submit.
- Server-side rules the client does not implement: the accept cascade, status-transition enforcement and one bid per driver.
- AdminRents.RentAdminPage.StatusUpdate: requires one of the three statuses, because the select offers only those.
- AdminStats.Round: requires a non-negative argument, the only kind the ratio passes it.
- AdminStats.RentStatusCounts: its ensures gives only the upper bound. The exact sum for valid statuses is the separate lemma `AdminStats.RentStatusCountsCover`.
