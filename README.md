# Community Free Food Sharing — a verified model of the donation lifecycle

Community Free Food Sharing is a web application. Donors post surplus food,
volunteers pick it up, and beneficiaries browse what is on offer. The system has
four records: a user with a role, a food item, the pickup task paired with each
item, and the notifications sent at each step. Its core is the donation
lifecycle. An item and its task move from available/pending through
assigned/accepted to completed/completed, and every step notifies someone.

This project models that lifecycle twice and proves properties of both models:

- **The in-memory store** (`MockStore.DonationStore`). It holds four arrays of
  records and the signed-in user. Ids are "length + 1" in decimal, so record
  `i` has id `i + 1`. The store keeps that numbering invariant (`Valid`).
  Adding, accepting and completing preserve the one-to-one task/item pairing
  with matching statuses (`Paired`). The seed data meets both invariants.
- **The table-backed service** (`SupabaseService.Backend`). It keeps tables as
  maps keyed by id. Each store call may fail, as stated by the `Faults` record.
  The model states the order of the writes and what a failure part-way leaves
  behind. The two writes of a transition are not atomic, so a failed food write
  breaks the pairing. The module also models the row-to-item mapping with
  donor-name resolution.

Around the lifecycle the project models the derived views and guards:

- the food list's available items, its option lists and its search, type and
  location filters;
- the volunteer dashboard's three tabs;
- when the task card and the details page offer to accept or complete a task;
- the expiry flags of the card and of the details page;
- the notification provider's state;
- the new-donation form, the registration checks and the sign-in page, with the
  redirect by role.

Files: `wrappers.dfy` (Option, Result), `seqs.dfy` (filter, map,
subsequence, distinct image, first match, descending sort), `text.dfy`
(decimal ids, JavaScript trim, ASCII lower case, substring search,
capitalisation), `common.dfy` (the records of `src/types/index.ts`, routes,
notification messages), then one file per source file of the core.

## Model

| member | source | states |
|---|---|---|
| Common.HomeRoute | src/pages/Login.tsx:39-45 | donors land on "/donations", volunteers on "/tasks" and everyone else on "/food", each route iff the role |
| Common.HomeRouteInjective | src/pages/Register.tsx:44-51 | donors, volunteers and beneficiaries land on three different pages |
| Common.LandingRoute | src/pages/Register.tsx:43-53 | a redirect happens exactly when there is a user, and it goes to that user's role page |
| Text.ParseNatToString | src/data/mockData.ts:297 | a record id `(n).toString()` reads back as `n` |
| Text.NatToStringInjective | src/data/mockData.ts:255 | two counts give the same id string only if they are equal |
| Text.Trim | src/pages/FoodList.tsx:40 | the result has no JavaScript white space at either end and is the input minus white-space padding |
| Text.TrimAddsNothing | src/pages/FoodList.tsx:40 | trimming never introduces a character absent from the input |
| Text.AfterLastComma | src/pages/FoodList.tsx:39-40 | the last comma-separated segment: a comma-free suffix, preceded by a comma unless it is the whole string |
| Text.AfterFinalComma | src/pages/FoodList.tsx:39-40 | in `p + "," + t` with `t` comma-free, the last segment is exactly `t` |
| Text.Lower | src/pages/FoodList.tsx:52-54 | same length, each character lower-cased |
| Text.Capitalize | src/components/TaskCard.tsx:104 | first character upper-cased, the rest unchanged |
| Text.ContainsAt | src/pages/FoodList.tsx:52-54 | `includes` holds iff the term occurs at some position |
| Seqs.FilterMultiset | src/pages/FoodList.tsx:30 | `filter` keeps every kept element as many times as it occurs and drops the others |
| Seqs.DistinctImage | src/pages/FoodList.tsx:33-35 | `Array.from(new Set(xs.map(f)))`: duplicate-free, and holds exactly the images of the elements |
| Seqs.FirstIndex | src/data/mockData.ts:331 | `find`: the first position that satisfies the predicate, or none when no position does |
| Seqs.SortDesc | src/services/supabaseService.ts:348-349 | `order by created_at desc`: sorted by descending key and a permutation of its input |
| MockStore.IdNumberOfIdString | src/data/mockData.ts:315 | the id handed to the n-th record reads back as n |
| MockStore.NextFoodIdIsFresh | src/data/mockData.ts:297 | a numbered array never already holds the id the next push gets |
| MockStore.UpdatePairKeepsPaired | src/data/mockData.ts:330-340 | moving a task and the item it finds to paired statuses keeps the pairing |
| MockStore.AddPairKeepsPaired | src/data/mockData.ts:294-309 | appending a fresh available item with its pending task keeps the pairing |
| MockStore.PairedItemFound | src/data/mockData.ts:337-338 | under the pairing, every task's food item is found |
| MockStore.FoodAvailableNoticesSpec | src/data/mockData.ts:312-325 | one notice per volunteer or beneficiary, in user order, the k-th numbered base + k + 1 |
| MockStore.NoNoticeForDonors | src/data/mockData.ts:313 | no `food_available` notice is addressed to a donor |
| MockStore.NoticesStep | src/data/mockData.ts:312-325 | one turn of the `forEach` appends the user's notice, if any, at the end |
| MockStore.MarkFirstRead | src/data/mockData.ts:287-292 | same length, ids and recipients; a position is read afterwards iff it was read before or is the first one with the id; an unknown id changes nothing |
| MockStore.MarkFirstReadEffect | src/data/mockData.ts:287-292 | only the first notification with that id becomes read, every other position is unchanged, and an unknown id changes nothing |
| MockStore.MarkFirstReadIdempotent | src/data/mockData.ts:287-292 | marking twice is marking once |
| MockStore.SeedUsersNumbered | src/data/mockData.ts:5-51 | the seed users have ids "1".."5" in order |
| MockStore.SeedFoodNumbered | src/data/mockData.ts:54-135 | the seed food items have ids "1".."5" in order |
| MockStore.SeedTasksNumbered | src/data/mockData.ts:138-173 | the seed tasks have ids "1".."5" in order |
| MockStore.SeedNotificationsNumbered | src/data/mockData.ts:176-222 | the seed notifications have ids "1".."5" in order |
| MockStore.NumberedFoodLookup | src/data/mockData.ts:337 | in a numbered array, looking up a record's id finds that record |
| MockStore.SeedPaired | src/data/mockData.ts:54-173 | the seed items and tasks are paired one to one with matching statuses |
| MockStore.DonationStore.constructor | src/data/mockData.ts:5-225 | the store holds the given arrays, nobody signed in, and starts valid |
| MockStore.DonationStore.Login | src/data/mockData.ts:228-236 | signs in the first user with that email, password unchecked; otherwise returns none and changes nothing |
| MockStore.DonationStore.Logout | src/data/mockData.ts:238-240 | nobody is signed in |
| MockStore.DonationStore.Register | src/data/mockData.ts:242-264 | a taken email returns none and changes nothing; otherwise exactly one user numbered one past the last user is appended and signed in |
| MockStore.DonationStore.FoodItemsByStatus | src/data/mockData.ts:267-269 | an order-preserving selection holding exactly the items with that status |
| MockStore.DonationStore.FoodItemsByDonor | src/data/mockData.ts:271-273 | an order-preserving selection holding exactly that donor's items |
| MockStore.DonationStore.TasksByVolunteer | src/data/mockData.ts:275-277 | an order-preserving selection holding exactly the tasks assigned to that volunteer |
| MockStore.DonationStore.NotificationsByUser | src/data/mockData.ts:279-281 | an order-preserving selection holding exactly that user's notifications |
| MockStore.DonationStore.UnreadNotificationCount | src/data/mockData.ts:283-285 | the unread count never exceeds the number of the user's notifications, and is zero iff every one of them is read |
| MockStore.DonationStore.MarkNotificationAsRead | src/data/mockData.ts:287-292 | the array becomes `MarkFirstRead` of the old one, and the store's numbering is kept |
| MockStore.DonationStore.AddFoodItem | src/data/mockData.ts:294-328 | appends exactly one item numbered one past the last item and one pending task on it with no volunteer, then the notices of `FoodAvailableNoticesSpec`; keeps the numbering, and keeps the pairing for an available draft |
| MockStore.DonationStore.NotifyFoodAvailable | src/data/mockData.ts:312-325 | the loop appends exactly `FoodAvailableNotices` for the users and keeps notification numbering |
| MockStore.DonationStore.AcceptTask | src/data/mockData.ts:330-359 | an unknown id returns none and changes nothing; otherwise the first such task gets the volunteer and status accepted whatever its status was, its item becomes assigned and its donor gets one `task_assigned` notice linking to the item, with no notice when the item is missing; keeps numbering and pairing |
| MockStore.DonationStore.CompleteTask | src/data/mockData.ts:361-389 | as `AcceptTask`, with status completed, the volunteer kept, the item completed and a `pickup_scheduled` notice |
| MockStore.DonationStore.AdvancePair | src/data/mockData.ts:331-356 | the shared step: store the updated task, move the item it finds to the paired status and notify that item's donor |
| SupabaseService.MapTask | src/services/supabaseService.ts:192-199 | every column is copied, except that an empty volunteer id reads as absent |
| SupabaseService.MapNotification | src/services/supabaseService.ts:354-364 | every column is copied, except that an empty action link reads as absent |
| SupabaseService.MapFoodRow | src/services/supabaseService.ts:32-47 | the row's columns with the given donor name; a null description becomes "" |
| SupabaseService.DonorIds | src/services/supabaseService.ts:18 | duplicate-free, and holds exactly the donor ids of the rows |
| SupabaseService.DonorMap | src/services/supabaseService.ts:24-29 | keys are exactly the profile ids, each entry comes from a profile row, and the last row with an id wins |
| SupabaseService.ListedDonorName | src/services/supabaseService.ts:44 | the profile name when it is known and non-empty, otherwise "Unknown Donor"; never empty |
| SupabaseService.GetFoodItems | src/services/supabaseService.ts:6-48 | a failed item query is that error; otherwise one item per row in query order, each named after its donor's profile or "Unknown Donor", and all "Unknown Donor" when the profile query failed |
| SupabaseService.ProfilesWithIds | src/services/supabaseService.ts:19-22 | the profile rows whose ids are in the list, with their names |
| SupabaseService.ListedNameFromProfiles | src/services/supabaseService.ts:18-47 | end to end: a listed item's donor name is the donor's profile name when that is non-empty, otherwise "Unknown Donor" |
| SupabaseService.WriteFoodStatus | src/services/supabaseService.ts:247-251 | the update by id changes only that row's status, and a missing row is no error |
| SupabaseService.BothWritesKeepPaired | src/services/supabaseService.ts:231-256 | when both writes of a transition succeed, the pairing is kept |
| SupabaseService.TaskWriteAloneBreaksPaired | src/services/supabaseService.ts:247-256 | the task write without the food write breaks the pairing when the step changes the paired status |
| SupabaseService.MarkRead | src/services/supabaseService.ts:367-371 | every row with that id becomes read, all others are unchanged |
| SupabaseService.MarkReadIdempotent | src/services/supabaseService.ts:367-371 | marking twice is marking once |
| SupabaseService.MarkReadUnknown | src/services/supabaseService.ts:367-371 | marking an id no row has changes nothing |
| SupabaseService.MarkReadEffect | src/services/supabaseService.ts:367-371 | a row is read afterwards iff it was read or has that id; ids and owners are unchanged |
| SupabaseService.Backend.GetFoodItemById | src/services/supabaseService.ts:50-87 | none iff the read fails or no row has the id; otherwise the mapped row named after the donor's profile even when that name is empty, or "Unknown Donor" when no profile is read |
| SupabaseService.Backend.GetNotificationsByUser | src/services/supabaseService.ts:344-365 | a failed query is an error; otherwise exactly that user's rows, mapped, newest first |
| SupabaseService.Backend.MarkNotificationAsRead | src/services/supabaseService.ts:367-377 | a failed write returns the error and changes nothing; otherwise the table becomes `MarkRead` of the old one |
| SupabaseService.Backend.AcceptTask | src/services/supabaseService.ts:224-286 | a failed task write or an unknown task is an error with no change; otherwise the task gets volunteer, status accepted and pickup time whatever its status was, then the food step of `Stepped`; the result is an error exactly when the food write fails; the pairing is kept when the food write succeeds and broken when it fails on a pending task |
| SupabaseService.Backend.CompleteTask | src/services/supabaseService.ts:288-341 | as `AcceptTask`, writing only the status completed |
| SupabaseService.Backend.Advance | src/services/supabaseService.ts:224-286 | the task row is replaced, then the food step; pairing kept on success and broken by a failed food write that changes the paired status |
| SupabaseService.Backend.FinishStep | src/services/supabaseService.ts:247-276 | a failed food write changes nothing more; otherwise the status write, then one notice to the donor if the re-read and insert succeed |
| SupabaseService.SteppedNotifiesOnce | src/services/supabaseService.ts:258-276 | a transition adds at most one notification, and adds one iff the food write, the re-read and the insert all succeed; that notice goes to the item's donor and links to the item |
| FoodList.AvailableFoodItems | src/pages/FoodList.tsx:30 | an order-preserving selection of exactly the available items, or none without data |
| FoodList.LocationKey | src/pages/FoodList.tsx:38-41 | the last comma-separated segment with its white-space padding removed: comma-free, trimmed and no longer than the address; an address without a comma gives the whole trimmed address |
| FoodList.LocationKeyExample | src/pages/FoodList.tsx:38-41 | "12 Oak St, West End" is listed under "West End" |
| FoodList.MatchesSearch | src/pages/FoodList.tsx:51-55 | an item matches iff the lower-cased term occurs in its lower-cased title, description or food type; the empty term matches everything |
| FoodList.FoodTypes | src/pages/FoodList.tsx:33-35 | duplicate-free, and holds exactly the types of all items, not only the available ones |
| FoodList.Locations | src/pages/FoodList.tsx:37-42 | duplicate-free, and holds exactly the location keys of all items |
| FoodList.KeepingSelects | src/pages/FoodList.tsx:47-72 | the filtered list is an order-preserving selection holding exactly the items the three filters keep |
| FoodList.NoFiltersKeepAll | src/pages/FoodList.tsx:50-70 | an empty search term and "all" twice keep every available item |
| FoodList.FoodListPage.constructor | src/pages/FoodList.tsx:18-21 | empty search, "all" type and location, empty list |
| FoodList.FoodListPage.ResetFilters | src/pages/FoodList.tsx:75-81 | clears the three cells, after which no filter is active |
| FoodList.FoodListPage.HasActiveFilters | src/pages/FoodList.tsx:81 | when no filter is active, the three filters keep every item |
| FoodList.FoodListPage.ApplyFilters | src/pages/FoodList.tsx:44-73 | no available items leaves the list unchanged; otherwise applying the three filters in turn gives the single combined filter |
| VolunteerTasks.VolunteerTasksData | src/pages/VolunteerTasks.tsx:32-35 | the volunteer query has data iff the user id is present and non-empty |
| VolunteerTasks.PendingTasks | src/pages/VolunteerTasks.tsx:45 | an order-preserving selection of exactly the pending tasks, or empty without data |
| VolunteerTasks.AcceptedTasks | src/pages/VolunteerTasks.tsx:46 | an order-preserving selection of exactly the volunteer's accepted tasks |
| VolunteerTasks.CompletedTasks | src/pages/VolunteerTasks.tsx:47 | an order-preserving selection of exactly the volunteer's completed tasks |
| VolunteerTasks.VolunteerTabsDisjoint | src/pages/VolunteerTasks.tsx:46-47 | no task is on both tabs, and together they hold at most the volunteer's tasks |
| VolunteerTasks.NoUserEmptyTabs | src/pages/VolunteerTasks.tsx:34-35 | without a usable user id both of the volunteer's tabs are empty |
| VolunteerTasks.Badge | src/pages/VolunteerTasks.tsx:91-115 | a badge is shown iff the list is non-empty, and it shows the list's length |
| TaskCard.OffersAccept | src/components/TaskCard.tsx:72-141 | accept is offered iff the card is loaded, the task is pending and a volunteer is signed in; never together with complete |
| TaskCard.OffersComplete | src/components/TaskCard.tsx:72-158 | complete is offered only on a loaded card for an accepted task whose volunteer is the signed-in user, or has no volunteer when nobody is signed in |
| TaskCard.NoButtonsWhileLoading | src/components/TaskCard.tsx:72-86 | while the food item is loading or missing, neither button is offered |
| TaskCard.AcceptCompleteExclusive | src/components/TaskCard.tsx:141-158 | accept and complete are never offered together, loaded card or not |
| TaskCard.CompleteWithoutUser | src/components/TaskCard.tsx:72-158 | with nobody signed in, complete is offered exactly when the food item is loaded and the task is accepted with no volunteer |
| TaskCard.CompleteOnlyForItsVolunteer | src/components/TaskCard.tsx:72-158 | a signed-in user is offered complete iff the food item is loaded and the task is accepted and names that user |
| TaskCard.ShowsScheduledPickup | src/components/TaskCard.tsx:176 | the pickup line is shown iff the card is loaded and the task has a scheduled pickup time |
| TaskCard.StatusLabel | src/components/TaskCard.tsx:104 | the status name with its first letter upper-cased and the rest unchanged |
| TaskCard.AcceptRequest | src/components/TaskCard.tsx:62-66 | nothing without a user; otherwise (task id, user id) |
| TaskCard.StatusLabels | src/components/TaskCard.tsx:104 | the labels read "Pending", "Accepted", "Completed" |
| FoodCard.CardExpiringSoon | src/components/FoodCard.tsx:22-23 | flagged iff the date is valid and less than three days (259,200,000 ms) ahead, which includes every date already past |
| FoodCard.StatusBadge | src/components/FoodCard.tsx:38 | the status name with its first letter upper-cased and the rest unchanged |
| FoodCard.ExpiredIsFlagged | src/components/FoodCard.tsx:22-23 | an item that has already expired is flagged as expiring soon |
| FoodCard.FarOrInvalidNotFlagged | src/components/FoodCard.tsx:22-23 | an item three days or more away, or with an unparseable date, is not flagged |
| FoodCard.StatusBadges | src/components/FoodCard.tsx:38 | the badges read "Available", "Assigned", "Completed" |
| FoodCard.CardImage | src/components/FoodCard.tsx:29 | a present non-empty image is shown; a missing or empty one falls back to the default picture |
| FoodCard.CardLink | src/components/FoodCard.tsx:86-93 | the card links to `/food/{id}` iff it has no action button |
| FoodDetails.CalculateExpiryStatus | src/pages/FoodDetails.tsx:87-96 | never both flags; expired only for a valid date before now; expiring soon only for one after now and less than three days ahead |
| FoodDetails.ExpiryClassification | src/pages/FoodDetails.tsx:87-96 | expired iff the expiry is before now; expiring soon iff it is after now and less than 259,200,000 ms away |
| FoodDetails.ExpiryFlagsExclusive | src/pages/FoodDetails.tsx:89-93 | the two flags are never both set, and neither is set when the expiry is now |
| FoodDetails.DetailsFlagsFewerThanCard | src/pages/FoodDetails.tsx:87-96 | every item the page calls expired or expiring soon is flagged by the card as well |
| FoodDetails.RelatedTask | src/pages/FoodDetails.tsx:54-61 | none iff the list is absent or empty, otherwise the first task |
| FoodDetails.AcceptRequest | src/pages/FoodDetails.tsx:78-85 | nothing without a user or a related task; otherwise (related task id, user id) |
| FoodDetails.ShowsVolunteerPanel | src/pages/FoodDetails.tsx:341 | the volunteer panel shows iff a volunteer is signed in and the assigned panel does not show |
| FoodDetails.ShowsAssignedPanel | src/pages/FoodDetails.tsx:362 | the assigned panel shows iff the item is no longer available |
| FoodDetails.PanelsExclusive | src/pages/FoodDetails.tsx:341-362 | at most one of the two panels is shown, and for a volunteer exactly one |
| NotificationContext.UnreadCount | src/context/NotificationContext.tsx:33 | at most the number of notifications, and zero iff every one is read |
| NotificationContext.UnreadCountEmpty | src/context/NotificationContext.tsx:33 | no notifications, nothing unread |
| NotificationContext.UnreadCountSnoc | src/context/NotificationContext.tsx:33 | one more notification adds one exactly when it is unread; with the empty case this fixes the count |
| NotificationContext.NotificationProvider.constructor | src/context/NotificationContext.tsx:18-20 | no notifications, count 0, not loading |
| NotificationContext.NotificationProvider.FetchNotifications | src/context/NotificationContext.tsx:22-39 | without a user everything is cleared and nothing is fetched; otherwise a successful fetch replaces the list, a failed one keeps list and count, and loading ends either way; the count always equals the unread notifications held |
| NotificationContext.NotificationProvider.MarkAsRead | src/context/NotificationContext.tsx:49-56 | a failed mark changes nothing and skips the refetch; otherwise the backend marks the id, then with nobody signed in the list and count are cleared, and with a user the refetched list replaces the old one, or a failed refetch keeps the old list and count |
| NewDonation.InitialForm | src/pages/NewDonation.tsx:19-29 | every required field and the image start empty |
| NewDonation.MissingFields | src/pages/NewDonation.tsx:52-57 | exactly the required fields that are missing or empty, in declaration order |
| NewDonation.DraftOf | src/pages/NewDonation.tsx:72-76 | each of the eight form fields copied unchanged, with status available and the user as donor |
| NewDonation.SubmissionOf | src/pages/NewDonation.tsx:52-79 | refused iff some required field is empty; an error without a user; otherwise the draft of the form |
| NewDonation.ImageNotRequired | src/pages/NewDonation.tsx:52-55 | changing the image never decides whether the form is submitted |
| NewDonation.NewDonationPage.constructor | src/pages/NewDonation.tsx:19-31 | the initial form, not submitting |
| NewDonation.NewDonationPage.SetField | src/pages/NewDonation.tsx:33-46 | exactly the named field takes the value |
| NewDonation.NewDonationPage.HandleSubmit | src/pages/NewDonation.tsx:48-89 | a refused form changes nothing and submits nothing; otherwise submitting ends, the draft is submitted only with a user, and a successful add goes to the new item's page |
| Register.Validate | src/pages/Register.tsx:60-78 | the first failing check in the order fields, match, length, terms, each stated as an iff; none iff all pass |
| Register.SixCharactersSuffice | src/pages/Register.tsx:70 | a six-character password passes the length check |
| Register.RoleParam | src/pages/Register.tsx:34-39 | only "donor" and "volunteer" are adopted; never beneficiary |
| Register.RegisterPage.constructor | src/pages/Register.tsx:21-28 | empty fields, role donor, terms not agreed, no error |
| Register.RegisterPage.ApplyRoleParam | src/pages/Register.tsx:33-40 | the role becomes the adopted parameter, otherwise stays |
| Register.RegisterPage.HandleSubmit | src/pages/Register.tsx:55-100 | the error becomes the first failing check; sign-up runs iff every check passes, and then redirects the new user by role |
| Login.LoginPage.constructor | src/pages/Login.tsx:18-20 | empty email and password, not submitting |
| Login.LoginPage.HandleSubmit | src/pages/Login.tsx:23-52 | sign-in runs iff email and password are non-empty; no user means no redirect, otherwise the redirect by role |
| Login.LoginPage.HandleDemoLogin | src/pages/Login.tsx:60-76 | fills in the demo email and the password "password", always signs in with them, and redirects by role |

## Left out

- Network and authentication: the data-store client and the authentication provider are not modelled. The tables are maps in `Backend`. A failing call is a flag in `Faults`. Sign-in and sign-up are function parameters of the pages.
- Date and time: formatting and parsing (`toISOString`, `toLocaleTimeString`, `convertTimeToISO`, `formatDistanceToNow`) are not modelled. Timestamps are integer milliseconds. An expiry date that does not parse is `None`. "Now" and "tomorrow" are parameters, as is the id the backend gives a new notification.
- Timers and asynchronous coordination: the 30-second notification polling, the delay after sign-up, query caching and invalidation, and the pending flags of mutations are left out. They change when state is refreshed, not what it becomes.
- Data-store operations outside the lifecycle: adding a food item through the service, listing by donor, the task queries and the recent-donor and active-volunteer views. These are single inserts or selects with no logic of their own.
- Both `acceptTask`s and both `completeTask`s have no status check. The code does not check that a task is pending before it is accepted, so the model does not either: accepting a completed task sets it back to accepted and its item back to assigned.
- Service `addFoodItem`: the service version creates no task with the item. The non-atomic writes are modelled as the code performs them.
- `read` on a notification inserted through the service takes the table's default, modelled as false.
- Notification text is the `Message` datatype, one constructor per message template, not the rendered string.
- Case mapping is ASCII only: `toLowerCase` and `toUpperCase` leave characters outside A–Z unchanged. A password's length is counted in characters, not UTF-16 code units.
- SupabaseService.Backend.GetNotificationsByUser: the order among notifications with equal timestamps is the one `SortDesc` fixes; the data store may return another.
- MockStore.DonationStore.AddFoodItem: the pairing is preserved only when the draft's status is available. The store accepts any status, and another status would break the pairing.
- MockStore.DonationStore.constructor: takes the four arrays as parameters rather than being the module's seed literals. The `Seed…` functions are those literals, and `SeedPaired` and the `Seed…Numbered` lemmas show that they meet the requirements.
- MockStore.DonationStore.UnreadNotificationCount: states the bound against the user's notification count and when the count is zero, not the count itself.
- Donor names: an empty profile name falls back to "Unknown Donor" in the list (`GetFoodItems`) but is kept on the details lookup (`GetFoodItemById`). The model follows the code in both.
- Rendering: JSX, styling, animation and toasts are not modelled, nor are the purely presentational pages.
