# tgc-backend: calls, subscribers and their rules, in Dafny

This project models the core of the tgc-backend trading-calls service. Administrators publish
*calls*: commodity price recommendations, each with an ordered list of target prices, a stop loss,
a trading day and a lifecycle status. Subscribers read today's calls and the call history. The
target list each subscriber sees is cut down to what their plan allows. Administrators also manage
subscriber accounts and their subscriptions.

The model covers:

- **Trading-day normalisation** (`Calendar`). Every date is pinned to the India Standard Time
  calendar (a fixed +05:30 offset over epoch milliseconds). An instant maps to the IST midnight
  of the day that holds it. A `YYYY-MM-DD` string maps to the IST midnight of that calendar date,
  computed with a proleptic Gregorian day count.
- **The call aggregate and its status machine** (`Calls`). Toggling a target's achieved flag
  recomputes the status from the number of achieved targets.
- **Visibility** (`Visibility`). This is the per-subscriber limit on visible targets. Targets are
  put in a stable order by their `order` field, then cut with JavaScript `slice(0, n)`.
- **Filters, statistics and the call controller** (`CallQueries`, `CallStats`,
  `CallController.CallStore`). The call collection is held in memory, and the controller methods
  update it in place.
- **The admin user controller** (`AdminUsers.UserStore`). It covers the user-list filter, manual
  activation, creation and update (including the replace and extend arithmetic for end dates),
  and deletion together with the user's payments.
- **The `maxTargetsVisible` migration** (`FixMaxTargets`). It runs three ordered passes over an
  array of users, updated in place.
- **The CORS origin decision** of the HTTP application (`Cors`).
- **The request schemas** (`UserValidator`, `AdminValidator`, over the JSON field model in
  `JsonFields`). Each schema is a function that rejects a body, or accepts it and returns it with
  the schema's defaults filled in. The schemas are modelled on their own: the routes wire only
  `createAdminUserSchema` (to user creation), and the user-validator schemas to no route in
  `src/routes/admin-routes.js`. The create and update user schemas return the body types that
  the user store's methods take.

Time is a parameter (`now`, epoch milliseconds). New record ids are parameters as well.

## Model

| member | source | states |
|---|---|---|
| Calendar.IstTimeOfDay | src/controllers/call-controller.js:34 | The IST wall-clock offset into the day of any instant is in [0, 24h). |
| Calendar.StartOfInstantDay | src/controllers/call-controller.js:223 | The IST start of day of an instant is an IST midnight, at or before the instant, and less than a day before it. |
| Calendar.StartOfDay | src/controllers/call-controller.js:34 | Normalising a date input always yields an IST midnight. For an instant it is the midnight of the IST day that contains the instant. |
| Calendar.EndOfDay | src/controllers/call-controller.js:79 | End of day is the last millisecond before the next IST midnight. |
| Calendar.DaysInMonth | src/controllers/call-controller.js:34 | A Gregorian month has 28 to 31 days. |
| Calendar.DivStep | src/controllers/call-controller.js:34 | The leap-day counters floor(x/4), floor(x/100) and floor(x/400) grow by one exactly when x+1 is a multiple. |
| Calendar.DivUnique | src/controllers/call-controller.js:34 | Quotient and remainder by 4, 100 or 400 are unique. |
| Calendar.DaysBeforeMarchYearClosedForm | src/controllers/call-controller.js:34 | The day count of March-based years has the closed form 365y + y/4 - y/100 + y/400. |
| Calendar.MarchYearLength | src/controllers/call-controller.js:34 | A March-based year has 366 days exactly when the following calendar year is a leap year. |
| Calendar.NextDateIsNextDay | src/controllers/call-controller.js:34 | The day number of the next calendar date is one more, across month and year ends and 29 February, so calendar days map to consecutive midnights. |
| Calendar.MidnightIsUniqueStart | src/controllers/call-controller.js:34 | An instant has exactly one IST midnight at or less than a day before it. |
| Calendar.MidnightsAreWholeDaysApart | src/controllers/call-controller.js:223 | Two IST midnights less than a day apart in one direction are ordered. |
| Calendar.StartOfDayMonotone | src/controllers/call-controller.js:223 | Normalisation preserves the order of instants. |
| Calendar.StartOfDayIdempotent | src/controllers/call-controller.js:134-136 | Normalising an already normalised day changes nothing, so re-saving a stored date keeps it. |
| Calendar.EndOfDaySameDay | src/controllers/call-controller.js:76-79 | The end of day lies in the same IST day as its start. |
| Calendar.CalendarDayCoversItsInstants | src/controllers/call-controller.js:34 | Every instant of an IST calendar day normalises to that day's midnight. |
| Calendar.DaysAgo | src/controllers/call-controller.js:278 | Going back n days and then normalising equals normalising and then going back n whole days. |
| Calendar.ParseIsoDate | src/controllers/call-controller.js:34 | A string is read iff it has the `YYYY-MM-DD` shape and names a date that exists. A string that is read is exactly the text of the date it reads as. A month or day out of range is an invalid date and is not read. |
| Calendar.FormatIsoDate | src/controllers/call-controller.js:34 | The formatted date is ten characters long with dashes at positions 4 and 7. |
| Calendar.ParseFormatRoundTrip | src/controllers/call-controller.js:34 | Formatting an existing date with a four-digit year and reading it back gives the same date. |
| Calendar.OutOfRangeDatesNotRead | src/controllers/call-controller.js:34 | "2026-13-45" and "2026-02-30" are invalid dates and are not read. |
| Calendar.IsoDateExample | src/controllers/call-controller.js:34 | "2026-02-06" reads as the calendar date 6 February 2026. |
| Calendar.IstMidnightExample | scripts/fix-call-dates.js:9-10 | 6 February 2026 normalises to 2026-02-05T18:30:00Z (1770316200000 ms), and 1 January 1970 to -05:30. |
| Calls.AchievedCount | src/controllers/call-controller.js:196-197 | The achieved count is at most the number of targets. It is 0 exactly when none is achieved and equals the count exactly when all are. |
| Calls.RecomputeStatus | src/controllers/call-controller.js:196-205 | Status is `active` iff none achieved, `partial_hit` iff some but not all, `all_hit` iff all. Recomputation never yields `hit_stoploss` or `expired`. |
| Calls.FindTarget | src/controllers/call-controller.js:188-191 | The first target with the given id, or none exactly when no target has it. |
| Calls.ToggledCall | src/controllers/call-controller.js:193-205 | Only the flag of the chosen target changes. Every other target and every call field except `status` is kept, and the new status agrees with the targets. |
| Calls.LocateTarget | src/controllers/call-controller.js:188 | The scan finds the first target with the id, or reports none exactly when no target has it. |
| Calls.CountAchieved | src/controllers/call-controller.js:196-197 | The one-pass count equals the achieved count. It is 0 iff none is achieved and the full length iff all are. |
| Calls.SetTargetAchieved | src/controllers/call-controller.js:188-205 | Unknown target id gives NotFound. Otherwise the result is the toggled call. |
| Calls.ToggleIdempotent | src/controllers/call-controller.js:193-205 | Toggling the same target to the same value twice equals toggling once. |
| Calls.RecomputeIdempotent | src/controllers/call-controller.js:196-205 | Recomputing the status on an unchanged target list yields the same status. |
| Calls.ToggleOverridesTerminalStatus | src/controllers/call-controller.js:199-205 | A toggle on a `hit_stoploss` or `expired` call always replaces that status. |
| Calls.ApplyToggle | src/controllers/call-controller.js:182-205 | A request for an unknown target leaves the call as it is. A request for a known target leaves the status consistent. |
| Calls.TogglesKeepStatusConsistent | src/controllers/call-controller.js:196-205 | After any run of toggles on a consistent call, or one in which some request hits a target, the status agrees with the targets. |
| Calls.ThreeTargetScenario | src/controllers/call-controller.js:196-205 | Three unachieved targets give `active`. Achieving the second gives `partial_hit`, and achieving all three gives `all_hit`. |
| Visibility.VisibleLimit | src/controllers/call-controller.js:244 | A truthy `maxTargetsVisible` is the limit. Otherwise the limit is 2 for `Regular` and 6 for any other or no tier. It is never 0. |
| Visibility.WithOrder | src/controllers/call-controller.js:249 | Picking the targets of one `order` key never yields more targets than the list has. |
| Visibility.WithOrderAppend | src/controllers/call-controller.js:249 | Picking the targets of one key distributes over concatenation. |
| Visibility.WithOrderAbsent | src/controllers/call-controller.js:249 | A key no target has picks nothing. |
| Visibility.InsertByOrder | src/controllers/call-controller.js:249 | Insertion adds exactly the new target. |
| Visibility.InsertKeepsSorted | src/controllers/call-controller.js:249 | Insertion keeps the list sorted by `order` (missing order is 0). |
| Visibility.SortByOrder | src/controllers/call-controller.js:248-249 | The result is sorted by `order` and is a permutation of the targets. |
| Visibility.InsertKeepsEqualKeysInOrder | src/controllers/call-controller.js:249 | Insertion places the new target after the targets that have its key. |
| Visibility.SortIsStable | src/controllers/call-controller.js:249 | The sort is stable: targets with equal keys keep their relative order. |
| Visibility.SortOfSortedIsIdentity | src/controllers/call-controller.js:249 | Sorting an already ordered list changes nothing. |
| Visibility.InsertAtEnd | src/controllers/call-controller.js:249 | A target whose key is at least every other key goes last. |
| Visibility.SliceTo | src/controllers/call-controller.js:250 | `slice(0, n)` gives a prefix of length min(n, len) for n >= 0 and drops -n elements from the end for n < 0. |
| Visibility.ProjectTargets | src/controllers/call-controller.js:246-251 | The visible targets are a sorted prefix of the stable sort and a sub-multiset of the targets. For a positive limit there are exactly min(limit, count) of them, and all targets when count <= limit. |
| Visibility.ProjectCall | src/controllers/call-controller.js:246-251 | Projection only shortens the target list. Every other field is kept. |
| Visibility.ProjectCalls | src/controllers/call-controller.js:246 | Each call of the list is projected, in place and in order. |
| Visibility.ProjectionKeepsOrderWithinKeys | src/controllers/call-controller.js:248-250 | Among targets with equal `order`, the visible ones are the first of them in insertion order. |
| Visibility.NegativeLimitDropsFromEnd | src/controllers/call-controller.js:250 | A negative stored limit hides that many targets from the end (JavaScript slice). |
| Visibility.SixTargetScenario | src/controllers/call-controller.js:244-251 | Six targets ordered 1..6: a Regular subscriber sees the first two, a Premium subscriber sees all six. |
| CallQueries.Select | src/controllers/call-controller.js:88-95 | A call is selected exactly when it is stored and matches the filter. |
| CallQueries.BuildAdminFilter | src/controllers/call-controller.js:55-85 | Each truthy query key adds an equality. Start and end dates become an IST start-of-day and end-of-day range. A call matches iff all added conditions hold. Sort field defaults to `date`, and the order is ascending only for `asc`. |
| CallQueries.BuildTodayFilter | src/controllers/call-controller.js:223-237 | Today's filter keeps the calls dated at or after today's IST midnight, with an optional trade type. |
| CallQueries.HistoryRange | src/controllers/call-controller.js:277-283 | The history window runs from the start of the given day (default: seven days before today) to the end of the given day (default: end of today). |
| CallQueries.BuildHistoryFilter | src/controllers/call-controller.js:268-283 | A call matches iff commodity and trade type agree when given and its date lies in the history window. |
| CallQueries.DefaultHistoryWindow | src/controllers/call-controller.js:278-282 | With no dates given, a stored trading day is in the window iff it is today or one of the seven days before. |
| CallQueries.TodayListIsTodayOrLater | src/controllers/call-controller.js:231-233 | A call dated at or after today's midnight is exactly a call whose trading day is today or later. |
| CallStats.CountStatus | src/controllers/call-controller.js:320-335 | A status count never exceeds the number of calls. It is 0 iff no call has the status, and the number of calls iff every call has it. |
| CallStats.StatsOf | src/controllers/call-controller.js:316-347 | Each counter counts its statuses, and an empty collection gives all zeros. all-hit <= hit-target <= total, and hit-target + stop-loss + active + expired = total. |
| CallStats.Accuracy | src/controllers/call-controller.js:349-353 | Accuracy lies in [0, 100]. It is 0 when nothing is completed, otherwise hit / (hit + stop-loss) * 100 exactly, and 100 when nothing hit the stop loss. |
| CallStats.TenCallScenario | src/controllers/call-controller.js:349-353 | 4 all-hit, 2 partial and 1 stop-loss calls give 6 hits and an accuracy of 600/7, about 85.71. |
| CallStats.OfCommodity | src/controllers/call-controller.js:372 | The group of a commodity holds exactly its calls. |
| CallStats.InsertName | src/controllers/call-controller.js:403 | Inserting a commodity name adds exactly that name. |
| CallStats.InsertNameAscending | src/controllers/call-controller.js:403 | Insertion keeps the names strictly ascending. |
| CallStats.Commodities | src/controllers/call-controller.js:372-403 | The group keys are the distinct commodities of the calls, strictly ascending. |
| CallStats.CommodityRow | src/controllers/call-controller.js:383-402 | A row counts its commodity's calls, hits and stop losses. Its accuracy is `Accuracy` of those hits and stop losses: hits times 100 over decided calls, 0 when none is decided, in [0, 100]. |
| CallStats.StatsByCommodity | src/controllers/call-controller.js:368-404 | One non-empty row per distinct commodity, in ascending commodity order. |
| CallStats.StatsByCommodityRows | src/controllers/call-controller.js:368-404 | Rows are strictly ordered by commodity, and a commodity has a row iff some call has it. |
| Text.DigitsValue | src/validators/admin-validator.js:5 | A string of k digits denotes a number below 10^k. |
| Text.Pow10 | src/validators/admin-validator.js:5 | Powers of ten are positive. |
| Text.PadDigits | src/validators/admin-validator.js:5 | Zero padding yields exactly `width` digits. |
| Text.PadDigitsValue | src/validators/admin-validator.js:5 | Padding a number that fits in `width` digits and reading it back gives the number. |
| Text.PadDigitsOfValue | src/controllers/call-controller.js:34 | Reading a digit string and padding its value back to the same width gives the string. |
| Text.LessIrreflexive | src/controllers/call-controller.js:403 | The commodity order is irreflexive. |
| Text.LessTransitive | src/controllers/call-controller.js:403 | The commodity order is transitive. |
| Text.LessTotal | src/controllers/call-controller.js:403 | Any two different names are ordered one way or the other. |
| CallController.Patched | src/controllers/call-controller.js:129-138 | An update keeps id and author. A truthy new date is normalised to its IST midnight. The date 0 is falsy, so it is stored as the instant 0, which is not an IST midnight. The status is kept unless one is sent, and an empty update changes nothing. |
| CallController.FindCall | src/controllers/call-controller.js:182-185 | The position of the call with the id, or none exactly when no call has it. |
| CallController.CallStore.constructor | src/controllers/call-controller.js:26 | An empty collection. |
| CallController.CallStore.CreateCall | src/controllers/call-controller.js:10-44 | A date that does not exist is refused and nothing is stored. Otherwise the new call is appended with commodity, custom commodity, type, entry price, targets, stop loss and analysis taken from the body, its day normalised (today in IST when no date is sent), status `status` or `active`, trade type `tradeType` or `intraday`, and the admin as author. |
| CallController.CallStore.GetCallById | src/controllers/call-controller.js:108-123 | The first stored call with the id, or NotFound exactly when none has it. |
| CallController.CallStore.UpdateCall | src/controllers/call-controller.js:129-153 | A date that does not exist is refused, and an unknown id gives NotFound; in both cases nothing changes. Otherwise the stored call is replaced by the patched one, and ids stay unique. |
| CallController.CallStore.DeleteCall | src/controllers/call-controller.js:159-172 | Unknown id gives NotFound and nothing changes. Otherwise exactly that call is removed. |
| CallController.CallStore.UpdateTargetStatus | src/controllers/call-controller.js:178-213 | An unknown call or target id gives NotFound and nothing is saved. Otherwise the stored call is replaced by the toggled call, whose status agrees with its targets. |
| CallController.CallStore.GetAllCalls | src/controllers/call-controller.js:50-102 | The calls returned are exactly the stored calls that satisfy every truthy query condition and the IST day range. |
| CallController.CallStore.GetTodayCalls | src/controllers/call-controller.js:219-258 | Exactly the projections of the stored calls dated today or later (of the trade type, if given), each within the visible limit. |
| CallController.CallStore.GetCallHistory | src/controllers/call-controller.js:264-309 | Exactly the projections of the stored calls in the history window that match commodity and trade type. |
| CallController.CallStore.GetCallStats | src/controllers/call-controller.js:315-362 | Every counter is the number of stored calls with its status (hits are partial and full hits together). The accuracy is `Accuracy` of the hits and stop losses: hits times 100 over decided calls, 0 when none is decided. |
| CallController.CallStore.GetStatsByCommodity | src/controllers/call-controller.js:368-410 | One row per distinct commodity in ascending order, each the row of that commodity. |
| AdminUsers.NullIfEmpty | src/controllers/admin-user-controller.js:225-232 | The empty-or-null fallback: a non-empty given string is kept. An empty string or null becomes null. |
| AdminUsers.BuildUserFilter | src/controllers/admin-user-controller.js:15-34 | A search sets the text `$or`. 'active' adds the enabled-and-not-ended conditions. 'inactive' replaces the `$or`, dropping the search. |
| AdminUsers.ActiveListMeaning | src/controllers/admin-user-controller.js:26-28 | The 'active' filter keeps exactly the enabled subscriptions whose end date is after now. |
| AdminUsers.UnlimitedUserInNeitherList | src/controllers/admin-user-controller.js:26-33 | As written, an unlimited subscription (enabled, null end date) is in neither the 'active' nor the 'inactive' list. |
| AdminUsers.BuildUserFilterCorrected | src/controllers/admin-user-controller.js:26-33 | 'active' and 'inactive' select the two status lists. Any other value selects no status condition. |
| AdminUsers.StatusListsPartitionUsers | src/controllers/admin-user-controller.js:26-33 | With the correction every user is in exactly one of the two lists, and unlimited users are active. |
| AdminUsers.DurationDays | src/controllers/admin-user-controller.js:138 | One day for `daily`, seven for anything else. |
| AdminUsers.ActivatedSubscription | src/controllers/admin-user-controller.js:138-147 | Activation starts now and ends one day (daily) or seven days later, enabled and not unlimited. |
| AdminUsers.NewEndDate | src/controllers/admin-user-controller.js:253-263 | In extend mode (flag set, enabled, end date recorded) the days are added to the later of the current end and now. Otherwise they count from now. Either way the result is at least now plus the days. |
| AdminUsers.CreatedSubscription | src/controllers/admin-user-controller.js:181-191 | No subscription without truthy `accessDays` or `isUnlimited`. Unlimited means a null end date. Otherwise the end is now + accessDays days, plan `custom`, starting now. |
| AdminUsers.UpdatedSubscription | src/controllers/admin-user-controller.js:239-273 | Unchanged unless `accessDays` or `isUnlimited` is sent. Unlimited: null end, start kept only if the subscription was enabled. Truthy days: the replace or extend end date, start kept only when extending from a recorded start. |
| AdminUsers.UpdatedEndNotBeforeNow | src/controllers/admin-user-controller.js:252-263 | A limited update with non-negative days never ends before now. |
| AdminUsers.ExtendNeverShortens | src/controllers/admin-user-controller.js:255-259 | Extending an enabled subscription never moves its end date earlier. |
| AdminUsers.FindUser | src/controllers/admin-user-controller.js:59-63 | The position of the user with the id, or none exactly when no user has it. |
| AdminUsers.PaymentsOf | src/controllers/admin-user-controller.js:111 | Exactly the payments referencing the user. |
| AdminUsers.PaymentsNotOf | src/controllers/admin-user-controller.js:299 | Exactly the payments not referencing the user. |
| AdminUsers.SelectUsers | src/controllers/admin-user-controller.js:38 | Exactly the stored users that the filter matches. |
| AdminUsers.SelectUsersCorrected | src/controllers/admin-user-controller.js:38 | Exactly the stored users matching the search and the corrected status list. |
| AdminUsers.UserStore.constructor | src/controllers/admin-user-controller.js:193 | An empty store. |
| AdminUsers.UserStore.GetAllUsers | src/controllers/admin-user-controller.js:10-50 | 'inactive' lists exactly the users whose subscription is disabled or has an end date at or before now, ignoring the search. Otherwise a user is listed iff the search (when sent) hits, and for 'active' the subscription is enabled with an end date after now. An enabled subscription with a null end date is in neither list. |
| AdminUsers.UserStore.GetAllUsersCorrected | src/controllers/admin-user-controller.js:26-33 | The corrected lists: 'inactive' lists exactly the users whose subscription is not on, ignoring the search. Otherwise a user is listed iff the search (when sent) hits, and for 'active' the subscription is on (unlimited ones included). |
| AdminUsers.UserStore.GetUserById | src/controllers/admin-user-controller.js:56-69 | The first stored user with the id, or NotFound exactly when none has it. |
| AdminUsers.UserStore.UpdateUserStatus | src/controllers/admin-user-controller.js:75-93 | Unknown id gives NotFound and nothing changes. Otherwise only that user's `isActive` is set. |
| AdminUsers.UserStore.GetUserPayments | src/controllers/admin-user-controller.js:99-123 | Unknown user gives NotFound. Otherwise exactly that user's payments. |
| AdminUsers.UserStore.ActivateSubscription | src/controllers/admin-user-controller.js:129-156 | Unknown id gives NotFound and nothing changes. Otherwise only that user's subscription is replaced by the daily or weekly activation. |
| AdminUsers.UserStore.CreateUser | src/controllers/admin-user-controller.js:162-200 | A taken mobile gives Conflict and nothing is stored. Otherwise the new user is appended with `isActive` defaulting to true, non-empty name and city only, and the created subscription. Mobile numbers stay unique. |
| AdminUsers.UserStore.UpdateUser | src/controllers/admin-user-controller.js:206-282 | Unknown id gives NotFound. A new mobile that is already taken gives Conflict and nothing is saved. These are the only failures. Otherwise the update succeeds, and each sent field is overwritten (`null` for empty name or city, `isActive` only if boolean), and the subscription becomes the updated one. Ids and mobiles stay unique. |
| AdminUsers.UserStore.DeleteUser | src/controllers/admin-user-controller.js:288-305 | Unknown id gives NotFound and nothing changes. Otherwise the user and exactly the payments referencing it are removed. |
| FixMaxTargets.Step | scripts/fix-max-targets.js:15-38 | One pass changes at most `maxTargetsVisible`. |
| FixMaxTargets.UpdateMany | scripts/fix-max-targets.js:15-38 | Every user of the array goes through the pass, in place. |
| FixMaxTargets.MigrateMaxTargets | scripts/fix-max-targets.js:9-47 | Each user ends as the three passes, in order, make it. |
| FixMaxTargets.NoLegacyValueRemains | scripts/fix-max-targets.js:15-18 | After the run no user has 99. |
| FixMaxTargets.PremiumTiersCapped | scripts/fix-max-targets.js:22-28 | Premium and International users end at most at 6. |
| FixMaxTargets.RegularCapped | scripts/fix-max-targets.js:15-38 | Regular users end at most at 2, and a Regular user at 99 ends at 2. |
| FixMaxTargets.UntieredUsers | scripts/fix-max-targets.js:15-28 | A user with no tier at 99 ends at 6. Any other value of such a user is kept. |
| FixMaxTargets.OnlyMaxTargetsChanges | scripts/fix-max-targets.js:15-38 | `planTier` and every other field are never changed. A value within its tier's cap, and not 99, is kept. |
| FixMaxTargets.MigrationIdempotent | scripts/fix-max-targets.js:15-38 | A second run changes nothing. |
| Cors.CorsAllows | app.js:26-50 | A request with no origin (or an empty one) is allowed. |
| Cors.ListedOriginAllowed | app.js:30-36 | An origin equal to one of the five allow-list entries is allowed in any environment. |
| Cors.OutsideDevelopmentOnlyListed | app.js:39-48 | Outside development an origin is allowed iff it is in the allow-list. |
| Cors.DevelopmentAllowsLocalNetwork | app.js:38-44 | In development every origin starting with `http://192.168.`, `http://10.` or `http://172.` is allowed. |
| Cors.HttpsIsNotLocalNetwork | app.js:40-42 | The prefix test is textual: an `https://` origin never qualifies as a local network origin. |
| Cors.ExampleDecisions | app.js:26-50 | Concrete decisions for listed, local, `https` and configured origins in production and development. |
| UserValidator.HexRunLength | src/validators/user-validator.js:6 | The hex run at the front is no longer than the string. |
| UserValidator.HexRunCoversAll | src/validators/user-validator.js:6 | The run covers the whole string iff every character is a hex digit. |
| UserValidator.ObjectIdMeaning | src/validators/user-validator.js:6-15 | An id is accepted iff it has exactly 24 characters, all in [0-9a-fA-F]. |
| UserValidator.ValidatePagination | src/validators/user-validator.js:20-26 | Accepted queries have an integer page >= 1, an integer limit in [1, 100] and an allowed sort field and order. Defaults are 1, 10, `createdAt`, `desc`. Given numbers are kept. Fractional pages and searches over 100 characters are refused. |
| UserValidator.PaginationAcceptsInRange | src/validators/user-validator.js:20-26 | Every in-range query is accepted and read back unchanged. |
| UserValidator.PaginationDefaults | src/validators/user-validator.js:20-26 | The empty query means page 1 of 10, newest first. |
| UserValidator.PaginationRejectsOutOfRange | src/validators/user-validator.js:21-22 | Page 0 and limit 101 are refused. |
| UserValidator.ValidateUserFilterQuery | src/validators/user-validator.js:71-80 | Accepted queries have page and limit in range, boolean flags, a known plan and an allowed sort field (defaulting to `createdAt`). |
| UserValidator.ValidateUserStatus | src/validators/user-validator.js:40-45 | Accepted iff `isActive` is a boolean, which is returned. |
| UserValidator.ValidateActivation | src/validators/user-validator.js:50-66 | The plan is required and is `daily` or `weekly`. `durationDays`, when sent, is an integer in [1, 365]. |
| UserValidator.ActivationAcceptsPlans | src/validators/user-validator.js:50-66 | Both plans are accepted with or without an in-range duration. Duration 366 and plan `monthly` are refused. |
| UserValidator.ValidateCreateUser | src/validators/user-validator.js:85-113 | The mobile is required and non-empty. `accessDays` is an integer in [1, 3650]. `isUnlimited` with `accessDays` is refused. Name and city have at most 100 characters. `isActive` defaults to true and `isUnlimited` to false. |
| UserValidator.CreateUserMinimalBody | src/validators/user-validator.js:85-113 | A body with only a mobile is accepted, with both defaults. |
| UserValidator.CreateUserConflict | src/validators/user-validator.js:107-109 | `isUnlimited: true` with any `accessDays` is refused. |
| UserValidator.CreateUserAccessDaysRange | src/validators/user-validator.js:97 | 0, 3651 and 1.5 access days are refused. |
| UserValidator.SentKeys | src/validators/user-validator.js:137 | No key is sent exactly for the empty body. |
| UserValidator.ValidateUpdateUserAsWritten | src/validators/user-validator.js:118-139 | As written, the `min(1)` rule never refuses: a body is accepted iff each sent key is valid, and `extendSubscription` is always filled in. |
| UserValidator.EmptyUpdateAcceptedAsWritten | src/validators/user-validator.js:134-137 | As written, the empty body is accepted. |
| UserValidator.ValidateUpdateUser | src/validators/user-validator.js:118-139 | An accepted update sends at least one key. A sent mobile is non-empty, access days are in [1, 3650], and name and city have at most 100 characters. |
| UserValidator.UpdateCorrectionOnlyRejectsEmpty | src/validators/user-validator.js:137-139 | The corrected schema differs from the written one only on the empty body, which it refuses. |
| UserValidator.UpdateNameOnly | src/validators/user-validator.js:119-121 | A name-only update is accepted and carries exactly that change. |
| AdminValidator.AccessDurationOf | src/validators/admin-validator.js:11-14 | A duration is `unlimited` only for that word, and a number of days is at least 1. |
| AdminValidator.TierOf | src/validators/admin-validator.js:15 | Each tier name maps to its tier. |
| AdminValidator.ValidateCreateAdminUser | src/validators/admin-validator.js:3-16 | Accepted bodies have a non-empty name, a ten-digit mobile and a password of at least 6 characters. A plan id, when sent, is non-empty. Duration and tier are present iff sent. |
| AdminValidator.EveryTenDigitNumberAccepted | src/validators/admin-validator.js:5 | Every ten-digit number, zero padded, is an accepted mobile, and its digits read back as the number. |
| AdminValidator.MobileMustBeTenDigits | src/validators/admin-validator.js:5 | Any other length, or a non-digit, is refused. |
| AdminValidator.AccessDurationChoices | src/validators/admin-validator.js:11-14 | An accepted duration is absent, `unlimited`, or a number of at least 1. |
| AdminValidator.PlanTierChoices | src/validators/admin-validator.js:15 | An accepted tier is one of `Regular`, `Premium`, `International` and is read back as that tier. |

## Left out

- MongoDB and Mongoose.
  - Queries, `sort`/`skip`/`limit`, `populate` and `select` are not modelled. So are pagination
    and the response shapes.
  - The listing methods return the selected records in stored order, before sorting and paging.
  - The aggregation engine is modelled as a fold over the collection.
  - The `User`, `Call` and `Payment` models, with their schema defaults, enums and validators
    (`runValidators`), are not part of this model. Record ids are parameters.
- The tz database of `moment-timezone` and general date parsing are not modelled.
  - IST is a fixed +05:30 offset.
  - A date input is an instant or a `YYYY-MM-DD` calendar date. Other strings that `moment` would
    parse, and a `null` date, are not modelled.
  - A calendar date that does not exist is an invalid date in the source. Creating or updating a
    call with one fails the cast to `Date`, and the model refuses it with `InvalidDate`. The
    query dates of `getAllCalls` and `getCallHistory` fail the same way in the source. The model
    does not model that failure: it normalises such a date arithmetically.
  - The current time is the parameter `now`.
- Floating point. `toFixed(2)` and `parseFloat` in `getCallStats` are left out. Accuracy is the
  exact rational value, and prices are reals.
- `CallController.CallStore.CreateCall`: the status is taken from the request (`status || 'active'`)
  and is not recomputed from the targets, as in the source. A call can therefore be created with a
  status that disagrees with its targets.
- `CallController.CallStore.UpdateTargetStatus`: the `isAcheived` flag is taken as an already-cast
  boolean. An absent flag (`undefined`, stored as not achieved) and a non-boolean value that
  Mongoose casts or refuses on save are not modelled.
- `CallController.CallStore.UpdateCall`: the patch covers every call field except id and
  `createdBy`. A body that rewrites `createdBy` is not modelled. Status and targets are
  overwritten directly without recomputation, as in the source.
- `Visibility.ProjectTargets`: a negative stored `maxTargetsVisible` hides that many targets from
  the end, because the source uses `slice`.
- Express plumbing: `catchAsync`, `AppError` messages, authentication and `req.user`/`req.adminId`.
  The subscriber's subscription and the admin id are parameters instead. The routes file is a
  routing table and is not modelled.
- `app.js` outside the origin callback: Helmet, rate limiting, body parsers, sanitisers, logging
  and the error handlers are not modelled. So are the log line and the `Error` object of a
  refused origin; a refusal is `false`.
- `scripts/fix-call-dates.js` and the other maintenance scripts. `scripts/check-indexes.js`,
  `scripts/fix-firebase-index.js`, `scripts/remove-null-uid.js` and `scripts/debug-users.js` are
  database I/O and are not part of this model.
- `AdminUsers.UserStore.GetAllUsers`: the search is a literal, case-sensitive substring test. The
  source uses a case-insensitive regular expression, and regex metacharacters are not modelled.
- Joi schemas:
  - Type coercion (numeric strings, `"true"`), `trim`, unknown-key handling and message texts are
    not modelled.
  - Joi's check that rejects unsafe numbers beyond 2^53 is not modelled.
  - String lengths are counted in characters, not UTF-16 code units.
  - The validation middleware that applies the schemas to the routes is not part of this model.
- Concurrency and atomicity: two requests that interleave are not modelled. The mobile
  uniqueness check and the insert run as one step here.

## Findings

| source | as written | input that shows it | evidently intended | confidence | as-written member | corrected member |
|---|---|---|---|---|---|---|
| src/controllers/admin-user-controller.js:26-33 | The 'active' list needs `endDate > now` and the 'inactive' list needs `isActive: false` or `endDate <= now`. A null end date satisfies neither comparison. | A user whose subscription is `{isActive: true, isUnlimited: true, endDate: null}`, listed with `subscriptionStatus=active` and with `subscriptionStatus=inactive` | Unlimited subscriptions are active, and every user is in exactly one of the two lists (proved by `AdminUsers.StatusListsPartitionUsers`; `AdminUsers.UserStore.GetAllUsersCorrected` lists them) | medium, not executed | AdminUsers.UnlimitedUserInNeitherList | AdminUsers.BuildUserFilterCorrected |
| src/validators/user-validator.js:134-139 | `extendSubscription` defaults to false, and Joi fills in defaults before it applies `min(1)`, so the key count is never 0. | The empty body `{}` | The empty body is refused ("At least one field must be provided"), and nothing else changes (proved by `UserValidator.UpdateCorrectionOnlyRejectsEmpty`) | medium, not executed | UserValidator.EmptyUpdateAcceptedAsWritten | UserValidator.ValidateUpdateUser |
