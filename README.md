# Analytics dashboard core, modelled in Dafny

This project models the deterministic core of an Angular analytics dashboard.
Each part below is stated in Dafny and proved correct.

- **Data service.** It stores the user table and the sales list and keeps the headline metrics in step with them. Its reports fold the sales into dictionaries keyed by:
  - the day;
  - the month (`substring(0, 7)`);
  - the year (`substring(0, 4)`);
  - the product;
  - the week start;
  - the sign-up date.

  The reports are emitted with their keys sorted. The service also builds the per-user purchase summaries, including the "favourite product" reduction, and the replace-or-append and delete updates of the user table.
- **Purchase histogram** on the user page. It uses the fixed edges `0, 50, 100, 200, 500, 1000, 2000, 5000`, with an overflow rule for the last bin. The category breakdown and the completed-sales filter of the same page are modelled too.
- **Revenue histogram** on the admin analytics page. Its edges are computed from the data: minimum, maximum, a clamped bin count and a ceiling width. The user counts shown beside the metrics are modelled as a function of the metrics, which the page itself never assigns (see "## Left out").
- **Dashboard.** It covers:
  - the recent orders;
  - the status tally;
  - the case-insensitive status class;
  - the four stat cards.
- **Admin users page.** The three-step `applyFilters` and `toggleUserStatus`.
- **Admin events page.** Its status helpers and the local list updates made after a successful reply.
- **Auth service.** It is a session state machine. The state is:
  - browser storage, a `map<string, string>` holding `authToken` and `currentUser`;
  - the current user, the signed-in flag and the role.

  The transitions are signup, login, profile refresh, profile update, logout, local logout, clearing and the token-expiry check.
- **The two route guards.** Each is a decision that returns the redirect target as a value.

Each class of the source whose fields change becomes a Dafny `class`:

- `DataService.DataService`;
- `AuthService.AuthService`;
- `DashboardPage.DashboardComponent`;
- `AdminUsersPage.AdminUsersComponent`;
- `AdminEventsPage.AdminEventsComponent`;
- `UserAnalyticsPage.UserAnalyticsComponent`.

Their methods are proved against specification functions. The `forEach` accumulation loops become one method, `Grouping.Accumulate`, with a loop invariant tying it to the specification fold `Grouping.Fold`. A fold is described by a `Rule`: the key of a record, whether the record opens a bucket, whether it adds to one, and its weight. `Grouping.Tally` is an independent reference sum. The lemmas `Grouping.SortedReport` and `Grouping.InsertionReport` connect the fold to the reference sum.

Two histogram loops stay imperative. The user histogram counts on an `array` (`UserAnalyticsPage.CountSale`). The admin histogram places each value with an early-exit search (`AdminAnalyticsPage.Place`).

JavaScript semantics the code relies on are written out:

- **String order.** `<` and `Array.prototype.sort()` on strings compare character by character (`Text.Less`). A Dafny `char` is a Unicode scalar value, so this is JavaScript's UTF-16 code-unit order only for characters up to U+FFFF (see "## Left out").
- **Plain objects used as dictionaries.** They are insertion-ordered (`Dictionary.Dict`, `Dictionary.Put`), as `Object.keys` lists them.
- **`includes`, `toLowerCase` and `toUpperCase`.** They are modelled on ASCII letters.
- **Decimal rendering in template literals.**
- **`Math.round(x * 100) / 100`.** It rounds halves up at the cent.
- **`JSON.stringify`/`JSON.parse` of the stored user.** `UserJson` holds an encoder and a decoder proved to round-trip it.

Module map:

| module | file | models |
|---|---|---|
| Wrappers, Lists, Text, KeySort, Dictionary | wrappers.dfy, lists.dfy, text.dfy, key_sort.dfy, dictionary.dfy | `Option`, `Array.prototype.filter`/`reduce`, string order and helpers, `.sort()`, plain-object dictionaries |
| Records | records.dfy | the `UserData`, `SalesData`, `AnalyticsMetrics`, `UserAnalytics` records, cent rounding, the zero-guarded average |
| Grouping | grouping.dfy | the accumulation loops of the data service and the sorted or insertion-ordered rows they emit |
| Aggregates, Weekly, Summaries, Users, DataService | aggregates.dfy, weekly.dfy, summaries.dfy, users.dfy, data_service.dfy | src/app/services/data.service.ts |
| UserAnalyticsPage | user_analytics.dfy | src/app/components/user-analytics/user-analytics.component.ts |
| AdminAnalyticsPage | admin_analytics.dfy | src/app/components/admin-analytics/admin-analytics.component.ts |
| DashboardPage | dashboard.dfy | src/app/components/dashboard/dashboard.component.ts |
| AdminUsersPage | admin_users.dfy | src/app/components/admin-users/admin-users.component.ts |
| AdminEventsPage | admin_events.dfy | src/app/components/admin-events/admin-events.component.ts |
| UserJson, AuthService | user_json.dfy, auth_service.dfy | src/app/services/auth.service.ts |
| AuthGuard, AdminGuard | auth_guard.dfy, admin_guard.dfy | src/app/guards/auth.guard.ts, src/app/guards/admin.guard.ts |

## Model

| member | source | states |
|---|---|---|
| Text.LessIrreflexive | src/app/services/data.service.ts:372-373 | no string sorts before itself in JavaScript's string order |
| Text.LessTransitive | src/app/services/data.service.ts:372-373 | the string order used by `.sort()` is transitive |
| Text.LessTotal | src/app/services/data.service.ts:372-373 | of two different strings one sorts before the other |
| Text.LessAsymmetric | src/app/services/data.service.ts:348-349 | `a < b` and `b < a` never both hold, so an empty date range (end before start) keeps no sale |
| Text.Take | src/app/services/data.service.ts:382 | `substring(0, n)` is the prefix of length `n`, or the whole string when it is shorter |
| Text.Lower | src/app/components/admin-users/admin-users.component.ts:45-48 | `toLowerCase` leaves no upper-case ASCII letter, keeps the length, and changes only upper-case letters, each to its lower-case form |
| Text.LowerIdempotent | src/app/components/admin-users/admin-users.component.ts:45-48 | lower-casing twice is lower-casing once |
| Text.LowerOfUpper | src/app/components/dashboard/dashboard.component.ts:303 | lower-casing an upper-cased string equals lower-casing the original |
| Text.ContainsIff | src/app/components/admin-users/admin-users.component.ts:47-48 | `includes` holds exactly when the needle occurs at some offset of the text |
| Text.NatToString | src/app/components/user-analytics/user-analytics.component.ts:220-223 | the decimal text of a non-negative integer is a non-empty string of digits |
| Text.ParseNatToString | src/app/services/data.service.ts:441 | reading back the decimal text of `n` gives `n`, so the digits rendered in `user_<n>` identify `n` |
| Text.NatToStringInjective | src/app/services/data.service.ts:441 | distinct numbers have distinct decimal texts, so distinct lengths give distinct `user_<n>` ids |
| KeySort.InsertPermutes | src/app/services/data.service.ts:372-373 | inserting into a list adds exactly that element |
| KeySort.InsertSorted | src/app/services/data.service.ts:372-373 | inserting a new key into a strictly ascending list keeps it strictly ascending |
| KeySort.SortByCorrect | src/app/services/data.service.ts:372-373 | `.sort()` returns a permutation of its input, strictly ascending when the keys are distinct |
| Dictionary.Empty | src/app/services/data.service.ts:361 | `{}` has no keys |
| Dictionary.Put | src/app/services/data.service.ts:364-368 | assigning `obj[k]` sets the value of `k`; a new key is listed last by `Object.keys` and an existing key keeps its place |
| Records.Round2Close | src/app/services/data.service.ts:325-326 | rounding to cents moves a value by at most half a cent, with halves going up |
| Records.Round2Whole | src/app/services/data.service.ts:562 | a whole amount is unchanged by rounding to cents |
| Records.Average | src/app/services/data.service.ts:310 | the average is 0 with no orders, and otherwise the total divided by the count |
| Grouping.Accumulate | src/app/services/data.service.ts:363-370 | the `forEach` loop leaves exactly the dictionary of the specification fold |
| Grouping.FoldKeys | src/app/services/data.service.ts:363-366 | the fold keeps the dictionary well formed, and its keys are the initial ones plus exactly the keys some record opens |
| Grouping.FoldClosed | src/app/services/data.service.ts:480-491 | a loop in which no record opens a bucket leaves the key list as it was |
| Grouping.FoldValues | src/app/services/data.service.ts:367-369 | after the fold, a key holds its starting bucket plus the summed weight and count of the records that add to it (a missing bucket counting as empty when every adding record finds one) |
| Grouping.FoldDropsNothing | src/app/services/data.service.ts:367-369 | when every adding record finds its bucket, a key left without a bucket has no adding record |
| Grouping.FoldTotals | src/app/services/data.service.ts:363-370 | the bucket amounts and counts summed over all keys rise by exactly the weights and number of the adding records |
| Grouping.SeedFacts | src/app/services/data.service.ts:473-478 | after seeding, the keys are the old ones plus the seeded ones, each seeded key at zero, and distinct keys seeded into `{}` are listed in seeding order |
| Grouping.SortedKeysCorrect | src/app/services/data.service.ts:372-373 | `Object.keys(obj).sort()` lists each key of the dictionary exactly once, strictly ascending |
| Grouping.Rows | src/app/services/data.service.ts:374 | each row carries its key and that key's amount and count, in the order of the keys given |
| Grouping.SortedReport | src/app/services/data.service.ts:360-375 | from `{}`: rows ascending; the keys are exactly the opened keys; each row holds the sum and number of its adding records; the rows add up to all adding records |
| Grouping.InsertionReport | src/app/services/data.service.ts:414-431 | the same for rows in `Object.keys` order: keys distinct, exactly the opened keys, per-key and overall totals |
| Aggregates.DailyTotalsCorrect | src/app/services/data.service.ts:360-375 | one row per distinct date of any sale, strictly ascending, each amount the revenue of that date's completed sales (0 when there is none) |
| Aggregates.LastOfAscending | src/app/services/data.service.ts:393 | `slice(-12)` of ascending keys stays ascending and drops only keys smaller than every kept one, and only when 12 are kept |
| Aggregates.MonthlyTotalsCorrect | src/app/services/data.service.ts:378-395 | at most 12 rows, strictly ascending month keys, each a month of some sale holding that month's completed revenue |
| Aggregates.MonthlyTotalsGreatest | src/app/services/data.service.ts:391-394 | a month of some sale is left out only when exactly 12 months are shown, and it sorts below each of them; so every month is shown when there are at most 12 |
| Aggregates.MonthlyTotalsNonEmpty | src/app/services/data.service.ts:378-395 | a non-empty sales list, of any statuses, gives a non-empty monthly report |
| Aggregates.SignupCountsCorrect | src/app/services/data.service.ts:398-411 | one row per distinct creation date, ascending, counting the users created that day; the counts add up to the number of users |
| Aggregates.ProductBreakdownCorrect | src/app/services/data.service.ts:414-431 | one row per product with a completed sale, each once, with count at least 1 and that product's completed count and revenue; counts sum to the completed sales and amounts to their revenue |
| Aggregates.PeriodTotalsCorrect | src/app/services/data.service.ts:499-536 | monthly (7 characters) and yearly (4 characters) rows of the user's completed sales: ascending unique periods, each with that period's count and revenue, summing to the user's completed count and revenue |
| Weekly.Weekday | src/app/services/data.service.ts:475 | `getDay()` of a day number is in 0..6 |
| Weekly.WeekStartIsSunday | src/app/services/data.service.ts:483-484 | a day's week starts on the Sunday at most six days before it |
| Weekly.SeedWeeks | src/app/services/data.service.ts:473-478 | the seeding loop leaves the 52 week keys at zero, in seeding order |
| Weekly.SeedKeysDistinct | src/app/services/data.service.ts:473-477 | the 52 seeded keys are distinct when distinct days have distinct ISO keys |
| Weekly.WeeklyFoldKeys | src/app/services/data.service.ts:480-491 | the loop over the sales adds no key: the keys are exactly the seeded ones |
| Weekly.WeeklyFoldValues | src/app/services/data.service.ts:486-489 | each seeded week holds the revenue and count of the user's completed sales in that week |
| Weekly.WeeklyTotalsCorrect | src/app/services/data.service.ts:468-496 | ascending rows whose keys are exactly the seeded weeks (52 of them when ISO keys are injective), each with that week's completed revenue and count for the user |
| Weekly.SeededWindow | src/app/services/data.service.ts:473-485 | a day's week is one of the seeded weeks exactly when the day falls between the Sunday 51 weeks back and the end of the current week |
| Weekly.SaleCountedInWindow | src/app/services/data.service.ts:480-491 | a completed sale of the user inside the 52-week window is counted in its week; with injective keys, a counted sale lies in the window, so the others are silently dropped |
| Summaries.ConversionRateFacts | src/app/services/data.service.ts:311-326 | the conversion rate is 0 when orders exceed sign-ups, is NaN (`None`) only for 0 / 0, and otherwise lies in 0..100 |
| Summaries.MetricsFacts | src/app/services/data.service.ts:298-330 | the metrics count users, admins and active users, the completed orders and their revenue; the average is 0 without orders and else within half a cent of revenue / orders; the event fields are 0 |
| Summaries.PurchaseSummaryCorrect | src/app/services/data.service.ts:572-584 | the summary counts and sums the user's completed sales; the average is 0 without orders and else within half a cent; the last purchase is the first such sale in stored order, or `'N/A'` |
| Summaries.ReduceMaxCorrect | src/app/services/data.service.ts:555-557 | the reduction returns a key of maximal count, and no later key has that count (ties go to the later key) |
| Summaries.PurchaseKeys | src/app/services/data.service.ts:551-554 | counting purchases lists the products in the order of their first sale |
| Summaries.PurchaseCounts | src/app/services/data.service.ts:552-554 | each product's count is its number of purchases |
| Summaries.FavoriteProductCorrect | src/app/services/data.service.ts:550-557 | `'N/A'` without sales; otherwise a purchased product with maximal purchases, and no product first seen later has as many |
| Summaries.UserAnalyticsAgrees | src/app/services/data.service.ts:542-568 | a user's row agrees with their purchase summary, except that no purchase reads `'Never'`; with no purchase the favourite product is `'N/A'` |
| Users.FindIndex | src/app/services/data.service.ts:436 | `findIndex` gives the first index holding the id, or -1 exactly when no row holds it |
| Users.UserById | src/app/services/data.service.ts:457-459 | `find` gives a row with the id, or nothing exactly when no row holds it |
| Users.SavedUsers | src/app/services/data.service.ts:434-447 | a known id replaces its first slot and nothing else; an unknown id appends the user renamed `user_<n + 1>`, keeping every earlier row |
| Users.SaveUserAgain | src/app/services/data.service.ts:434-447 | saving twice under a known id is saving once; an appended user is found again under the new id when no earlier row holds that id |
| Users.DeleteUserCorrect | src/app/services/data.service.ts:450-454 | deleting keeps exactly the rows with another id, in order; the id is then not found, and the length falls by the number of rows that held it |
| DataService.SalesBetweenCorrect | src/app/services/data.service.ts:348-351 | the range keeps, in order, exactly the sales dated from start to end inclusive, and nothing when the end sorts before the start |
| DataService.UserSales | src/app/services/data.service.ts:462-465 | exactly the user's sales, whatever their status, in stored order |
| DataService.DataService.constructor | src/app/services/data.service.ts:298-330 | the service starts from the given lists with their metrics published |
| DataService.DataService.CalculateMetrics | src/app/services/data.service.ts:298-330 | the published metrics become those of the stored lists, which are unchanged |
| DataService.DataService.SaveUser | src/app/services/data.service.ts:434-447 | the table becomes the saved table and the metrics are recomputed |
| DataService.DataService.DeleteUser | src/app/services/data.service.ts:450-454 | the table loses the rows with the id and the metrics are recomputed |
| DataService.DataService.GetUserById | src/app/services/data.service.ts:457-459 | nothing exactly when no stored user has the id; otherwise the first one that does |
| DataService.DataService.DailySalesData | src/app/services/data.service.ts:360-375 | the loop's result is the daily report |
| DataService.DataService.MonthlySalesData | src/app/services/data.service.ts:378-395 | the loop's result is the monthly report |
| DataService.DataService.SignupsByDate | src/app/services/data.service.ts:398-411 | the loop's result is the sign-up report |
| DataService.DataService.ProductSalesBreakdown | src/app/services/data.service.ts:414-431 | the loop's result is the product report |
| DataService.DataService.UserWeeklyAnalytics | src/app/services/data.service.ts:468-496 | the seeding and accumulation loops give the weekly report |
| DataService.DataService.UserMonthlyAnalytics | src/app/services/data.service.ts:499-516 | the loop's result is the user's monthly report |
| DataService.DataService.UserYearlyAnalytics | src/app/services/data.service.ts:519-536 | the loop's result is the user's yearly report |
| DataService.DataService.AnalyticsOf | src/app/services/data.service.ts:542-567 | the per-user row built with the product-count loop is the specified row |
| DataService.DataService.AllUsersAnalytics | src/app/services/data.service.ts:539-569 | one row per user of role `'user'`, in stored order, each that user's row |
| UserAnalyticsPage.LoadedSales | src/app/components/user-analytics/user-analytics.component.ts:66-67 | the page's sales are exactly the user's completed sales, in stored order |
| UserAnalyticsPage.UserAnalyticsComponent.LoadUserData | src/app/components/user-analytics/user-analytics.component.ts:62-75 | without a user nothing changes; otherwise the completed sales, their breakdown and the purchase summary are loaded |
| UserAnalyticsPage.BreakdownStep | src/app/components/user-analytics/user-analytics.component.ts:79-81 | one pass adds the sale's amount to its product's value, starting from 0 |
| UserAnalyticsPage.BreakdownKeys | src/app/components/user-analytics/user-analytics.component.ts:77-82 | the breakdown's keys are exactly the products of the sales |
| UserAnalyticsPage.BreakdownValues | src/app/components/user-analytics/user-analytics.component.ts:77-82 | each product's value is its sales' summed amount |
| UserAnalyticsPage.BreakdownTotal | src/app/components/user-analytics/user-analytics.component.ts:77-82 | the values add up to the total amount of the sales |
| UserAnalyticsPage.BreakdownMatchesSummary | src/app/components/user-analytics/user-analytics.component.ts:66-82 | the breakdown of the loaded sales adds up to the spent total of the user's purchase summary |
| UserAnalyticsPage.UserAnalyticsComponent.CalculateCategoryBreakdown | src/app/components/user-analytics/user-analytics.component.ts:77-82 | the loop from `{}` leaves the breakdown of the page's sales |
| UserAnalyticsPage.LabelsShown | src/app/components/user-analytics/user-analytics.component.ts:219-223 | the labels read `$0-50` through `$2000-5000` |
| UserAnalyticsPage.BinOf | src/app/components/user-analytics/user-analytics.component.ts:229-234 | the loop stops at the one `i` with `bins[i] <= amount < bins[i+1]`, and finds none outside `[0, 5000)` |
| UserAnalyticsPage.LandsOnce | src/app/components/user-analytics/user-analytics.component.ts:227-238 | a non-negative amount is counted in exactly one bin; 5000 and above in the last; a negative amount in none |
| UserAnalyticsPage.HistogramBins | src/app/components/user-analytics/user-analytics.component.ts:225-239 | each bin counts exactly the sales that land in it |
| UserAnalyticsPage.HistogramTotal | src/app/components/user-analytics/user-analytics.component.ts:225-239 | the counts add up to the number of non-negative sales, so to all of them when none is negative |
| UserAnalyticsPage.CountSale | src/app/components/user-analytics/user-analytics.component.ts:228-238 | one pass of the loop with `break`, and the overflow rule, adds the sale as specified |
| UserAnalyticsPage.UserAnalyticsComponent.PurchaseHistogram | src/app/components/user-analytics/user-analytics.component.ts:214-239 | nothing is built without sales; otherwise the seven labels and the loop's counts |
| AdminAnalyticsPage.GetUserStats | src/app/components/admin-analytics/admin-analytics.component.ts:125-131 | `null` exactly without metrics; otherwise admins, active users, and the remaining users as inactive |
| AdminAnalyticsPage.UserStatsOfService | src/app/components/admin-analytics/admin-analytics.component.ts:125-131 | on the service's metrics the counts are those of admins, active and inactive users, none negative |
| AdminAnalyticsPage.KeptValues | src/app/components/admin-analytics/admin-analytics.component.ts:318 | exactly the finite non-negative values are kept, each as many times as it occurs |
| AdminAnalyticsPage.MinOf | src/app/components/admin-analytics/admin-analytics.component.ts:321 | `Math.min(...values)` is a value at most every other |
| AdminAnalyticsPage.MaxOf | src/app/components/admin-analytics/admin-analytics.component.ts:322 | `Math.max(...values)` is a value at least every other |
| AdminAnalyticsPage.BinCount | src/app/components/admin-analytics/admin-analytics.component.ts:323 | the bin count lies in 4..8 and is `n` itself when `n` does |
| AdminAnalyticsPage.CeilDiv | src/app/components/admin-analytics/admin-analytics.component.ts:324 | `Math.ceil(a / b)` is the least multiple count covering `a` |
| AdminAnalyticsPage.Width | src/app/components/admin-analytics/admin-analytics.component.ts:324 | the width is at least 1 and `binCount` widths cover `max - min` |
| AdminAnalyticsPage.EdgesFacts | src/app/components/admin-analytics/admin-analytics.component.ts:326-328 | `binCount + 1` edges starting at the minimum, strictly increasing, the last at least `max + 1` |
| AdminAnalyticsPage.BuildEdges | src/app/components/admin-analytics/admin-analytics.component.ts:326-328 | the `push` loop and the last-edge overwrite give those edges |
| AdminAnalyticsPage.BinForUnique | src/app/components/admin-analytics/admin-analytics.component.ts:334-339 | a value inside the edges is placed in the one bin whose span holds it |
| AdminAnalyticsPage.Place | src/app/components/admin-analytics/admin-analytics.component.ts:334-340 | the early-return loop, with the last-bin fallback, picks the specified bin |
| AdminAnalyticsPage.CountsOfBins | src/app/components/admin-analytics/admin-analytics.component.ts:333-341 | each bin counts exactly the values in its span |
| AdminAnalyticsPage.CountsOfTotal | src/app/components/admin-analytics/admin-analytics.component.ts:333-341 | the counts add up to the number of values |
| AdminAnalyticsPage.CountsCorrect | src/app/components/admin-analytics/admin-analytics.component.ts:333-341 | each value lies in exactly one span, each count is that span's number of values, and the counts sum to `n` |
| AdminAnalyticsPage.HistogramNone | src/app/components/admin-analytics/admin-analytics.component.ts:318-319 | nothing is built exactly when no finite non-negative value remains |
| AdminAnalyticsPage.BuildShape | src/app/components/admin-analytics/admin-analytics.component.ts:321-331 | 4..8 counts, as many labels as counts, one more edge, starting at the minimum, increasing, the last past the maximum |
| AdminAnalyticsPage.BuildCounts | src/app/components/admin-analytics/admin-analytics.component.ts:333-341 | on the built edges every value falls in exactly one bin and the counts sum to `n`, so the fallback never fires |
| AdminAnalyticsPage.CountValues | src/app/components/admin-analytics/admin-analytics.component.ts:331-341 | the counting loop over an array of zeros gives the specified counts |
| AdminAnalyticsPage.RevenueHistogramChart | src/app/components/admin-analytics/admin-analytics.component.ts:318-341 | the imperative computation gives the specified histogram, or nothing |
| DashboardPage.RecentOrdersCorrect | src/app/components/dashboard/dashboard.component.ts:56-59 | at most ten orders, all completed, in stored order: a prefix of the completed sales, all of them when there are at most ten |
| DashboardPage.StatusTallyTotal | src/app/components/dashboard/dashboard.component.ts:251-256 | the four counts add up to the number of sales with a known status, so to all sales when every status is one of the four |
| DashboardPage.GetStatusClass | src/app/components/dashboard/dashboard.component.ts:302-313 | `completed`, `pending` and `processing` in any case map to their class; every other string maps to `status-failed` |
| DashboardPage.StatusClassIgnoresCase | src/app/components/dashboard/dashboard.component.ts:303 | upper- or lower-casing the status does not change its class |
| DashboardPage.Cards | src/app/components/dashboard/dashboard.component.ts:63-94 | four cards, titled Total Revenue, Total Orders, Active Users and New Signups in that order, with values from the metrics |
| DashboardPage.CardsOfService | src/app/components/dashboard/dashboard.component.ts:63-94 | on the service's metrics the cards show completed revenue, completed orders, active users and all users |
| DashboardPage.DashboardComponent.LoadMetrics | src/app/components/dashboard/dashboard.component.ts:45-52 | the metrics are copied, and the cards rebuilt only when there are metrics |
| DashboardPage.DashboardComponent.LoadRecentOrders | src/app/components/dashboard/dashboard.component.ts:54-61 | the recent orders become the first ten completed sales |
| DashboardPage.DashboardComponent.UpdateStats | src/app/components/dashboard/dashboard.component.ts:63-94 | the cards become those of the metrics, nothing else changes |
| AdminUsersPage.SearchStep | src/app/components/admin-users/admin-users.component.ts:44-50 | with a query, exactly the users whose lower-cased name or email contains the lower-cased query are kept, in order |
| AdminUsersPage.RoleStep | src/app/components/admin-users/admin-users.component.ts:52-54 | with a role filter, exactly the users of that role are kept, in order |
| AdminUsersPage.StatusStep | src/app/components/admin-users/admin-users.component.ts:56-59 | `'active'` keeps exactly the active users and any other non-empty value the inactive ones, in order |
| AdminUsersPage.FilteredCorrect | src/app/components/admin-users/admin-users.component.ts:41-62 | the result is an order-preserving subsequence holding exactly the users passing every non-empty filter, and all users when no filter is set |
| AdminUsersPage.FilteredIdempotent | src/app/components/admin-users/admin-users.component.ts:41-62 | filtering the filtered list again changes nothing |
| AdminUsersPage.Toggled | src/app/components/admin-users/admin-users.component.ts:118 | `isActive` is flipped and every other field kept |
| AdminUsersPage.AdminUsersComponent.ApplyFilters | src/app/components/admin-users/admin-users.component.ts:41-62 | the step-by-step filtering leaves the specified list and changes nothing else |
| AdminUsersPage.AdminUsersComponent.LoadUsers | src/app/components/admin-users/admin-users.component.ts:34-39 | the users are copied from the service and filtered again |
| AdminUsersPage.AdminUsersComponent.ToggleUserStatus | src/app/components/admin-users/admin-users.component.ts:117-121 | the service saves the toggled user, keeps its metrics in step, and the page reloads and filters |
| AdminEventsPage.GetStatusClass | src/app/components/admin-events/admin-events.component.ts:172-180 | the four known statuses map to `status-<name>`, every other string to `''` |
| AdminEventsPage.GetStatusText | src/app/components/admin-events/admin-events.component.ts:182-184 | same length, the first character upper-cased, the rest unchanged |
| AdminEventsPage.StatusTextLower | src/app/components/admin-events/admin-events.component.ts:182-184 | the text differs from the status only in case |
| AdminEventsPage.StatusTextIdempotent | src/app/components/admin-events/admin-events.component.ts:182-184 | capitalising twice is capitalising once |
| AdminEventsPage.FreshEventForm | src/app/components/admin-events/admin-events.component.ts:95-98 | the reset form keeps the current year and a zero budget, and is invalid until filled |
| AdminEventsPage.FreshSubEventForm | src/app/components/admin-events/admin-events.component.ts:123 | the reset sub-event form is invalid until filled |
| AdminEventsPage.RemoveEventCorrect | src/app/components/admin-events/admin-events.component.ts:142 | every event with the id is removed and the others kept in order |
| AdminEventsPage.RemoveSubEventCorrect | src/app/components/admin-events/admin-events.component.ts:163 | every sub-event with the id is removed and the others kept in order |
| AdminEventsPage.AdminEventsComponent.constructor | src/app/components/admin-events/admin-events.component.ts:21-44 | empty lists, no selection, closed forms, and the two forms at their initial values |
| AdminEventsPage.AdminEventsComponent.LoadEvents | src/app/components/admin-events/admin-events.component.ts:50-64 | a successful reply replaces the events, any other reply keeps them, and loading ends |
| AdminEventsPage.AdminEventsComponent.SelectEvent | src/app/components/admin-events/admin-events.component.ts:66-69 | the event becomes the selection, its id is asked for, and a successful reply replaces the sub-events |
| AdminEventsPage.AdminEventsComponent.LoadSubEvents | src/app/components/admin-events/admin-events.component.ts:71-84 | nothing is asked without a selection; otherwise the selected id is asked for and a successful reply replaces the sub-events |
| AdminEventsPage.AdminEventsComponent.CreateEvent | src/app/components/admin-events/admin-events.component.ts:86-107 | an invalid form changes nothing; a success prepends the event, closes and resets the form |
| AdminEventsPage.AdminEventsComponent.CreateSubEvent | src/app/components/admin-events/admin-events.component.ts:109-132 | nothing without a valid form and a selected event; the sent `event` is the selected id; a success appends the sub-event |
| AdminEventsPage.AdminEventsComponent.DeleteEvent | src/app/components/admin-events/admin-events.component.ts:134-153 | a confirmed success removes the events with the id, and clears the selection and sub-events exactly when the selected event had it |
| AdminEventsPage.AdminEventsComponent.DeleteSubEvent | src/app/components/admin-events/admin-events.component.ts:155-170 | a confirmed success removes the sub-events with the id |
| UserJson.Escape | src/app/services/auth.service.ts:199 | `JSON.stringify` writes a character as itself or as an escape starting with a backslash |
| UserJson.HexRoundTrip | src/app/services/auth.service.ts:206-209 | a hexadecimal digit reads back as its value |
| UserJson.DecodeEncode | src/app/services/auth.service.ts:198-209 | `JSON.parse(JSON.stringify(user))` gives the user back |
| AuthService.StoredRoleOf | src/app/services/auth.service.ts:214-217 | the role read back after storing a user is that user's role, and there is none after clearing |
| AuthService.StoredAfterSet | src/app/services/auth.service.ts:198-209 | after storing a user, reading storage gives that user, parsing cannot fail, and the token is untouched |
| AuthService.Cleared | src/app/services/auth.service.ts:243-245 | removing both keys leaves no token and no user, and every other entry as it was |
| AuthService.AuthService.constructor | src/app/services/auth.service.ts:43-54 | the user, flag and role come from storage; the expiry check then clears an expired or unreadable token |
| AuthService.AuthService.SignupEndpoint | src/app/services/auth.service.ts:60 | `/signup/admin` exactly when the role is `'admin'`, else `/signup` |
| AuthService.AuthService.LoginEndpoint | src/app/services/auth.service.ts:81 | `/login/admin` exactly when `isAdmin`, else `/login` |
| AuthService.AuthService.Signup | src/app/services/auth.service.ts:59-75 | a reply with a token and a user stores both and signs in with the user's role; any other reply changes nothing |
| AuthService.AuthService.Login | src/app/services/auth.service.ts:80-96 | the same for login, on the endpoint chosen by `isAdmin` |
| AuthService.AuthService.ApplyAuthResponse | src/app/services/auth.service.ts:62-69 | the shared `tap` effect of signup and login |
| AuthService.AuthService.ApplyProfile | src/app/services/auth.service.ts:103-107 | a reply with a user replaces the stored user; the token, flag and role never change |
| AuthService.AuthService.GetProfile | src/app/services/auth.service.ts:101-113 | the profile refresh effect |
| AuthService.AuthService.UpdateProfile | src/app/services/auth.service.ts:118-130 | the profile update effect |
| AuthService.AuthService.Logout | src/app/services/auth.service.ts:151-164 | on success and on error alike, all auth data is cleared and the router goes to `/login` |
| AuthService.AuthService.LogoutLocal | src/app/services/auth.service.ts:169-172 | all auth data is cleared and the router goes to `/login` |
| AuthService.AuthService.GetToken | src/app/services/auth.service.ts:177-179 | the stored token, if any; in a consistent state the signed-in flag holds exactly when it is present and non-empty |
| AuthService.AuthService.SetToken | src/app/services/auth.service.ts:184-186 | stores the token and changes nothing else |
| AuthService.AuthService.SetCurrentUser | src/app/services/auth.service.ts:198-201 | stores the encoded user and publishes it, so storage reads it back |
| AuthService.AuthService.IsAuthenticated | src/app/services/auth.service.ts:222-224 | true exactly when a non-empty token is stored, and then it agrees with the signed-in flag |
| AuthService.AuthService.IsAdmin | src/app/services/auth.service.ts:229-231 | true exactly when the role is `'admin'`, and never together with `isUser` (true exactly for `'user'`) |
| AuthService.AuthService.ClearAuthData | src/app/services/auth.service.ts:243-249 | both keys removed, no user, signed out, no role |
| AuthService.AuthService.CheckTokenValidity | src/app/services/auth.service.ts:254-268 | no token: nothing changes; an unreadable token or `exp * 1000 < now`: everything is cleared; otherwise nothing changes |
| AuthGuard.UserRole | src/app/guards/auth.guard.ts:25 | `getCurrentUser()?.role`: a role exactly when a user is signed in; in a consistent state it is the role of the user in storage |
| AuthGuard.CanActivate | src/app/guards/auth.guard.ts:12-33 | signed out: refuse to `/login`; a required role that differs: refuse to `/unauthorized`; allowed exactly when signed in and no role is required or it matches |
| AdminGuard.CanActivate | src/app/guards/admin.guard.ts:12-29 | signed out: refuse to `/login` even for an admin role; signed in but not admin: refuse to `/dashboard`; allowed exactly when signed in and admin |

## Left out

- Chart.js is left out: chart configuration, `new Chart`/`destroy`, canvases, `@ViewChild` and `setTimeout` scheduling are rendering and timing. The histogram methods return the labels and counts they would hand to the chart.
- RxJS is left out. Subjects are plain fields, and a subscription's callback is a method taking the emitted value. Asynchronous ordering is not modelled.
- HTTP calls and router navigation are left out. A reply is a parameter, and a navigation target is a returned string. The auth interceptor, `changePassword` and the login, signup, routing, module, app and sidebar files are not part of this model.
- Data generation is left out. Random users, sales dates built with `Date`/`toISOString` and the floating `variation` are not modelled: the service's lists are constructor inputs.
- The constant stub payloads are left out: the yearly overview, monthly trends, events, event analytics, revenue per event and participation ratio, and the admin page's generated chart data.
- `getSalesByStatus` is a one-line filter that nothing in this core calls, so it is not modelled.
- Locale formatting is left out: `toLocaleString`, `toLocaleDateString`, `toFixed`, the week and month captions, and the `₹…k` labels.
- `AdminAnalyticsPage.Build`: the labels are left as the `(edge i, edge i+1)` pairs they are computed from. The `₹…k` text is not modelled.
- `DashboardPage.Cards`: the card trends are kept as the numbers they show. The formatted strings are not modelled.
- Amounts are `int`. Fractional amounts and ordinary floating-point rounding are not modelled. `NaN` appears only as the `None` conversion rate of 0 / 0. In the admin histogram, `Number(v)` is abstracted to a finite integer or a non-finite value (`Num`).
- Calendar arithmetic is a parameter (`Weekly.Calendar`): today's day number, a date's day number, and the ISO key of a day number. A day's weekday is `(day + 4) % 7`, which makes day 0 a Thursday. Time zones are not modelled.
- Weekly.WeeklyTotalsCorrect: exactly 52 rows is proved only when the calendar's ISO key is injective. Otherwise two seeded weeks could share a key.
- Weekly.SeedWeeks: the loop runs `j` upward from 0 to 51 and seeds week `51 - j`. This is the same sequence of assignments as the source's downward `w` loop.
- `Object.keys` is modelled as insertion order. JavaScript lists integer-like keys first. Dates, months, years and week keys are never integer-like, but a product name such as `"2024"` would be, and its rows in `getProductSalesBreakdown` and its place in the `favoriteProduct` tie-break would then come first. The model keeps insertion order for every product name.
- Product names are plain keys. A name inherited from `Object.prototype`, such as `constructor` or `toString`, is already truthy in `{}`: `getProductSalesBreakdown` would then give it no bucket of its own, and `(productCounts[k] || 0) + 1` would build a string. The model treats every name as absent from the empty dictionary.
- Strings are sequences of Unicode scalar values. JavaScript's `<`, `.sort()`, `.length`, `substring` and `charAt` work on UTF-16 code units, so order and lengths (the `minLength`/`maxLength` validators, `substring(0, 7)`, `charAt(0)`) differ from the model for characters above U+FFFF, which take two code units. For example, U+10000 sorts below U+E000 in JavaScript but above it in the model.
- `toLowerCase`/`toUpperCase` act on ASCII letters only. Other characters are kept as they are.
- UserJson.Decode: `JSON.parse` is modelled on the texts `JSON.stringify` writes for a user, with the properties in declaration order. Every other text is refused.
- AuthService.AuthService.constructor: requires that the stored user entry parses. A throwing `JSON.parse` in the field initialisers is not modelled.
- AuthService.AuthService.CheckTokenValidity: decoding the token with `atob` and `JSON.parse` is a parameter (`TokenPayload`). A payload without `exp` keeps the token, as `undefined * 1000 < now` is false.
- AuthService.AuthService.UpdateProfile: the request body sent to the server is not modelled, only the effect of the reply.
- AuthService.AuthService.ApplyProfile: a profile reply leaves the role unchanged even when the new user has another role, as in the source. The model keeps its `Valid` invariant about user and flag only.
- AdminUsersPage.AdminUsersComponent.ToggleUserStatus: the source flips `isActive` on the row object it shares with the service's table. The model passes the toggled value, so the aliasing is not modelled.
- The admin users page's own form save and delete (`Date.now` ids, `confirm()`) are not modelled. The service's `saveUser` and `deleteUser` are.
- The admin events page calls `getSubEventsByEvent`, `createEvent`, `createSubEvent`, `deleteEvent` and `deleteSubEvent`, which the data service does not define. Its `getAllEvents` is a stub that emits a bare array, so `response.success` is undefined there. Every reply is therefore a parameter (`Reply`) of the page's methods. `confirm()` becomes a `confirmed` parameter, and the form is a value checked against its validators.
- AdminAnalyticsPage.UserStatsOfService: the page declares `metrics` as `null` and never assigns it, so as written `getUserStats()` always returns `null` (the `None` case of `AdminAnalyticsPage.GetUserStats`). The lemma states what the counts would be if the page were given the service's metrics. That wiring is an assumption of the model.
- DataService.DataService.SaveUser: the source overwrites a slot of the shared array in place and renames the caller's object (`user._id = ...`) before pushing it. The model builds a new table value, so the aliasing of the caller's object and of the array held by earlier subscribers is not modelled.
