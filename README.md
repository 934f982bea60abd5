# Oliver System front end: a Dafny model of its state core

Oliver System is a personal dashboard in the browser. It covers an inventory of
household items, health tracking (meals, water, workouts, weight), task lists
mirrored from Apple Reminders, and a signed-in session. This project models the
parts of the front end that hold and change state, and proves properties about
them:

- the four stores, each a Dafny `class` whose fields the actions reassign:
  - inventory (`Inventory.InventoryStore`)
  - health (`Health.HealthStore`)
  - reminders (`Reminders.RemindersStore`)
  - session (`Auth.AuthStore`)
- the credential store over browser storage (`Credentials.CredentialStore`);
- the global toast queue (`Toasts.ToastQueue`);
- the text formatters `formatDuration`, `truncate` and `getInitials` (module `Format`);
- the router's navigation guard and scroll behaviour (module `Router`).

A store's derived views (Pinia getters) are module-level functions of the field
values. For example, `Inventory.FilteredItems(items, selected)` is the getter
`filteredItems`, so the properties of a view are stated once for all inputs.

Remote API calls are not modelled. Their outcome is a parameter of the action:
- `Common.Remote<T>` is either `Ok(value)` or `Fail(message)`.
- An action that rethrows returns `Common.Completion<T>`, either `Returned(value)` or `Threw(message)`.
- Where the store builds the request itself, the remote is a function of the request. This applies to the date sent by `fetchTodayData`, the record sent by `addWater`, and the `days` sent by `fetchWeightHistory`. The contract can then say what was asked for.

JavaScript truthiness of an optional string is `Common.Truthy`: absent or empty is false.

The generic sequence helpers live in `Seqs`:
- `Filter`
- `IndexWhere` (`findIndex`)
- `FindFirst` (`find`)
- `RemoveAt` (`splice(k, 1)`)
- `SumOf` (`reduce` with `+`)

## Model

| member | source | states |
|---|---|---|
| Seqs.Filter | src/stores/inventory.ts:21 | the filtered sequence is no longer than the input and every element passes the predicate |
| Seqs.FilterMembers | src/stores/inventory.ts:21 | every element of `filter` comes from the input, and every element of the input that passes is kept |
| Seqs.FilterConcat | src/stores/health.ts:24-26 | filtering distributes over concatenation (a push only adds at the end of a view) |
| Seqs.FilterAll | src/stores/inventory.ts:97 | `filter` returns its input unchanged exactly when every element passes |
| Seqs.FilterCount | src/stores/inventory.ts:97 | `filter` keeps every passing element as often as it occurs, and drops every failing one |
| Seqs.SumOf | src/stores/health.ts:29 | `reduce` with `+` from 0: a sum of non-negative values is non-negative |
| Seqs.SumOfConcat | src/stores/health.ts:29 | a `reduce` sum over a concatenation is the sum of the two sums |
| Seqs.IndexWhere | src/composables/useToast.ts:54 | `findIndex`: -1 exactly when nothing matches; otherwise the first matching index |
| Seqs.RemoveAt | src/composables/useToast.ts:56 | `splice(k, 1)`: one shorter, elements before `k` kept, later ones shifted down by one |
| Seqs.FilterRemoveAt | src/stores/inventory.ts:19-22 | removing one element shrinks a filtered view by one exactly when that element passes |
| Seqs.FilterRejectsOne | src/stores/inventory.ts:97 | when exactly the element at `k` fails the predicate, `filter` is `splice(k, 1)` |
| Seqs.FindFirst | src/stores/health.ts:51 | `find`: absent exactly when nothing matches; otherwise the element at the first matching index |
| Inventory.FilteredItems | src/stores/inventory.ts:19-22 | no selected category gives every item; a selected one gives exactly the items of that category |
| Inventory.ItemsNeedingPurchase | src/stores/inventory.ts:24-26 | exactly the items whose `needsToBuy` flag is set |
| Inventory.ExpiringItems | src/stores/inventory.ts:28-36 | exactly the items with an expiry date in the closed window [now, now + 7 days] |
| Inventory.DaysSince | src/stores/inventory.ts:42 | the floored whole-day count `d` satisfies `d` days ≤ elapsed < `d`+1 days |
| Inventory.ItemsNeedingReplacement | src/stores/inventory.ts:38-45 | exactly the items with a last-replaced date and a non-zero cycle whose whole days elapsed reach the cycle |
| Inventory.DueForReplacementByElapsedTime | src/stores/inventory.ts:40-43 | flooring loses nothing: due exactly when at least cycle × 24 h of milliseconds have elapsed |
| Inventory.ExpiringOne | src/stores/inventory.ts:31-35 | a single item is in the expiring view exactly when it is inside the window |
| Inventory.ExpiryWindowBoundaries | src/stores/inventory.ts:30-34 | exactly 7 days ahead and exactly now are in; 8 days ahead, 1 day past and no date are out |
| Inventory.ZeroCycleNeverDue | src/stores/inventory.ts:40 | a replacement cycle of 0 is falsy, so the item is never due |
| Inventory.ReplaceFirst | src/stores/inventory.ts:82-85 | same length; only the first item with the id is replaced; an unknown id changes nothing |
| Inventory.WithoutId | src/stores/inventory.ts:97 | every item with the id is gone, and every other item stays |
| Inventory.WithoutUniqueId | src/stores/inventory.ts:97 | with unique ids, deleting by the id at `k` is exactly removal of position `k` |
| Inventory.DeleteRemovesOne | src/stores/inventory.ts:94-98 | with unique ids a delete removes exactly one item, and the category view shrinks by one exactly when the item is in the selected category |
| Inventory.InventoryStore.constructor | src/stores/inventory.ts:8-16 | empty items, all-zero summary, not loading, no category selected |
| Inventory.InventoryStore.FetchItems | src/stores/inventory.ts:48-57 | success replaces the items wholesale; failure keeps them; `loading` ends false |
| Inventory.InventoryStore.FetchSummary | src/stores/inventory.ts:59-65 | success replaces the summary; failure is swallowed and keeps it |
| Inventory.InventoryStore.ReplaceFirstWithId | src/stores/inventory.ts:82-85 | the items become `ReplaceFirst` of the old items |
| Inventory.InventoryStore.AddItem | src/stores/inventory.ts:67-77 | success appends the created item, refreshes the summary and returns the item; failure changes nothing and rethrows |
| Inventory.InventoryStore.UpdateItem | src/stores/inventory.ts:79-92 | success puts the server's item in place of the first with the id, refreshes the summary and returns it; failure changes nothing and rethrows |
| Inventory.InventoryStore.DeleteItem | src/stores/inventory.ts:94-103 | success drops every item with the id and refreshes the summary; failure changes nothing and rethrows |
| Inventory.InventoryStore.MarkPurchased | src/stores/inventory.ts:105-117 | success replaces the first item with the id by the server's entity and refreshes the summary; failure rethrows |
| Inventory.InventoryStore.MarkReplaced | src/stores/inventory.ts:119-131 | as MarkPurchased, for the replacement record |
| Inventory.InventoryStore.SetCategory | src/stores/inventory.ts:133-135 | the cursor becomes the given category |
| Inventory.FetchTwice | src/stores/inventory.ts:51 | fetching twice leaves exactly the fetched list: a fetch replaces and never merges |
| Health.TodayMeals | src/stores/health.ts:24-26 | exactly the meals dated on the selected day |
| Health.MacroTotal | src/stores/health.ts:28-42 | a day with no meals totals 0; non-negative field values give a non-negative total |
| Health.MacroTotalAppend | src/stores/health.ts:28-42 | appending a meal raises the day's total by its value when it is dated that day, and leaves it alone otherwise |
| Health.TodayCalories | src/stores/health.ts:28-30 | 0 on a day without meals; never negative when no meal has negative calories; with MacroTotalAppend, a meal on the day adds its calories |
| Health.TodayProtein | src/stores/health.ts:32-34 | as TodayCalories, for protein |
| Health.TodayCarbs | src/stores/health.ts:36-38 | as TodayCalories, for carbohydrates |
| Health.TodayFat | src/stores/health.ts:40-42 | as TodayCalories, for fat |
| Health.TodayWaterIntake | src/stores/health.ts:44-48 | a day with no water records totals 0 |
| Health.WaterIntakeAppend | src/stores/health.ts:44-48 | appending a water record raises the day's intake by its amount exactly when it is dated that day |
| Health.TodayWorkout | src/stores/health.ts:50-52 | absent exactly when no workout is dated that day; otherwise the first such workout |
| Health.Progress | src/stores/health.ts:54-60 | every gauge carries its target unchanged; a day without records shows 0 in every gauge; ProgressAfterMeal says how a meal moves it |
| Health.ProgressAfterMeal | src/stores/health.ts:54-60 | a meal on the day moves each macro gauge by the meal's amount, keeps every target and leaves the water gauge alone |
| Health.TwoGlassesOfWater | src/stores/health.ts:109-122 | 500 ml and then 300 ml added to an empty day read back as 800 ml |
| Health.HealthStore.constructor | src/stores/health.ts:9-21 | empty collections, targets 2000/150/200/60/2500, not loading, the cursor on today |
| Health.HealthStore.FetchTodayData | src/stores/health.ts:63-80 | all three fetches ask for the date selected at the start; the collections are replaced only if all three succeed, else none changes |
| Health.HealthStore.FetchWeightHistory | src/stores/health.ts:82-88 | asks for `days` (default 30); success replaces the history, failure keeps it |
| Health.HealthStore.FetchTargets | src/stores/health.ts:90-96 | success replaces the targets, failure keeps them |
| Health.HealthStore.AddMeal | src/stores/health.ts:98-107 | success appends and returns the meal, and the day's calories grow by its calories when it is dated that day; failure rethrows and changes nothing |
| Health.HealthStore.AddWater | src/stores/health.ts:109-122 | sends the selected date, the current time and the amount; success appends and returns the record and raises the day's intake by it; failure rethrows |
| Health.HealthStore.SetSelectedDate | src/stores/health.ts:124-127 | the cursor moves, and the day's data is fetched for the new date |
| Reminders.ListOrEmpty | src/stores/reminders.ts:46-50 | a list missing from the response reads as empty |
| Reminders.AllReminders | src/stores/reminders.ts:17-23 | the five lists one after the other: the length is the sum of theirs, inbox comes first, next follows it, projects comes last |
| Reminders.TotalCount | src/stores/reminders.ts:25 | zero exactly when all five lists are empty; TotalIsSumOfCounts gives its value |
| Reminders.Counts | src/stores/reminders.ts:27-33 | each count is its list's length |
| Reminders.TotalIsSumOfCounts | src/stores/reminders.ts:17-33 | the total count is the sum of the five per-list counts |
| Reminders.UpcomingReminders | src/stores/reminders.ts:35-39 | at most 5 items, all incomplete items of `next`, a prefix of the incomplete ones in order, and all of them when fewer than 5 |
| Reminders.UpcomingSize | src/stores/reminders.ts:35-39 | exactly min(5, number of incomplete items of `next`) items |
| Reminders.IncompleteCount | src/stores/reminders.ts:37 | the filter keeps as many items as are incomplete |
| Reminders.RemindersStore.constructor | src/stores/reminders.ts:8-14 | five empty lists, not loading, never synced |
| Reminders.RemindersStore.GetRemindersByList | src/stores/reminders.ts:72-81 | each of the five names gives its list; any other name gives the empty list |
| Reminders.RemindersStore.FetchAllReminders | src/stores/reminders.ts:42-56 | success sets every list from its key, or empty when the key is missing; failure keeps every list; `loading` ends false |
| Reminders.RemindersStore.SyncWithApple | src/stores/reminders.ts:58-70 | success records the sync time and refetches, swallowing a failed refetch; a failed sync changes nothing and rethrows; `loading` ends false |
| Reminders.AllRemindersByName | src/stores/reminders.ts:17-23 | all reminders are the five lists read back by name, in the fixed order inbox, next, waiting, someday, projects |
| Credentials.CredentialStore.constructor | src/utils/auth.ts:1-3 | storage starts as the page finds it |
| Credentials.CredentialStore.GetToken | src/utils/auth.ts:5-7 | present exactly when the token key is stored, with that value |
| Credentials.CredentialStore.GetRefreshToken | src/utils/auth.ts:13-15 | present exactly when the refresh-token key is stored, with that value |
| Credentials.CredentialStore.SetToken | src/utils/auth.ts:9-11 | only the token key changes; the next read gives the token back and the refresh token is unchanged |
| Credentials.CredentialStore.SetRefreshToken | src/utils/auth.ts:17-19 | only the refresh-token key changes; the next read gives it back and the token is unchanged |
| Credentials.CredentialStore.RemoveTokens | src/utils/auth.ts:21-25 | the three keys are gone and every other key is unchanged |
| Credentials.CredentialStore.IsAuthenticated | src/utils/auth.ts:27-29 | true exactly when a non-empty token is stored |
| Auth.IsAuthenticated | src/stores/auth.ts:14 | true exactly when a user is set and a non-empty token is stored |
| Auth.Username | src/stores/auth.ts:15 | the user's name, or empty when signed out |
| Auth.LoginError | src/stores/auth.ts:29 | never empty: the server's message when it is non-empty, otherwise the fixed default |
| Auth.AuthStore.constructor | src/stores/auth.ts:9-11 | no user, not loading, no error |
| Auth.AuthStore.Login | src/stores/auth.ts:18-34 | returns true exactly on success; success stores both tokens and the user and clears the error; failure records the error and touches neither the user nor the tokens |
| Auth.AuthStore.Logout | src/stores/auth.ts:36-45 | whatever the server answers, the user and the three keys are gone and the session is not authenticated |
| Auth.AuthStore.FetchCurrentUser | src/stores/auth.ts:47-59 | without a token nothing changes; otherwise success sets the user and failure drops the user and the tokens |
| Auth.AuthStore.ClearError | src/stores/auth.ts:61-63 | the error is cleared |
| Toasts.MakeToast | src/composables/useToast.ts:19-24 | the message is kept; a missing type becomes info; a missing or zero duration becomes 3000 |
| Toasts.RemoveKeepsIdsIncreasing | src/composables/useToast.ts:53-58 | splicing one toast out keeps the ids strictly increasing, and its id no longer occurs |
| Toasts.ToastQueue.constructor | src/composables/useToast.ts:13-14 | empty queue, counter at 0 |
| Toasts.ToastQueue.Show | src/composables/useToast.ts:17-35 | pre-increments the counter, appends one toast, and returns its id, which exceeds every earlier id |
| Toasts.ToastQueue.ShowSuccess | src/composables/useToast.ts:37-39 | `show` with type success |
| Toasts.ToastQueue.ShowError | src/composables/useToast.ts:41-43 | `show` with type error |
| Toasts.ToastQueue.ShowWarning | src/composables/useToast.ts:45-47 | `show` with type warning |
| Toasts.ToastQueue.ShowInfo | src/composables/useToast.ts:49-51 | `show` with type info |
| Toasts.ToastQueue.Remove | src/composables/useToast.ts:53-58 | splices out the first toast with the id, or changes nothing; afterwards no toast has that id |
| Toasts.ToastQueue.Clear | src/composables/useToast.ts:60-62 | empties the queue and keeps the counter |
| Format.NatToDecimal | src/utils/format.ts:53 | the decimal text of a number: non-empty, all digits, no leading zero |
| Format.DecimalRoundTrip | src/utils/format.ts:53 | reading the decimal text back gives the number |
| Format.IntToDecimal | src/utils/format.ts:53 | `${n}` for an integer: non-empty, a leading minus exactly for a negative number, digits after it |
| Format.FormatDuration | src/utils/format.ts:51-61 | the text always ends in a unit, minutes below an hour; its value is fixed by DurationRoundTrip, and its shape by WholeHours and HoursAndMinutes |
| Format.HoursAndMinutes | src/utils/format.ts:55-60 | an hour or more with a non-zero remainder renders as `{h}小时{r}分钟` |
| Format.DurationRoundTrip | src/utils/format.ts:51-61 | every non-negative duration text reads back as its minutes, so the hour/minute split loses nothing |
| Format.ParseMinutes | src/utils/format.ts:52-53 | `{n}分钟` reads back as `n` |
| Format.ParseHours | src/utils/format.ts:57-58 | `{h}小时` reads back as 60·h minutes |
| Format.ParseHoursAndMinutes | src/utils/format.ts:60 | `{h}小时{m}分钟` with m < 60 reads back as 60·h + m |
| Format.WholeHours | src/utils/format.ts:55-58 | a whole number of hours renders with no minutes part |
| Format.SlicePrefix | src/utils/format.ts:68 | `slice(0, end)`, where a negative end counts back from the end |
| Format.Truncate | src/utils/format.ts:66-69 | text no longer than the limit is unchanged; longer text becomes a prefix of it plus "...", exactly `length` + 3 characters when the limit is non-negative |
| Format.Split | src/utils/format.ts:76 | `split(' ')`: at least one piece, none containing a space |
| Format.SplitJoin | src/utils/format.ts:76 | joining the pieces with spaces gives the text back |
| Format.Join | src/utils/format.ts:76 | `words.join(' ')`, the reference inverse of `split(' ')` and not a call in the source: the text starts with the first piece, and SplitJoin proves `Join(Split(s)) == s` |
| Format.FirstChars | src/utils/format.ts:77-78 | `map(word => word[0]).join('')`: at most one character per piece; FirstCharsAreWordStarts says which |
| Format.WordStarts | src/utils/format.ts:77 | the characters that start a word come from the name and are not spaces |
| Format.FirstCharsAreWordStarts | src/utils/format.ts:76-78 | the first characters of the pieces are exactly the characters that start a word |
| Format.ToUpper | src/utils/format.ts:79 | same length, each ASCII letter upper-cased |
| Format.GetInitials | src/utils/format.ts:74-81 | at most two characters: the upper-cased first characters of the first one or two words |
| Router.PageTitle | src/router/index.ts:97-98 | a non-empty title gets the site suffix; otherwise the default title |
| Router.RequiresAuth | src/router/index.ts:101 | true exactly when some matched record does not set `requiresAuth` to false |
| Router.BeforeEach | src/router/index.ts:95-110 | sets the page title; redirects to Login with the full path exactly when the target is protected and no token is stored; sends Login to the Dashboard when a token is stored; proceeds otherwise |
| Router.EmptyMatchIsPublic | src/router/index.ts:101-104 | a target that matched no record never redirects to Login |
| Router.LoginRoute | src/router/index.ts:7-10 | the Login page opens without a token and redirects to the Dashboard with one |
| Router.UnknownPathNeedsLogin | src/router/index.ts:74-79 | the catch-all NotFound route sets no `requiresAuth`, so an unknown path without a token goes to Login |
| Router.DashboardNeedsLogin | src/router/index.ts:12-22 | the Dashboard is protected through its layout's record |
| Router.ScrollBehavior | src/router/index.ts:85-91 | the saved position when there is one, otherwise the top |

## Left out

- Network and I/O: the API modules under src/api, axios and its interceptors, and the 401 handling are not part of this model. Each remote call is a parameter or a function of its request.
- Auth.AuthStore.Login: a failure with HTTP status 401 also clears the three storage keys through the response interceptor (src/api/index.ts:34-36). So "failure touches neither the user nor the tokens" holds only for failures other than 401. The same applies to `fetchCurrentUser`, where a failure clears the keys anyway.
- Health.MacroTotal: JavaScript `number` fields are unbounded integers in the model. This covers meal calories, protein, carbs and fat, the water `amount`, the item `quantity`, `minQuantity` and `replacementCycle`, and toast ids and durations. Fractional values (a meal with 12.5 g of protein), floating-point rounding in the `reduce` sums, and `NaN` from a missing field are not modelled. The exact sums of `Seqs.SumOf`, `Health.MacroTotalAppend`, `Health.WaterIntakeAppend` and `Health.HealthStore.AddMeal` hold for integer-valued fields only.
- In-place update: `push` (src/stores/inventory.ts:70, src/stores/health.ts:101 and 116), the indexed overwrite (src/stores/inventory.ts:84, 110 and 124) and `splice` (src/composables/useToast.ts:56) change the array in place; the model assigns a new sequence to the field. Aliasing is therefore not modelled: a caller still holding the old array, such as the `items.value` that `filteredItems` returns when no category is selected (src/stores/inventory.ts:20), sees the change in the program but keeps the old value in the model.
- `console.error` logging in the catch blocks is dropped.
- Concurrency: actions are atomic. The interleaving of overlapping async actions and of `Promise.all` is not modelled. `FetchTodayData` treats the three fetches as all-or-nothing, as `Promise.all` does.
- `setSelectedDate` does not await its fetch. The model runs the fetch to completion inside the call.
- Health.HealthStore.SetSelectedDate: does not model the window in which the new date is set but the old data is still shown.
- The toast auto-dismiss timer (`setTimeout` → `remove`) is not modelled. A toast leaves only through `Remove` or `Clear`.
- Clocks: the current time enters as a parameter. This is `now` in milliseconds for the inventory views. The views `expiringItems` and `itemsNeedingReplacement` are computed values whose only reactive dependency is `items`, so `now` is the time of their last re-evaluation after `items` last changed, not the time of each read. For `addWater` it is `now` as a string, sent as the record's `time`. Date-string parsing (`new Date(...)`) is not modelled: expiry and last-replaced dates are already-parsed millisecond timestamps. Health and reminder dates are opaque strings compared for equality.
- src/utils/date.ts is not part of this model. `getToday` becomes the constructor argument `today`.
- The float formatters `formatNumber`, `formatCalories`, `formatWater`, `formatGrams`, `calcPercent` and `formatPercent` are left out, because they depend on floating point and `toFixed`.
- Inventory.InventoryStore.FetchItems: the optional `category` argument is only forwarded to the server. The model takes the fetched list as given.
- Request payloads of addItem, updateItem, markPurchased and addMeal are passed straight to the server. The model takes the server's answer as the outcome.
- Format.FormatDuration: models integer minutes only. A fractional or non-finite JavaScript number is out of scope.
- Format.IntToDecimal: does not model the exponent form JavaScript uses for numbers of 1e21 and above.
- Format.ToUpper: upper-cases ASCII letters only. Full Unicode case mapping (which can change length) is not modelled.
- Format: strings are sequences of characters, not UTF-16 code units. `word[0]` and `length` on astral characters are not modelled.
- Router: the guard receives the already merged `to.meta`, the matched records' metas and the stored token. The route table's components, lazy imports and history are not modelled. Four route records appear as constants: Login, the main layout, Dashboard and NotFound.
- Loading flags of actions that never set them (add, update, delete and mark actions) are stated unchanged. The `true` phase in the middle of an action is not observable in an atomic model.

Three behaviours of the code worth knowing:
- A replacement cycle of 0 is falsy in `!item.replacementCycle`, so such an item is never due (`Inventory.ZeroCycleNeverDue`).
- Adding 500 ml and then 300 ml of water to an empty day gives 800 ml (`Health.TwoGlassesOfWater`).
- `deleteItem` removes every item with the given id. It removes exactly one item only when ids are unique (`Inventory.DeleteRemovesOne`, whose precondition is unique ids).
