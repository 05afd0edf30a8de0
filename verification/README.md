# Finance-Flow in Dafny

A model of the core of Finance-Flow, a personal expense tracker. Its Cloudflare worker
stores expenses and categories, converts every amount to Indian rupees (INR) with a fixed
rate table, and serves three analytics endpoints: spending by category, daily spending
trends and monthly insights. Its React client holds the data in hooks, derives tips
from the analytics, and draws a dashboard, an expense list, an add-expense form and a
budget planner.

The model is functional. Every handler and every state update is a pure function of its
inputs. The database rows an SQL query returns, the current month, the age of a date in
days, the weekday of a date, a date's time in milliseconds, today's date and the outcome
of a network call are all parameters. Amounts are `real`.

Modules:

- `Base`, `Seqs`, `Sorting`, `RealArith`: `Option`/`Result`, sequence folds, a stable
  descending sort, and the real-arithmetic facts the percentages need.
- `JsObject`: a plain JavaScript object used as a dictionary. It is an insertion-ordered key
  list plus a map. Writing a new key appends it, and writing an existing key keeps its place.
  `Object.entries`, `Object.values` and `Object.keys` follow that order.
- `Grouping`: the "create the key if missing, then add" loop that all three analytics
  handlers use. It is stated against reference definitions (`SumFor`, `CountFor`, `Dedup`).
- `Currency`: `EXCHANGE_RATES` and `toINR`.
- `Schemas`: the record types, the zod request validators and `DEFAULT_CATEGORIES`.
- `Seeding`: default categories are inserted on the first `GET /api/expenses`.
- `ByCategory`, `Trends`, `MonthlyInsights`: the three analytics endpoints.
- `UseApi`: `apiCall` and the hooks' state updates.
- `InsightsPanel`, `Dashboard`, `AnalyticsDashboard`, `ExpenseList`, `ExpenseForm`,
  `BudgetPlanner`: what the client components compute from their props and state.

## Model

| member | source | states |
|---|---|---|
| Currency.ToINR | src/worker/index.ts:2-15 | A missing code, an empty code or an unlisted code leaves the amount unchanged. A listed code multiplies the amount by its rate. The sign of the amount is kept. |
| Currency.RatesArePositive | src/worker/index.ts:2-10 | INR converts at 1, and every listed rate is positive, so the falsy-rate branch never applies to a listed code. |
| Schemas.ParseExpense | src/shared/types.ts:3-13 | A stored expense parses exactly when every field except `currency` is present, and then the record is exactly those fields, with `currency` passed through as optional. |
| Schemas.ValidateCreateExpense | src/shared/types.ts:15-21 | A request is accepted iff the amount is positive and description, category and date are non-empty. It is then passed through unchanged. On rejection each message is reported iff its own rule fails. |
| Schemas.ValidateCreateCategory | src/shared/types.ts:33-37 | Accepted iff name and colour are non-empty. Each rejection message appears iff its rule fails. |
| Schemas.ValidateCreateBudget | src/shared/types.ts:50-55 | Accepted iff the category is named, the amount is positive, the month is in 1..12 and the year is at least 2020. The category and amount messages match their rules. |
| Schemas.DefaultCategoriesShape | src/shared/types.ts:64-74 | Nine defaults with pairwise distinct names, "Other" last, and every colour non-empty. |
| Schemas.DefaultNamesNonEmpty | src/shared/types.ts:64-74 | No default category has an empty name. |
| Seeding.RowsOfAppend | src/worker/index.ts:56-67 | A user's rows in a store that has grown are their old rows followed by their new ones. |
| Seeding.SeedDefaultsSpec | src/worker/index.ts:56-67 | A user with no category ends with exactly the nine defaults, in order, each row owned by the user with the default's name, colour and icon. A user with any category keeps the store unchanged. Other users' rows and all existing rows are untouched. |
| Seeding.SeedDefaultsIdempotent | src/worker/index.ts:56-67 | Seeding a second time changes nothing. |
| JsObject.Put | src/worker/index.ts:141 | Assigning `obj[k] = v` sets `k`, leaves every other key's value unchanged, and appends `k` to the key order only when it is new. |
| JsObject.PutValuesSum | src/worker/index.ts:151 | Overwriting one key changes the sum of the values by exactly the new value minus the old one. |
| Grouping.GroupSumsKeys | src/worker/index.ts:177-178 | After grouping, the keys are the initial keys followed by each new item key once, in first-occurrence order. |
| Grouping.GroupSumsValue | src/worker/index.ts:177-178 | Each key's grouped value is its initial value plus the sum of the amounts filed under it. |
| Grouping.GroupedEntries | src/worker/index.ts:180 | From an empty object, the entries are the distinct keys in first-occurrence order, each with its own sum. |
| Grouping.GroupSumsTotal | src/worker/index.ts:171-179 | Grouping conserves money: the values add up to the initial values plus all amounts. |
| Grouping.TotalIsSum | src/worker/index.ts:195-214 | A running `+=` total equals the plain sum of the amounts. |
| ByCategory.SeedBucketsShape | src/worker/index.ts:140-142 | Distinct names start as empty buckets, in list order. |
| ByCategory.GroupBucketsKeys | src/worker/index.ts:143-154 | The bucket order is the seeded names followed by each new category once, in first-occurrence order. |
| ByCategory.GroupBucketsValue | src/worker/index.ts:148-153 | Each bucket's total, count and number of pushed amounts grow by exactly that category's rupee sum and row count. |
| ByCategory.GroupBucketsTotal | src/worker/index.ts:143-154 | The bucket totals add up to the initial totals plus every converted amount. |
| ByCategory.UnsortedOrder | src/worker/index.ts:138-154 | Before sorting, the nine defaults come first in list order, then each other category once. |
| ByCategory.UnsortedFromBuckets | src/worker/index.ts:155-159 | Every response entry's count and total are its category's row count and rupee sum. Its average is the total over the count, or 0 without rows. |
| ByCategory.SpendingByCategoryBuckets | src/worker/index.ts:138-160 | The response names each category at most once. It contains every default and every category that has a row, and no other category. |
| ByCategory.SpendingByCategoryValues | src/worker/index.ts:143-159 | In the sorted response each entry's count, total and average are those of its category. |
| ByCategory.SpendingByCategoryConserves | src/worker/index.ts:131-162 | The response's totals add up to the rupee sum of all rows. |
| ByCategory.SpendingByCategoryOrder | src/worker/index.ts:155-160 | The response is sorted by descending total. The sort is stable: equal totals keep their bucket order. |
| ByCategory.SingleAverage | src/worker/index.ts:143-159 | A bucket of the response that holds exactly one expense has count 1 and an average equal to its total. |
| ByCategory.OneDollarExpenseScenario | src/worker/index.ts:131-162 | One 100 USD "Food" row yields a Food entry of 8300 rupees, count 1, average 8300. |
| Sorting.SortDesc | src/worker/index.ts:160 | The sort returns a permutation of its input, ordered by descending key. |
| Sorting.SortDescStable | src/worker/index.ts:160 | For every key value, the elements with that key keep their relative order. |
| Sorting.SortDescKeySum | src/worker/index.ts:160 | Sorting keeps the sum of the keys. |
| Sorting.SortDescDistinctBy | src/worker/index.ts:160 | Sorting keeps names distinct. |
| Trends.SpendingTrendsDays | src/worker/index.ts:171-180 | One point per distinct day of the rows, in first-occurrence order. |
| Trends.SpendingTrendsTotals | src/worker/index.ts:172-179 | Each point's total is the rupee sum of that day's rows. |
| Trends.SpendingTrendsConserves | src/worker/index.ts:164-182 | The points' totals add up to the rupee sum of all rows. |
| Trends.SpendingTrendsAscending | src/worker/index.ts:167 | When the rows come in day order, as `ORDER BY day` delivers them, the points are in strictly ascending day order. |
| Trends.SpendingTrendsEmpty | src/worker/index.ts:180 | No rows give no points. |
| Trends.SameDayScenario | src/worker/index.ts:171-180 | 100 INR and 2 USD on the same day give a single point of 266 rupees. |
| MonthlyInsights.MonthKey | src/worker/index.ts:205 | The month key is the first seven characters of the date, or the whole date when it is shorter. |
| MonthlyInsights.AccumulateMonths | src/worker/index.ts:205-214 | The two monthly totals are the rupee sums of the rows dated in each month. |
| MonthlyInsights.AccumulateByCategory | src/worker/index.ts:206-211 | `topCategoryMap` is the current-month rows grouped by category. |
| MonthlyInsights.AccumulateDaily | src/worker/index.ts:216-221 | `dailyTotals` is the rows at most 30 days old grouped by date. |
| MonthlyInsights.SelectTopSpec | src/worker/index.ts:225-231 | The top amount is non-negative and at least every entry. No top exists iff no entry is positive. Otherwise the top is the first entry with the largest amount. |
| MonthlyInsights.ChangePercent | src/worker/index.ts:243 | Without a positive previous month the change is 0. Otherwise it is the relative change in percent, positive iff spending rose and 0 iff unchanged. |
| MonthlyInsights.InsightsMonthTotals | src/worker/index.ts:237-244 | The response carries the two monthly sums and their change percentage. |
| MonthlyInsights.TopCategoryEntries | src/worker/index.ts:226 | The entries scanned for the top are this month's categories, in first-occurrence order, with their totals. |
| MonthlyInsights.InsightsTopCategoryMax | src/worker/index.ts:224-231 | The reported top amount is at least every current-month category total. It is non-negative. No top category is named iff no total is positive. |
| MonthlyInsights.InsightsTopCategoryFirst | src/worker/index.ts:224-231 | A named top category is the first current-month category whose total equals the reported maximum. |
| MonthlyInsights.InsightsAverageDaily | src/worker/index.ts:233-235 | The daily average is the total of the last 30 days' rows over the number of distinct dates among them, and 0 when there is no such row. |
| MonthlyInsights.InsightsOfNothing | src/worker/index.ts:195-244 | No expenses give all-zero insights and no top category. |
| MonthlyInsights.TwoMonthScenario | src/worker/index.ts:184-246 | 80 rupees this month against 40 last month is a 100% rise, with the larger category on top. |
| UseApi.ApiCall | src/react-app/hooks/useApi.ts:10-24 | The body is returned iff the response is ok. Otherwise the call fails with "API call failed: " and the status text. |
| UseApi.Fetch | src/react-app/hooks/useApi.ts:34-44 | Loading always ends. Fetched data replaces the state on success, and the old state stays on failure. |
| UseApi.AddExpense | src/react-app/hooks/useApi.ts:46-58 | A created expense goes in front of the list and is returned. A failure rethrows and leaves the list. |
| UseApi.WithoutIdMembers | src/react-app/hooks/useApi.ts:63 | The filter keeps an expense iff it was in the list and has another id. |
| UseApi.DeleteExpense | src/react-app/hooks/useApi.ts:60-68 | A successful delete removes every expense with that id. A failure rethrows and leaves the list. |
| UseApi.DeleteUndoesAdd | src/react-app/hooks/useApi.ts:46-68 | Deleting an expense just added under a fresh id restores the list. |
| UseApi.AddCategory | src/react-app/hooks/useApi.ts:100-112 | A created category is appended and returned. A failure rethrows and leaves the list. |
| UseApi.FetchAnalytics | src/react-app/hooks/useApi.ts:131-150 | The three responses are stored together only when all succeed. Otherwise the old analytics stay. Loading ends either way. |
| InsightsPanel.GapDaysTelescopes | src/react-app/components/InsightsPanel.tsx:111-115 | The summed gaps between consecutive times equal the first minus the last, in days. |
| InsightsPanel.AverageSpendingFrequencySpan | src/react-app/components/InsightsPanel.tsx:107-118 | Fewer than two expenses give 7. Otherwise the result is the span from earliest to latest in days over the number of gaps. It is never negative. |
| InsightsPanel.SplitTotalsCover | src/react-app/components/InsightsPanel.tsx:121-133 | The weekend and weekday totals together are the sum of all raw amounts. |
| InsightsPanel.Percents | src/react-app/components/InsightsPanel.tsx:135-139 | With a positive total the two shares add up to 100, and the weekend share exceeds 60 iff weekend spending exceeds 60% of the total. Otherwise both are 0. |
| InsightsPanel.AnalyzeWeekdaySpendingShares | src/react-app/components/InsightsPanel.tsx:120-140 | Over a positive raw total the shares add up to 100, and otherwise both are 0. |
| InsightsPanel.TrendTip | src/react-app/components/InsightsPanel.tsx:30-48 | A high-spending alert iff the change exceeds 20%, and a saving tip iff it is below -10%. Nothing in between. |
| InsightsPanel.ConcentrationTipIff | src/react-app/components/InsightsPanel.tsx:51-65 | The concentration tip appears iff a top category is named, the list is non-empty and its first total exceeds 40% of the sum. A zero sum counts as exceeding iff the first total is positive. |
| InsightsPanel.ExceedsFortyPercentMeaning | src/react-app/components/InsightsPanel.tsx:54-56 | Over a positive sum, "more than 40 percent" means 100 times the part exceeds 40 times the sum. |
| InsightsPanel.FrequencyTipIff | src/react-app/components/InsightsPanel.tsx:68-79 | The frequent-spending tip appears iff the first ten expenses have at least two dates spanning less than one day per gap. |
| InsightsPanel.DailyTip | src/react-app/components/InsightsPanel.tsx:94-102 | At most one tip: the high-daily-average warning iff the average daily spending exceeds 100, nothing otherwise. |
| InsightsPanel.WeekendTipIff | src/react-app/components/InsightsPanel.tsx:82-91 | The weekend tip appears iff the raw total is positive and weekend spending exceeds 60% of it. |
| InsightsPanel.WeekendTipNeedsWeekend | src/react-app/components/InsightsPanel.tsx:82-91 | Without a weekend expense there is no weekend tip. |
| InsightsPanel.GenerateInsightsNothing | src/react-app/components/InsightsPanel.tsx:24 | Without analytics or without expenses there are no tips. |
| InsightsPanel.GenerateInsightsOrder | src/react-app/components/InsightsPanel.tsx:23-105 | The tips come in rule order. There are at most five, so the cut to six drops none. |
| InsightsPanel.Panel | src/react-app/components/InsightsPanel.tsx:11-21 | Loading shows the dots. Otherwise "No insights available yet" appears iff there are no tips, and the cards show exactly the tips. |
| Dashboard.LocalToINRAgrees | src/react-app/pages/Dashboard.tsx:29-41 | The page's own rate table and `toINR` convert exactly as the worker's do. |
| Dashboard.TotalSpent | src/react-app/pages/Dashboard.tsx:42 | With non-negative amounts the total spent is non-negative. |
| Dashboard.TotalSpentIsSum | src/react-app/pages/Dashboard.tsx:42 | The total spent is the rupee sum of every expense. |
| Dashboard.TotalSpentAfterAdd | src/react-app/pages/Dashboard.tsx:42 | A successful add raises the total by the new expense's rupee value. A failed one leaves the total unchanged. |
| Dashboard.RecentAndViewAll | src/react-app/pages/Dashboard.tsx:43 | The recent list is the first min(5, n) expenses. "View All" shows iff that list leaves an expense out. |
| Dashboard.Page | src/react-app/pages/Dashboard.tsx:17-43 | The loading screen shows iff either list loads. The overview shows the rupee total, the first five expenses, and the button iff some expense is not listed. |
| AnalyticsDashboard.ColorMapOf | src/react-app/components/AnalyticsDashboard.tsx:27-29 | The colour map's keys are exactly the seeds' names. |
| AnalyticsDashboard.CategoryColorMapDefaults | src/react-app/components/AnalyticsDashboard.tsx:27-29 | The colour map holds exactly the nine default names, each with its own colour. |
| AnalyticsDashboard.ColorFor | src/react-app/components/AnalyticsDashboard.tsx:58 | An unknown category is grey, and a known one with a colour gets that colour. |
| AnalyticsDashboard.ColorForDefault | src/react-app/components/AnalyticsDashboard.tsx:58 | Every default category is drawn in its listed colour. |
| AnalyticsDashboard.ColorForOther | src/react-app/components/AnalyticsDashboard.tsx:58 | Every non-default category is grey. |
| AnalyticsDashboard.BarsMembers | src/react-app/components/AnalyticsDashboard.tsx:190-192 | A row is drawn as a bar iff it is in the data with a positive total. |
| AnalyticsDashboard.BarsAppend | src/react-app/components/AnalyticsDashboard.tsx:192 | The filter distributes over concatenation, so the bars keep the data's order. |
| AnalyticsDashboard.BarsOfSortedArePrefix | src/react-app/components/AnalyticsDashboard.tsx:205-218 | For data sorted by descending total the bars are a prefix of the data. So the label colour read from `categoryData[index]` is the colour of bar `index`. |
| AnalyticsDashboard.CategoryDataOfResponseSorted | src/react-app/components/AnalyticsDashboard.tsx:56-60 | Chart rows built from the worker's response are sorted by descending total. |
| AnalyticsDashboard.Dashboard | src/react-app/components/AnalyticsDashboard.tsx:32-60 | Loading shows the dots. Then "No data available" shows iff there are no analytics. Otherwise the charts show, with a missing list read as empty. |
| AnalyticsDashboard.DashboardAfterFetch | src/react-app/hooks/useApi.ts:131-150 | After a fetch whose three calls all succeed the dashboard draws the fetched lists. After a failed fetch it draws what the old analytics gave. |
| ExpenseList.FindByName | src/react-app/components/ExpenseList.tsx:12 | `find` fails iff no category has the name, and otherwise returns the first match. |
| ExpenseList.CategoryColor | src/react-app/components/ExpenseList.tsx:11-14 | Without a category of that name the badge is grey. Any other colour comes from a category of that name. |
| ExpenseList.CategoryColorOfFirst | src/react-app/components/ExpenseList.tsx:11-14 | The first category of that name decides: its colour, or grey when it has none. |
| ExpenseList.CategoryColorIgnoresLater | src/react-app/components/ExpenseList.tsx:11-14 | Appending a later category of the same name never changes a badge's colour. |
| ExpenseList.AddCategoryKeepsColors | src/react-app/hooks/useApi.ts:100-112 | Adding a category, whatever the server answers, never recolours an expense whose category name was already listed. |
| ExpenseList.CurrencyPrefix | src/react-app/components/ExpenseList.tsx:49 | "₹" iff the currency is missing, empty or INR. "$" iff it is USD. Otherwise the code followed by a space. |
| ExpenseList.CurrencyPrefixShowsCode | src/react-app/components/ExpenseList.tsx:68 | For any other code the prefix shows the whole code, then a space. |
| ExpenseList.List | src/react-app/components/ExpenseList.tsx:25-49 | The empty state shows iff there are no expenses. Otherwise there is one row per expense, in order, with its badge colour and prefix. |
| ExpenseForm.CurrencyCodesHaveRates | src/react-app/components/ExpenseForm.tsx:13-21 | The selectable currencies are exactly the worker's rated currencies. |
| ExpenseForm.InitialFormSendsNothing | src/react-app/components/ExpenseForm.tsx:24-35 | The form as first rendered fails the submit guard: submitting it sends nothing and changes nothing. |
| ExpenseForm.Submit | src/react-app/components/ExpenseForm.tsx:33-59 | An incomplete form sends nothing and changes nothing. Otherwise the body is sent and loading ends. Success clears the fields, resets the date to today, keeps the currency and closes the form. Failure keeps the fields. |
| ExpenseForm.SubmitPayloadAccepted | src/react-app/components/ExpenseForm.tsx:35-45 | A body that passes the form's guard is accepted by the worker iff the parsed amount is positive and the date is set. |
| ExpenseForm.SubmitTwiceSendsOnce | src/react-app/components/ExpenseForm.tsx:35-52 | After a successful submit a second submit sends nothing. |
| ExpenseForm.CategoryOptionsMembers | src/react-app/components/ExpenseForm.tsx:126-130 | A name is offered after the placeholder iff it is one of the user's category names, or, when the user has none, a default name. |
| ExpenseForm.PlaceholderSendsNothing | src/react-app/components/ExpenseForm.tsx:35-125 | The first option of the selector, "Select a category", has an empty value, so a form left on it sends nothing. |
| ExpenseForm.CategoryOptionsNonEmpty | src/react-app/components/ExpenseForm.tsx:125-130 | After the placeholder the selector offers at least one category, and nine non-empty default names when the user has none. |
| BudgetPlanner.GridFor | src/react-app/components/BudgetPlanner.tsx:23-26 | The built grid has an entry for exactly the listed names, each a blank four-by-seven grid. |
| BudgetPlanner.FreshGridShape | src/react-app/components/BudgetPlanner.tsx:20-28 | A fresh grid covers every spending and saving name with 4 weeks of 7 boxes, none checked. |
| BudgetPlanner.InitialGridTargets | src/react-app/components/BudgetPlanner.tsx:8-28 | The planner's own fresh grid holds exactly its seven targets. |
| BudgetPlanner.HabitCheck | src/react-app/components/BudgetPlanner.tsx:32-41 | Checking a category without an entry throws. Otherwise exactly the addressed box flips, when it exists. Every other box, every other category, the key order and the grid's shape stay unchanged. |
| BudgetPlanner.HabitCheckTwice | src/react-app/components/BudgetPlanner.tsx:32-41 | Checking the same box twice restores the grid. |
| BudgetPlanner.SetTarget | src/react-app/components/BudgetPlanner.tsx:42-47 | Editing a target sets that key and keeps every other key and the listing order. A new name is added last. |
| BudgetPlanner.SetTargetLastWins | src/react-app/components/BudgetPlanner.tsx:42-47 | A later edit of the same target overrides an earlier one. |

## Left out

- HTTP routing, CORS, JSON encoding and the Hono/zod plumbing of the worker. The validators are modelled on already-typed records.
- `ExpenseSchema` (src/shared/types.ts:3-13) is only used for its inferred type `ExpenseType` (line 57); no code calls its `parse`. `Schemas.ParseExpense` states what that type promises of a stored row, not a runtime check.
- SQL execution. The rows a query returns are inputs. Its `WHERE` filters (the user, the last 30 days) and its `ORDER BY` are assumptions about those rows. `Trends.SpendingTrendsAscending` assumes the day order as a precondition.
- Store-assigned ids and timestamps (`last_row_id`, `datetime('now')`), and the race between two concurrent first requests that could both seed the defaults.
- Dates and clocks. The current and previous month, a date's age in days, its weekday and its time in milliseconds are parameters. Time zones and `toISOString` are not modelled.
- Floating point. Amounts are exact reals, and rounding, `toFixed`, `Math.round` and `toLocaleString` are left out. The worker's `Number(...)`, the form's `parseFloat` and the planner's `Number(value)` are given as values or parameters. NaN is left out, except for the division by zero in the concentration tip.
- JavaScript object keys that look like array indices, which `Object.entries` lists first, and prototype keys such as "toString". Every key is treated as an ordinary string key in insertion order.
- React rendering, `useEffect`, `Promise.all` timing, icons, recharts layout and the tips' description texts. A tip is modelled by its kind and title.
- The budget planner's `localStorage` round trip. A saved grid is taken as given, and only the grid built when nothing is saved is modelled.
- InsightsPanel.TrendTip: the `monthOverMonthChange !== undefined` guard is not modelled, because the worker always sends the field.
- The static pages `Home.tsx` and `App.tsx`, and the build configuration.
