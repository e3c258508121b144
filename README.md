# Dashboard analytics: a Dafny model

This project models the admin dashboard analytics of an e-commerce backend
(`dist/controllers/stats.js`). There are four report endpoints, and each one
follows the same three steps:

1. Look in a process-wide cache under a fixed key (`admin-stats`,
   `admin-pie-charts`, `admin-bar-charts`, `admin-line-charts`).
2. On a miss, fold the record store's answers (lists of orders, products and
   users, plus document counts) into a report.
3. Store the report under the key and return it.

Layout:

- `records.dfy`: orders, products and users as datatypes. A field that may be
  missing is an `Option<int>`. `OrZero` is JavaScript's `x || 0`.
- `folds.dfy`: the `reduce` sums. `Reduce` is the left fold exactly as the
  source writes it. `Sum` is an independent reference total. This file also
  holds the `filter(...).length` age counts.
- `features.dfy`: the interface of the three utility helpers
  (`calculatePercentage`, `getChartData`, `getInventories`). Their bodies
  are not part of this model, so each report receives them as function values.
- `reports.dfy`: the report shapes, and the `Report` values the cache holds.
- `builders.dfy`: the four report builders as pure functions of the query
  results.
- `cache.dfy`: the cache. It has a specification function `Serve` for one
  has/get or compute/set step, and a `Cache` class whose `map` field the
  methods update.
- `controllers.dfy`: the four endpoints as methods over a shared `Cache`.

## Model

| member | source | states |
|---|---|---|
| `Folds.ReduceIsSum` | dist/controllers/stats.js:84-92 | Each `reduce((acc, o) => acc + (o.total \|\| 0), 0)` revenue equals the reference total, with a missing total counted as 0. |
| `Folds.SumPermutation` | dist/controllers/stats.js:178-181 | A sum over orders does not depend on the order in which the store returns the documents. |
| `Folds.CountBracket` | dist/controllers/stats.js:192-194 | A `filter(...).length` age count never exceeds the number of users. |
| `Folds.BracketsPartition` | dist/controllers/stats.js:191-195 | The brackets `< 20`, `>= 20 && < 40` and `>= 40` are pairwise disjoint. A defined age lies in one of them. An undefined age lies in none. |
| `Folds.AgePartition` | dist/controllers/stats.js:191-195 | teen + adult + old equals the number of users whose age is defined. |
| `Folds.AllAged` | dist/controllers/stats.js:191-195 | When every user has an age, the defined-age count is the whole list. |
| `Builders.LatestTransactions` | dist/controllers/stats.js:115-121 | The reshaped list has the input's length and order. Entry i is order i reshaped: `_id`, `discount` and `status` copied, `amount` = `total`, `quantity` = number of `orderItems`. |
| `Builders.BuildDashboard` | dist/controllers/stats.js:84-132 | `changePercent` calls the percentage helper with this month first and last month second, on summed revenue and on list lengths. `count.revenue` is the all-time total. `count.order` is the number of orders. User and product counts pass through. The two 6-month charts use the same orders, one as a count and one summing `total`. male + female = users, and female is the female count. |
| `Builders.DashboardBounds` | dist/controllers/stats.js:66-114 | When the female count is at most the user count and the `.limit(4)` query returns at most 4 orders, `male` is non-negative and at most 4 transactions are listed. |
| `Builders.DashboardRevenueOrderFree` | dist/controllers/stats.js:92-97 | `count.revenue` is the same for any ordering of the same orders. |
| `Builders.MarketingCost` | dist/controllers/stats.js:182 | `Math.round(gross * 0.3)`: 30% of gross income, rounded half up (10m <= 3g + 5 < 10m + 10). |
| `Builders.Distribute` | dist/controllers/stats.js:178-190 | discount, productionCost and burnt are the totals of `discount`, `shippingCharges` and `tax`, each missing value counted as 0. marketingCost is 30% of gross, rounded half up. netMargin + discount + productionCost + burnt + marketingCost = gross income. |
| `Builders.AgeGroups` | dist/controllers/stats.js:191-195 | `teen`, `adult` and `old` (`senior` here) count the users aged `< 20`, `>= 20 && < 40` and `>= 40`. Together they add up to the number of users with a defined age. |
| `Builders.AgeGroupsCoverAll` | dist/controllers/stats.js:191-195 | When every user has an age, teen + adult + old = number of users. |
| `Builders.BuildPie` | dist/controllers/stats.js:165-207 | The status counts and the admin/customer counts pass through. The categories come from `getInventories(categories, productsCount)`. inStock + outOfStock = productsCount. The revenue distribution is `Distribute` of all orders, so each part sums its own field and the parts add up to the gross income. The age groups are `AgeGroups` of all users, one bracket per field, and add up to the number of aged users. |
| `Builders.BuildBar` | dist/controllers/stats.js:249-268 | Products and users use length 6. Orders use length 12. All three are counts over `createdAt`-only documents. With a helper that honours the requested length, the series have lengths 6, 6 and 12. |
| `Builders.BuildLine` | dist/controllers/stats.js:296-323 | Every series uses length 12. Products and users are counts. Discount and revenue sum `discount` and `total` over the same orders. With a length-honouring helper, every series has length 12. |
| `ReportCache.KeysDistinct` | dist/controllers/stats.js:9-11 | The four builders' keys (lines 9, 142, 217, 278) are pairwise distinct. |
| `ReportCache.Serve` | dist/controllers/stats.js:10-133 | On a hit, the stored report is returned and nothing is written. On a miss, the computed report is returned and stored under the key. Afterwards the key holds the returned report. No other key is added, removed or changed. |
| `ReportCache.ServeAgain` | dist/controllers/stats.js:10-11 | A second call with no invalidation in between returns the identical report and writes nothing, even if the store's data changed. |
| `ReportCache.ServeOtherKey` | dist/controllers/stats.js:142-144 | Another builder's call in between does not change what a cached builder returns. |
| `ReportCache.ServeAfterDelete` | dist/controllers/stats.js:10-12 | Once `Cache.Del` has removed the key (the same `KeySet` of the deleted keys), the next call recomputes and stores the new report. |
| `ReportCache.ServeKeepsWellKeyed` | dist/controllers/stats.js:133 | Storing a builder's own kind of report under its key keeps every dashboard key holding its builder's kind. |
| `ReportCache.Cache.Has` | dist/controllers/stats.js:10 | `has(key)` is true exactly when the key is stored. |
| `ReportCache.Cache.Get` | dist/controllers/stats.js:11 | `get(key)` returns the stored report, or nothing when the key is absent. |
| `ReportCache.Cache.Set` | dist/controllers/stats.js:133 | `set(key, v)` binds the key to v and leaves every other entry unchanged. |
| `StatsController.GetDashboardStats` | dist/controllers/stats.js:7-139 | The endpoint's result and new cache state are `Serve` under `admin-stats` of the summary report. A well-kinded cache stays well-kinded, and the result is a summary report. |
| `StatsController.GetPieCharts` | dist/controllers/stats.js:140-214 | The same, under `admin-pie-charts`, with the pie report. |
| `StatsController.GetBarCharts` | dist/controllers/stats.js:215-275 | The same, under `admin-bar-charts`, with the bar report. |
| `StatsController.GetLineCharts` | dist/controllers/stats.js:276-330 | The same, under `admin-line-charts`, with the line report. |

## Left out

- Record store: the Mongoose queries (`find`, `countDocuments`, `distinct`, `select`, `limit`) are external. Their results are the fields of `DashboardQueries`, `PieQueries`, `BarQueries` and `LineQueries`. Each `select` is modelled only by what the chart helper can see (`ProductStamps`, `UserStamps`, `OrderStamps`, `OrderDocs`).
- `Promise.all` fan-in and the sequential `await`s before it: only the combined results are modelled.
- Date windows: the month bounds and the "six/twelve months ago" lower bound are not modelled. `today` is an opaque `Date`. The source computes the lower bound with `setDate(getMonth() - 6)` (and `- 12`), which changes the day of the month, not the month. So the model does not claim that the windows are trailing 6- or 12-month windows.
- `calculatePercentage`, `getChartData` and `getInventories` live in `utils/features.js`, which is not part of this model. They are function parameters (`Features.Utils`). The reports are stated in terms of the exact calls they make.
- Builders.BuildBar: the series lengths 6/6/12 are proved only for a chart helper that returns the requested length (`SeriesSized`), because `getChartData` is not part of this model.
- Builders.BuildLine: the same, for the lengths 12.
- `getInventories` also queries the store. Within one request it is taken as a function of the category list and the product count.
- The derived `age` of a user is not computed from `dob`. It is an `Option<int>`: an undefined age fails every comparison and falls in no group.
- Floating point: money is an integer. `Math.round(gross * (30 / 100))` is `(3 * gross + 5) / 10`, exact half-up rounding. The binary representation error of `0.3` is not modelled.
- JSON serialisation of cached reports: Dafny datatype values have copy semantics, so the cache stores the report value itself. A corrupt cache entry is not modelled.
- `TryCatch`, the HTTP response `{ success, stats/charts }` and error propagation are not modelled.
- The code that invalidates dashboard keys after a write is not part of this model. `Cache.Del` models only the underlying cache's `del`. `ServeAfterDelete` is stated over the same key set that `Del` removes.
- StatsController.GetDashboardStats, StatsController.GetPieCharts, StatsController.GetBarCharts, StatsController.GetLineCharts: each endpoint call is modelled as one atomic has/compute/set step. In the source, a miss yields at every `await` (for the summary report, lines 24-65, 69 and 110) before the `set` (line 133), and the other endpoints do the same. Two overlapping misses therefore both compute, and the last `set` wins. An invalidation that runs while a miss is in flight is undone: the later `set` stores a report built from data read before the change. These interleavings are not modelled.
- ReportCache.ServeAgain, ReportCache.ServeAfterDelete: these hold only for calls that do not overlap, for the reason given on the line above.
- The cache's creation in `app.js` is not part of this model (`Cache` constructor).
- The source field `usersAgeGroup.old` is named `senior` here, because `old` is a Dafny keyword.

## Observations

- The "latest transactions" query (`dist/controllers/stats.js:66-68`) has `.limit(4)` and no `.sort`. So it returns the first four orders in the store's natural order, which are not necessarily the four most recent. The model takes whatever up to four orders the query returns and makes no claim about recency.
