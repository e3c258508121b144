/** The four report shapes the dashboard serves, and the values the cache holds. */
module Reports {
  import opened Wrappers
  import opened Records
  import opened Features

  // Summary statistics (`getDashboardStats`).

  datatype ChangePercent = ChangePercent(revenue: int, product: int, user: int, order: int)

  datatype Count = Count(revenue: int, user: nat, product: nat, order: nat)

  datatype MonthChart = MonthChart(order: seq<int>, revenue: seq<int>)

  datatype UserRatio = UserRatio(male: int, female: nat)

  /** One of the latest transactions; `amount` is the order's total as stored, possibly missing. */
  datatype Transaction = Transaction(
    id: string,
    discount: Option<int>,
    amount: Option<int>,
    quantity: nat,
    status: Status)

  datatype DashboardStats = DashboardStats(
    categoryCount: CategoryShares,
    changePercent: ChangePercent,
    count: Count,
    chart: MonthChart,
    userRatio: UserRatio,
    latestTransaction: seq<Transaction>)

  // Pie charts (`getPieCharts`).

  datatype OrderFullfillment = OrderFullfillment(processing: nat, shipped: nat, delivered: nat)

  datatype StockAvailability = StockAvailability(inStock: int, outOfStock: nat)

  datatype RevenueDistribution = RevenueDistribution(
    netMargin: int,
    discount: int,
    productionCost: int,
    burnt: int,
    marketingCost: int)

  /** `old` in the source; `old` is a Dafny keyword. */
  datatype UsersAgeGroup = UsersAgeGroup(teen: nat, adult: nat, senior: nat)

  datatype AdminCustomer = AdminCustomer(admin: nat, customers: nat)

  datatype PieCharts = PieCharts(
    orderFullfillment: OrderFullfillment,
    productCategories: CategoryShares,
    stockAvailability: StockAvailability,
    revenueDistribution: RevenueDistribution,
    usersAgeGroup: UsersAgeGroup,
    adminCustomer: AdminCustomer)

  // Bar and line charts (`getBarCharts`, `getLineCharts`).

  datatype BarCharts = BarCharts(users: seq<int>, products: seq<int>, orders: seq<int>)

  datatype LineCharts = LineCharts(
    users: seq<int>,
    products: seq<int>,
    discount: seq<int>,
    revenue: seq<int>)

  /**
   * A cached value: one of the four dashboard reports, or a value some other
   * controller caches under its own key (kept opaque here).
   */
  datatype Report =
    | Stats(stats: DashboardStats)
    | Pie(pie: PieCharts)
    | Bar(bar: BarCharts)
    | Line(line: LineCharts)
    | Other(blob: string)
}
