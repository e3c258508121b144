/**
 * The four report builders of the dashboard controller, run on a cache
 * miss. The record store's answers are inputs: each builder receives the
 * results of the queries it issues and folds them into its report.
 */
module Builders {
  import opened Wrappers
  import opened Records
  import opened Folds
  import opened Features
  import opened Reports

  /** The query results `getDashboardStats` awaits. */
  datatype DashboardQueries = DashboardQueries(
    today: Date,
    thisMonthProducts: seq<Product>,
    thisMonthUsers: seq<User>,
    thisMonthOrders: seq<Order>,
    lastMonthProducts: seq<Product>,
    lastMonthUsers: seq<User>,
    lastMonthOrders: seq<Order>,
    productsCount: nat,
    usersCount: nat,
    allOrders: seq<Order>,
    lastSixMonthOrders: seq<Order>,
    categories: seq<string>,
    femaleUsersCount: nat,
    latestTransaction: seq<Order>)

  /** What the store guarantees of those results: a subset count and a `.limit(4)` query. */
  predicate DashboardConsistent(q: DashboardQueries)
  {
    q.femaleUsersCount <= q.usersCount && |q.latestTransaction| <= 4
  }

  /** One of the latest orders reshaped for the dashboard. */
  function ToTransaction(o: Order): Transaction
  {
    Transaction(o.id, o.discount, o.total, |o.orderItems|, o.status)
  }

  /** `latestTransaction.map(...)`: every order reshaped, same length, same order. */
  function LatestTransactions(orders: seq<Order>): (r: seq<Transaction>)
    ensures |r| == |orders|
    ensures forall i :: 0 <= i < |orders| ==> r[i] == ToTransaction(orders[i])
    decreases |orders|
  {
    if orders == [] then [] else [ToTransaction(orders[0])] + LatestTransactions(orders[1..])
  }

  /** The summary statistics report. */
  function BuildDashboard(q: DashboardQueries, u: Utils): (stats: DashboardStats)
    ensures stats.changePercent == ChangePercent(
              u.calculatePercentage(Sum(q.thisMonthOrders, Total), Sum(q.lastMonthOrders, Total)),
              u.calculatePercentage(|q.thisMonthProducts|, |q.lastMonthProducts|),
              u.calculatePercentage(|q.thisMonthUsers|, |q.lastMonthUsers|),
              u.calculatePercentage(|q.thisMonthOrders|, |q.lastMonthOrders|))
    ensures stats.count.revenue == Sum(q.allOrders, Total)
    ensures stats.count.order == |q.allOrders|
    ensures stats.count.user == q.usersCount && stats.count.product == q.productsCount
    ensures stats.chart.order
            == u.getChartData(ChartRequest(6, q.today, OrderDocs(q.lastSixMonthOrders), None))
    ensures stats.chart.revenue
            == u.getChartData(ChartRequest(6, q.today, OrderDocs(q.lastSixMonthOrders), Some(Total)))
    ensures stats.categoryCount == u.getInventories(q.categories, q.productsCount)
    ensures stats.userRatio.male + stats.userRatio.female == q.usersCount
    ensures stats.userRatio.female == q.femaleUsersCount
    ensures |stats.latestTransaction| == |q.latestTransaction|
    ensures forall i :: 0 <= i < |q.latestTransaction| ==>
              stats.latestTransaction[i] == ToTransaction(q.latestTransaction[i])
  {
    ReduceIsSum(q.thisMonthOrders, Total, 0);
    ReduceIsSum(q.lastMonthOrders, Total, 0);
    ReduceIsSum(q.allOrders, Total, 0);
    var thisMonthRevenue := Reduce(q.thisMonthOrders, Total, 0);
    var lastMonthRevenue := Reduce(q.lastMonthOrders, Total, 0);
    var changePercent := ChangePercent(
      u.calculatePercentage(thisMonthRevenue, lastMonthRevenue),
      u.calculatePercentage(|q.thisMonthProducts|, |q.lastMonthProducts|),
      u.calculatePercentage(|q.thisMonthUsers|, |q.lastMonthUsers|),
      u.calculatePercentage(|q.thisMonthOrders|, |q.lastMonthOrders|));
    var revenue := Reduce(q.allOrders, Total, 0);
    var count := Count(revenue, q.usersCount, q.productsCount, |q.allOrders|);
    var orderMonthCounts := u.getChartData(ChartRequest(6, q.today, OrderDocs(q.lastSixMonthOrders), None));
    var orderMonthlyRevenue :=
      u.getChartData(ChartRequest(6, q.today, OrderDocs(q.lastSixMonthOrders), Some(Total)));
    var categoryCount := u.getInventories(q.categories, q.productsCount);
    var userRatio := UserRatio(q.usersCount - q.femaleUsersCount, q.femaleUsersCount);
    DashboardStats(
      categoryCount,
      changePercent,
      count,
      MonthChart(orderMonthCounts, orderMonthlyRevenue),
      userRatio,
      LatestTransactions(q.latestTransaction))
  }

  /** On consistent store answers the male count is a count and at most four transactions are listed. */
  lemma DashboardBounds(q: DashboardQueries, u: Utils)
    requires DashboardConsistent(q)
    ensures BuildDashboard(q, u).userRatio.male >= 0
    ensures |BuildDashboard(q, u).latestTransaction| <= 4
  {
  }

  /** The all-time revenue does not depend on the order in which the store lists the orders. */
  lemma DashboardRevenueOrderFree(q: DashboardQueries, q': DashboardQueries, u: Utils)
    requires multiset(q.allOrders) == multiset(q'.allOrders)
    ensures BuildDashboard(q, u).count.revenue == BuildDashboard(q', u).count.revenue
  {
    SumPermutation(q.allOrders, q'.allOrders, Total);
  }

  /** The query results `getPieCharts` awaits. */
  datatype PieQueries = PieQueries(
    processingOrder: nat,
    shippedOrder: nat,
    deliveredOrder: nat,
    categories: seq<string>,
    productsCount: nat,
    outOfStock: nat,
    allOrders: seq<Order>,
    allUsers: seq<User>,
    adminUsers: nat,
    customerUsers: nat)

  /** `Math.round(grossIncome * (30 / 100))` on integers: 30% rounded half up. */
  function MarketingCost(grossIncome: int): (m: int)
    ensures 10 * m <= 3 * grossIncome + 5 < 10 * m + 10
  {
    (3 * grossIncome + 5) / 10
  }

  /** The revenue distribution: the gross income split into five parts. */
  function Distribute(orders: seq<Order>): (d: RevenueDistribution)
    ensures d.discount == Sum(orders, Discount)
    ensures d.productionCost == Sum(orders, ShippingCharges)
    ensures d.burnt == Sum(orders, Tax)
    ensures 10 * d.marketingCost <= 3 * Sum(orders, Total) + 5 < 10 * d.marketingCost + 10
    ensures d.netMargin + d.discount + d.productionCost + d.burnt + d.marketingCost
            == Sum(orders, Total)
  {
    ReduceIsSum(orders, Total, 0);
    ReduceIsSum(orders, Discount, 0);
    ReduceIsSum(orders, ShippingCharges, 0);
    ReduceIsSum(orders, Tax, 0);
    var grossIncome := Reduce(orders, Total, 0);
    var discount := Reduce(orders, Discount, 0);
    var productionCost := Reduce(orders, ShippingCharges, 0);
    var burnt := Reduce(orders, Tax, 0);
    var marketingCost := MarketingCost(grossIncome);
    var netMargin := grossIncome - discount - productionCost - burnt - marketingCost;
    RevenueDistribution(netMargin, discount, productionCost, burnt, marketingCost)
  }

  /** The three age groups; together they count every user whose age is defined, once. */
  function AgeGroups(users: seq<User>): (g: UsersAgeGroup)
    ensures g.teen == CountBracket(users, Teen)
    ensures g.adult == CountBracket(users, Adult)
    ensures g.senior == CountBracket(users, Old)
    ensures g.teen + g.adult + g.senior == CountAged(users)
  {
    AgePartition(users);
    UsersAgeGroup(CountBracket(users, Teen), CountBracket(users, Adult), CountBracket(users, Old))
  }

  /** When every user has an age, the three groups count all of them. */
  lemma AgeGroupsCoverAll(users: seq<User>)
    requires forall i :: 0 <= i < |users| ==> users[i].age.Some?
    ensures AgeGroups(users).teen + AgeGroups(users).adult + AgeGroups(users).senior == |users|
  {
    AllAged(users);
  }

  /** The pie charts report. */
  function BuildPie(q: PieQueries, u: Utils): (charts: PieCharts)
    ensures charts.orderFullfillment
            == OrderFullfillment(q.processingOrder, q.shippedOrder, q.deliveredOrder)
    ensures charts.productCategories == u.getInventories(q.categories, q.productsCount)
    ensures charts.stockAvailability.inStock + charts.stockAvailability.outOfStock
            == q.productsCount
    ensures charts.stockAvailability.outOfStock == q.outOfStock
    ensures charts.revenueDistribution == Distribute(q.allOrders)
    ensures charts.revenueDistribution.netMargin + charts.revenueDistribution.discount
            + charts.revenueDistribution.productionCost + charts.revenueDistribution.burnt
            + charts.revenueDistribution.marketingCost == Sum(q.allOrders, Total)
    ensures charts.usersAgeGroup == AgeGroups(q.allUsers)
    ensures charts.usersAgeGroup.teen + charts.usersAgeGroup.adult + charts.usersAgeGroup.senior
            == CountAged(q.allUsers)
    ensures charts.adminCustomer == AdminCustomer(q.adminUsers, q.customerUsers)
  {
    var orderFullfillment := OrderFullfillment(q.processingOrder, q.shippedOrder, q.deliveredOrder);
    var productCategories := u.getInventories(q.categories, q.productsCount);
    var stockAvailability := StockAvailability(q.productsCount - q.outOfStock, q.outOfStock);
    PieCharts(
      orderFullfillment,
      productCategories,
      stockAvailability,
      Distribute(q.allOrders),
      AgeGroups(q.allUsers),
      AdminCustomer(q.adminUsers, q.customerUsers))
  }

  /** The query results `getBarCharts` awaits. */
  datatype BarQueries = BarQueries(
    today: Date,
    sixMonthProducts: seq<Product>,
    sixMonthUsers: seq<User>,
    twelveMonthOrders: seq<Order>)

  /** The bar charts report: six months of products and users, twelve of orders, all counts. */
  function BuildBar(q: BarQueries, u: Utils): (charts: BarCharts)
    ensures charts.products == u.getChartData(ChartRequest(6, q.today, ProductStamps(q.sixMonthProducts), None))
    ensures charts.users == u.getChartData(ChartRequest(6, q.today, UserStamps(q.sixMonthUsers), None))
    ensures charts.orders == u.getChartData(ChartRequest(12, q.today, OrderStamps(q.twelveMonthOrders), None))
    ensures SeriesSized(u) ==>
              |charts.products| == 6 && |charts.users| == 6 && |charts.orders| == 12
  {
    var productsCount := u.getChartData(ChartRequest(6, q.today, ProductStamps(q.sixMonthProducts), None));
    var usersCount := u.getChartData(ChartRequest(6, q.today, UserStamps(q.sixMonthUsers), None));
    var ordersCount := u.getChartData(ChartRequest(12, q.today, OrderStamps(q.twelveMonthOrders), None));
    BarCharts(usersCount, productsCount, ordersCount)
  }

  /** The query results `getLineCharts` awaits. */
  datatype LineQueries = LineQueries(
    today: Date,
    twelveMonthProducts: seq<Product>,
    twelveMonthUsers: seq<User>,
    twelveMonthOrders: seq<Order>)

  /** The line charts report: twelve months of product and user counts and of order discount and revenue sums. */
  function BuildLine(q: LineQueries, u: Utils): (charts: LineCharts)
    ensures charts.products == u.getChartData(ChartRequest(12, q.today, ProductStamps(q.twelveMonthProducts), None))
    ensures charts.users == u.getChartData(ChartRequest(12, q.today, UserStamps(q.twelveMonthUsers), None))
    ensures charts.discount
            == u.getChartData(ChartRequest(12, q.today, OrderDocs(q.twelveMonthOrders), Some(Discount)))
    ensures charts.revenue
            == u.getChartData(ChartRequest(12, q.today, OrderDocs(q.twelveMonthOrders), Some(Total)))
    ensures SeriesSized(u) ==>
              |charts.products| == 12 && |charts.users| == 12
              && |charts.discount| == 12 && |charts.revenue| == 12
  {
    var productsCount :=
      u.getChartData(ChartRequest(12, q.today, ProductStamps(q.twelveMonthProducts), None));
    var usersCount := u.getChartData(ChartRequest(12, q.today, UserStamps(q.twelveMonthUsers), None));
    var discount :=
      u.getChartData(ChartRequest(12, q.today, OrderDocs(q.twelveMonthOrders), Some(Discount)));
    var revenue := u.getChartData(ChartRequest(12, q.today, OrderDocs(q.twelveMonthOrders), Some(Total)));
    LineCharts(usersCount, productsCount, discount, revenue)
  }
}
