/** `AdminDashboardService` (backend): the figures of the admin dashboard,
    assembled from repository query results, which are parameters here. Times
    are counts of nanoseconds of local date-time; money is a `real`. */
module AdminDashboard {
  import opened Wrappers

  const NANOS_PER_SECOND: int := 1_000_000_000
  const NANOS_PER_DAY: int := 86_400 * NANOS_PER_SECOND
  const DEFAULT_IMAGE := "default-product.jpg"

  // ---------------------------------------------------------------------
  // Metrics
  // ---------------------------------------------------------------------

  /** `withHour(0).withMinute(0).withSecond(0).withNano(0)`: midnight of the
      day of `t`. */
  function Midnight(t: int): (m: int)
    ensures m <= t < m + NANOS_PER_DAY
    ensures m % NANOS_PER_DAY == 0
  {
    t - t % NANOS_PER_DAY
  }

  /** The "today" window of the metrics queries: [midnight, next midnight). */
  function TodayWindow(now: int): (w: (int, int))
    ensures w.0 <= now < w.1 && w.1 - w.0 == NANOS_PER_DAY
    ensures w.0 % NANOS_PER_DAY == 0
  {
    var start := Midnight(now);
    (start, start + NANOS_PER_DAY)
  }

  /** A window is the one whose day holds `now` exactly when it starts at a
      midnight and contains `now`: no other day-long window does. */
  lemma TodayWindowUnique(now: int, start: int)
    requires start % NANOS_PER_DAY == 0 && start <= now < start + NANOS_PER_DAY
    ensures TodayWindow(now) == (start, start + NANOS_PER_DAY)
  {
    var m := Midnight(now);
    assert start == (start / NANOS_PER_DAY) * NANOS_PER_DAY;
    assert m == (m / NANOS_PER_DAY) * NANOS_PER_DAY;
  }

  /** The repository answers the metrics read. */
  datatype Repositories = Repositories(
    orderCount: int, userCount: int, productCount: int, totalRevenue: Option<real>,
    revenueBetween: (int, int) -> Option<real>, ordersBetween: (int, int) -> int,
    usersBetween: (int, int) -> int)

  /** `DashboardMetricsDto`. */
  datatype DashboardMetrics = DashboardMetrics(
    totalOrders: int, totalUsers: int, totalProducts: int, totalRevenue: Option<real>,
    todayRevenue: Option<real>, ordersToday: int, newUsersToday: int,
    systemStatus: string, dlqMessageCount: int, databaseConnection: bool, lastUpdated: int)

  /** `getDashboardMetrics`: the today figures come from the window of the
      day holding `now`; the status is always "HEALTHY" and the database
      always reported connected, whatever the DLQ count. `updatedAt` is the
      second clock reading. */
  function DashboardMetricsAt(repos: Repositories, dlqCount: int, now: int, updatedAt: int)
    : (m: DashboardMetrics)
    ensures m.systemStatus == "HEALTHY" && m.databaseConnection && m.dlqMessageCount == dlqCount
    ensures m.totalOrders == repos.orderCount && m.totalUsers == repos.userCount
            && m.totalProducts == repos.productCount && m.totalRevenue == repos.totalRevenue
    ensures exists start ::
      start % NANOS_PER_DAY == 0 && start <= now < start + NANOS_PER_DAY
      && m.todayRevenue == repos.revenueBetween(start, start + NANOS_PER_DAY)
      && m.ordersToday == repos.ordersBetween(start, start + NANOS_PER_DAY)
      && m.newUsersToday == repos.usersBetween(start, start + NANOS_PER_DAY)
    ensures m.lastUpdated == updatedAt
  {
    var w := TodayWindow(now);
    DashboardMetrics(repos.orderCount, repos.userCount, repos.productCount, repos.totalRevenue,
                     repos.revenueBetween(w.0, w.1), repos.ordersBetween(w.0, w.1), repos.usersBetween(w.0, w.1),
                     "HEALTHY", dlqCount, true, updatedAt)
  }

  // ---------------------------------------------------------------------
  // Sales chart
  // ---------------------------------------------------------------------

  /** The start of the sales query: midnight `days` days back, except that
      the nanoseconds of `now` are kept (the source clears hour, minute and
      second, but not the nanoseconds). */
  function SalesStart(now: int, days: int): (s: int)
    ensures var m := Midnight(now - days * NANOS_PER_DAY); m <= s < m + NANOS_PER_SECOND
    ensures s % NANOS_PER_SECOND == now % NANOS_PER_SECOND
  {
    var t := now - days * NANOS_PER_DAY;
    WholeSecondsKeepNanos(Midnight(t) / NANOS_PER_SECOND, t % NANOS_PER_SECOND);
    WholeSecondsKeepNanos(now / NANOS_PER_SECOND - days * 86_400, now % NANOS_PER_SECOND);
    Midnight(t) + t % NANOS_PER_SECOND
  }

  /** A whole number of seconds plus `r` nanoseconds has `r` nanoseconds
      past the second. */
  lemma WholeSecondsKeepNanos(j: int, r: int)
    requires 0 <= r < NANOS_PER_SECOND
    ensures (j * NANOS_PER_SECOND + r) % NANOS_PER_SECOND == r
  {
  }

  /** One row of `getSalesDataByDateRange`: date, revenue, orders, customers. */
  datatype SalesRow = SalesRow(date: string, revenue: real, orders: int, customers: int)

  /** `SalesChartDataDto`. */
  datatype ChartPoint = ChartPoint(date: string, revenue: real, orders: int, customers: int,
                                           avgOrderValue: real)

  /** A whole number of cents. */
  predicate IsCents(x: real)
  {
    (x * 100.0).Floor as real == x * 100.0
  }

  /** `n` hundredths. */
  function Cents(n: int): (r: real)
    ensures IsCents(r) && r * 100.0 == n as real
  {
    n as real / 100.0
  }

  /** Rounding to two decimals with ties away from zero (`HALF_UP`). */
  function RoundHalfUp(x: real): (r: real)
    ensures IsCents(r)
    ensures x >= 0.0 ==> x - 0.005 < r <= x + 0.005
    ensures x < 0.0 ==> x - 0.005 <= r < x + 0.005
  {
    if x >= 0.0 then Cents((x * 100.0 + 0.5).Floor)
    else Cents(-((-x) * 100.0 + 0.5).Floor)
  }

  /** A value already in cents is left as it is. */
  lemma RoundCentsUnchanged(x: real)
    requires IsCents(x)
    ensures RoundHalfUp(x) == x
  {
    var n := (x * 100.0).Floor;
    if x >= 0.0 {
      assert (x * 100.0 + 0.5).Floor == n;
    } else {
      assert (-x) * 100.0 == -(x * 100.0);
      assert ((-x) * 100.0 + 0.5).Floor == -n;
    }
  }

  /** Rounding twice is rounding once. */
  lemma RoundIdempotent(x: real)
    ensures RoundHalfUp(RoundHalfUp(x)) == RoundHalfUp(x)
  {
    RoundCentsUnchanged(RoundHalfUp(x));
  }

  /** The average order value: revenue over orders rounded `HALF_UP` to two
      decimals, or 0 when there are no orders. */
  function AverageOrderValue(revenue: real, orders: int): (avg: real)
    ensures orders <= 0 ==> avg == 0.0
    ensures orders > 0 ==> IsCents(avg) && avg == RoundHalfUp(revenue / orders as real)
  {
    if orders > 0 then RoundHalfUp(revenue / orders as real) else 0.0
  }

  /** The average times the order count is the revenue, up to half a cent
      per order. */
  lemma AverageNearRevenue(revenue: real, orders: int)
    requires orders > 0
    ensures var a := AverageOrderValue(revenue, orders) * orders as real;
      revenue - 0.005 * orders as real <= a <= revenue + 0.005 * orders as real
  {
    var n := orders as real;
    var q := revenue / n;
    var avg := AverageOrderValue(revenue, orders);
    DivideThenMultiply(revenue, n);
    WithinPerUnit(revenue, q, avg, n);
  }

  /** A value within half a cent of the quotient, scaled back up, is within
      half a cent per unit of the dividend. */
  lemma WithinPerUnit(revenue: real, q: real, avg: real, n: real)
    requires n > 0.0 && q * n == revenue && q - 0.005 <= avg <= q + 0.005
    ensures revenue - 0.005 * n <= avg * n <= revenue + 0.005 * n
  {
    AtMostPerUnit(revenue, q, avg, n);
    AtLeastPerUnit(revenue, q, avg, n);
  }

  /** The upper half of `WithinPerUnit`. */
  lemma AtMostPerUnit(revenue: real, q: real, avg: real, n: real)
    requires n > 0.0 && q * n == revenue && avg <= q + 0.005
    ensures avg * n <= revenue + 0.005 * n
  {
    NonPositiveScaled(avg - q - 0.005, n);
  }

  /** The lower half of `WithinPerUnit`. */
  lemma AtLeastPerUnit(revenue: real, q: real, avg: real, n: real)
    requires n > 0.0 && q * n == revenue && q - 0.005 <= avg
    ensures revenue - 0.005 * n <= avg * n
  {
    NonPositiveScaled(q - 0.005 - avg, n);
  }

  /** A non-positive number times a positive one is non-positive. */
  lemma NonPositiveScaled(x: real, n: real)
    requires x <= 0.0 && n > 0.0
    ensures x * n <= 0.0
  {
  }

  /** Dividing and multiplying back by the same non-zero number. */
  lemma DivideThenMultiply(r: real, n: real)
    requires n != 0.0
    ensures (r / n) * n == r
  {
  }

  /** The dashboard's own examples: 1000 over 10 orders is 100.00, and a day
      without orders averages 0. */
  lemma AverageExamples()
    ensures AverageOrderValue(1000.0, 10) == 100.0
    ensures AverageOrderValue(0.0, 0) == 0.0
    ensures AverageOrderValue(10.0, 3) == 3.33
    ensures AverageOrderValue(0.01, 2) == 0.01
  {
    RoundCentsUnchanged(100.0);
    assert (10.0 / 3.0 * 100.0 + 0.5).Floor == 333;
    assert (0.01 / 2.0 * 100.0 + 0.5).Floor == 1;
  }

  /** One chart point per row, in the rows' order. */
  function SalesChartData(rows: seq<SalesRow>): (r: seq<ChartPoint>)
    ensures |r| == |rows|
    ensures forall i :: 0 <= i < |rows| ==>
      r[i].date == rows[i].date && r[i].revenue == rows[i].revenue && r[i].orders == rows[i].orders
      && r[i].customers == rows[i].customers
      && r[i].avgOrderValue == AverageOrderValue(rows[i].revenue, rows[i].orders)
  {
    seq(|rows|, i requires 0 <= i < |rows| =>
      ChartPoint(rows[i].date, rows[i].revenue, rows[i].orders, rows[i].customers,
                     AverageOrderValue(rows[i].revenue, rows[i].orders)))
  }

  // ---------------------------------------------------------------------
  // Top products
  // ---------------------------------------------------------------------

  /** One row of `findTopSellingProducts`. */
  datatype TopRow = TopRow(productId: int, name: Option<string>, sku: Option<string>, unitsSold: int,
                           revenue: Option<real>, categoryName: Option<string>, imageUrl: Option<string>,
                           averageRating: Option<real>)

  /** `TopProductDto`. */
  datatype TopProduct = TopProduct(productId: int, name: Option<string>, sku: Option<string>, unitsSold: int,
                                   revenue: Option<real>, categoryName: Option<string>, imageUrl: string,
                                   averageRating: real)

  /** A row as a product: a missing image becomes the default picture and a
      missing rating becomes 0; every other field is copied. */
  function TopProductOf(row: TopRow): (p: TopProduct)
    ensures p.imageUrl == row.imageUrl.GetOr(DEFAULT_IMAGE)
    ensures p.averageRating == row.averageRating.GetOr(0.0)
    ensures p.productId == row.productId && p.name == row.name && p.sku == row.sku
            && p.unitsSold == row.unitsSold && p.revenue == row.revenue && p.categoryName == row.categoryName
  {
    TopProduct(row.productId, row.name, row.sku, row.unitsSold, row.revenue, row.categoryName,
               if row.imageUrl.Some? then row.imageUrl.value else DEFAULT_IMAGE,
               if row.averageRating.Some? then row.averageRating.value else 0.0)
  }

  /** `getTopSellingProducts`: the first `limit` rows in the query's order;
      a negative limit is the `IllegalArgumentException` of `Stream.limit`. */
  function TopSellingProducts(rows: seq<TopRow>, limit: int): (r: Result<seq<TopProduct>, string>)
    ensures r.Err? <==> limit < 0
    ensures r.Ok? ==> |r.value| == if limit < |rows| then limit else |rows|
    ensures r.Ok? ==> forall i :: 0 <= i < |r.value| ==> r.value[i] == TopProductOf(rows[i])
  {
    if limit < 0 then Err("IllegalArgumentException")
    else
      var n := if limit < |rows| then limit else |rows|;
      Ok(seq(n, i requires 0 <= i < n => TopProductOf(rows[i])))
  }

  /** A larger limit only adds rows at the end. */
  lemma TopSellingPrefix(rows: seq<TopRow>, k: int, l: int)
    requires 0 <= k <= l
    ensures TopSellingProducts(rows, k).value <= TopSellingProducts(rows, l).value
  {
  }
}
