/**
 * purchases/handler.go: GetDashboardStats.  The purchase service is the input
 * `service`, called with the user id from the authorization payload and the
 * number of days; `claimsUserId` reads the user id out of the stored claims.
 */
module Dashboard {
  import opened Wrappers
  import opened Errors
  import opened Gin
  import opened Purchases
  import DailyStats
  import AuthMiddleware

  /** The dashboard always asks for the last seven days. */
  const Days: nat := 7

  /** What the service returns: the daily rows, total earnings and total purchases. */
  datatype ServiceStats = ServiceStats(daily: seq<DayStats>, totalEarnings: int, totalPurchases: int)

  /** DashboardStats. */
  datatype DashboardStats = DashboardStats(
    totalEarnings: int,
    totalPurchases: int,
    testEarnings: int,
    testPurchases: int,
    realEarnings: int,
    realPurchases: int,
    dailyPurchases: seq<DayStats>)

  /** The sum of one field over the rows. */
  function Sum(days: seq<DayStats>, field: DayStats -> int): int
  {
    if days == [] then 0 else Sum(days[..|days| - 1], field) + field(days[|days| - 1])
  }

  function TestEarnings(d: DayStats): int { d.testEarnings }
  function TestCount(d: DayStats): int { d.testCount }
  function RealEarnings(d: DayStats): int { d.realEarnings }
  function RealCount(d: DayStats): int { d.realCount }

  /** The loop over the daily rows that accumulates the test and real totals. */
  method SplitTotals(days: seq<DayStats>) returns (testEarnings: int, testPurchases: int, realEarnings: int, realPurchases: int)
    ensures testEarnings == Sum(days, TestEarnings) && testPurchases == Sum(days, TestCount)
    ensures realEarnings == Sum(days, RealEarnings) && realPurchases == Sum(days, RealCount)
  {
    testEarnings, testPurchases, realEarnings, realPurchases := 0, 0, 0, 0;
    for i := 0 to |days|
      invariant testEarnings == Sum(days[..i], TestEarnings) && testPurchases == Sum(days[..i], TestCount)
      invariant realEarnings == Sum(days[..i], RealEarnings) && realPurchases == Sum(days[..i], RealCount)
    {
      assert days[..i + 1][..i] == days[..i];
      testEarnings := testEarnings + days[i].testEarnings;
      testPurchases := testPurchases + days[i].testCount;
      realEarnings := realEarnings + days[i].realEarnings;
      realPurchases := realPurchases + days[i].realCount;
    }
    assert days[..|days|] == days;
  }

  /** The totals do not depend on how the rows are split: the sum over two lists joined is the sum of the sums. */
  lemma {:induction false} SumAppend(a: seq<DayStats>, b: seq<DayStats>, field: DayStats -> int)
    ensures Sum(a + b, field) == Sum(a, field) + Sum(b, field)
    decreases |b|
  {
    if b == [] {
      assert a + b == a;
    } else {
      var front := b[..|b| - 1];
      assert (a + b)[..|a + b| - 1] == a + front;
      SumAppend(a, front, field);
    }
  }

  /** The zero rows padding adds contribute nothing to a total whose field is zero on them, as all four are. */
  lemma {:induction false} ZeroRowsAddNothing(window: seq<string>, existing: set<string>, field: DayStats -> int)
    requires forall d :: field(ZeroDay(d)) == 0
    ensures Sum(DailyStats.Missing(window, existing, ZeroDay), field) == 0
    decreases |window|
  {
    if window != [] {
      var front := window[..|window| - 1];
      var last := window[|window| - 1];
      ZeroRowsAddNothing(front, existing, field);
      if last !in existing {
        SumAppend(DailyStats.Missing(front, existing, ZeroDay), [ZeroDay(last)], field);
        assert Sum([ZeroDay(last)], field) == field(ZeroDay(last));
      } else {
        var m := DailyStats.Missing(front, existing, ZeroDay);
        assert DailyStats.Missing(window, existing, ZeroDay) == m + [];
        assert m + [] == m;
      }
    }
  }

  /** So padding leaves the dashboard's test and real totals as the real rows make them. */
  lemma PaddingKeepsTotals(stats: seq<DayStats>, window: seq<string>, existing: set<string>)
    ensures var padded := stats + DailyStats.Missing(window, existing, ZeroDay);
            Sum(padded, TestEarnings) == Sum(stats, TestEarnings) && Sum(padded, TestCount) == Sum(stats, TestCount)
            && Sum(padded, RealEarnings) == Sum(stats, RealEarnings) && Sum(padded, RealCount) == Sum(stats, RealCount)
  {
    var zeros := DailyStats.Missing(window, existing, ZeroDay);
    SumAppend(stats, zeros, TestEarnings);
    SumAppend(stats, zeros, TestCount);
    SumAppend(stats, zeros, RealEarnings);
    SumAppend(stats, zeros, RealCount);
    ZeroRowsAddNothing(window, existing, TestEarnings);
    ZeroRowsAddNothing(window, existing, TestCount);
    ZeroRowsAddNothing(window, existing, RealEarnings);
    ZeroRowsAddNothing(window, existing, RealCount);
  }

  function DayJson(d: DayStats): Json
  {
    JObject([("date", JString(d.date)), ("count", JInt(d.count)), ("earnings", JInt(d.earnings)),
             ("test_count", JInt(d.testCount)), ("test_earnings", JInt(d.testEarnings)),
             ("real_count", JInt(d.realCount)), ("real_earnings", JInt(d.realEarnings))])
  }

  function StatsJson(s: DashboardStats): Json
  {
    JObject([("total_earnings", JInt(s.totalEarnings)), ("total_purchases", JInt(s.totalPurchases)),
             ("test_earnings", JInt(s.testEarnings)), ("test_purchases", JInt(s.testPurchases)),
             ("real_earnings", JInt(s.realEarnings)), ("real_purchases", JInt(s.realPurchases)),
             ("daily_purchases", JArray(seq(|s.dailyPurchases|, i requires 0 <= i < |s.dailyPurchases| => DayJson(s.dailyPurchases[i]))))])
  }

  /**
   * GetDashboardStats: 401 without an authorization payload (the service is
   * not asked), 500 when the service fails, otherwise 200 with the service's
   * totals and rows and the test and real totals summed over the rows.
   */
  method GetDashboardStats(ctx: Context, service: (nat, nat) -> Result<ServiceStats, Error>, claimsUserId: Json -> nat)
    returns (stats: Option<DashboardStats>)
    modifies ctx
    ensures AuthMiddleware.AuthorizationPayloadKey !in old(ctx.keys) ==>
              stats.None? && ctx.Snapshot() == Rendered(old(ctx.Snapshot()), StatusUnauthorized, JsonRender(ErrorBody("Authentication required")))
    ensures AuthMiddleware.AuthorizationPayloadKey in old(ctx.keys) ==>
              var answer := service(claimsUserId(old(ctx.keys)[AuthMiddleware.AuthorizationPayloadKey]), Days);
              (answer.Err? ==>
                 stats.None?
                 && ctx.Snapshot() == Rendered(old(ctx.Snapshot()), StatusInternalServerError,
                                               JsonRender(ErrorBody("Failed to retrieve purchase data"))))
              && (answer.Ok? ==>
                    stats.Some?
                    && stats.value.totalEarnings == answer.value.totalEarnings
                    && stats.value.totalPurchases == answer.value.totalPurchases
                    && stats.value.dailyPurchases == answer.value.daily
                    && stats.value.testEarnings == Sum(answer.value.daily, TestEarnings)
                    && stats.value.testPurchases == Sum(answer.value.daily, TestCount)
                    && stats.value.realEarnings == Sum(answer.value.daily, RealEarnings)
                    && stats.value.realPurchases == Sum(answer.value.daily, RealCount)
                    && ctx.Snapshot() == Rendered(old(ctx.Snapshot()), StatusOK, JsonRender(StatsJson(stats.value))))
  {
    if AuthMiddleware.AuthorizationPayloadKey !in ctx.keys {
      ctx.JSON(StatusUnauthorized, ErrorBody("Authentication required"));
      return None;
    }
    var userId := claimsUserId(ctx.keys[AuthMiddleware.AuthorizationPayloadKey]);
    var answer := service(userId, Days);
    if answer.Err? {
      ctx.JSON(StatusInternalServerError, ErrorBody("Failed to retrieve purchase data"));
      return None;
    }
    var testEarnings, testPurchases, realEarnings, realPurchases := SplitTotals(answer.value.daily);
    var result := DashboardStats(answer.value.totalEarnings, answer.value.totalPurchases, testEarnings, testPurchases,
                                 realEarnings, realPurchases, answer.value.daily);
    ctx.JSON(StatusOK, StatsJson(result));
    return Some(result);
  }
}
