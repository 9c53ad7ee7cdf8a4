/**
 * store/purchases.go (and the purchases package's types): listing a short
 * code's purchases and the per-day statistics behind the dashboard.  The
 * database is an input: the rows a query returns, or its error.
 */
module Purchases {
  import opened Wrappers
  import opened Errors
  import opened DailyStats
  import Tables

  /** purchases.Purchase: one paid access to a route. */
  datatype Purchase = Purchase(
    id: nat,
    shortCode: string,
    targetUrl: string,
    httpMethod: string,
    price: int,
    routeType: string,
    creditsAvailable: int,
    creditsUsed: int,
    isTest: bool,
    paidRouteId: nat,
    paidToAddress: string,
    paymentHeader: string,
    paymentPayload: string,
    settleResponse: string,
    createdAt: int,
    updatedAt: int)

  /** A row of the purchases table, with the columns the listing scans. */
  datatype PurchaseRow = PurchaseRow(
    id: nat,
    shortCode: string,
    targetUrl: string,
    httpMethod: string,
    price: int,
    isTest: bool,
    paymentPayload: string,
    settleResponse: string,
    paidRouteId: nat,
    createdAt: int,
    updatedAt: int)

  /** convertToPurchaseModel: the scanned columns are copied, every other field keeps its zero value. */
  function ToPurchase(row: PurchaseRow): (p: Purchase)
    ensures p.shortCode == row.shortCode && p.targetUrl == row.targetUrl && p.httpMethod == row.httpMethod
    ensures p.price == row.price && p.isTest == row.isTest && p.paidRouteId == row.paidRouteId
    ensures p.paymentPayload == row.paymentPayload && p.settleResponse == row.settleResponse
    ensures p.createdAt == row.createdAt && p.updatedAt == row.updatedAt
    ensures p.id == 0 && p.paidToAddress == "" && p.routeType == "" && p.creditsAvailable == 0 && p.creditsUsed == 0
            && p.paymentHeader == ""
  {
    Purchase(0, row.shortCode, row.targetUrl, row.httpMethod, row.price, "", 0, 0, row.isTest, row.paidRouteId,
             "", "", row.paymentPayload, row.settleResponse, row.createdAt, row.updatedAt)
  }

  function WithCode(code: string): PurchaseRow -> bool
  {
    (p: PurchaseRow) => p.shortCode == code
  }

  function CreatedAt(p: PurchaseRow): int { p.createdAt }

  /** SELECT * FROM purchases WHERE short_code = $1 ORDER BY created_at DESC. */
  function Matching(table: seq<PurchaseRow>, code: string): seq<PurchaseRow>
  {
    Tables.SortDesc(Tables.Filter(table, WithCode(code)), CreatedAt)
  }

  const QueryFailed := "failed to query purchases by shortcode"
  const ScanFailed := "failed to scan purchase row"
  const IterationFailed := "error iterating over purchase rows"

  /**
   * ListPurchasesByShortCode: the rows are scanned one by one; `scanFault(k)`
   * is the error scanning the k-th row, if any.  No rows at all is
   * ErrPurchaseNotFound.
   */
  method ListPurchasesByShortCode(table: seq<PurchaseRow>, code: string, queryFault: Option<Error>,
                                  scanFault: nat -> Option<Error>, iterFault: Option<Error>)
    returns (r: Result<seq<Purchase>, Error>)
    ensures queryFault.Some? ==> r == Err(Wrapped(QueryFailed, queryFault.value))
    ensures r.Ok? ==>
              var rows := Matching(table, code);
              rows != [] && |r.value| == |rows| && forall k :: 0 <= k < |rows| ==> r.value[k] == ToPurchase(rows[k])
    ensures r.Ok? ==> forall k :: 0 <= k < |Matching(table, code)| ==> scanFault(k).None?
    ensures queryFault.None? && (exists k :: 0 <= k < |Matching(table, code)| && scanFault(k).Some?) ==>
              r.Err? && r.error.Wrapped? && r.error.context == ScanFailed
    ensures r == Err(Sentinel(PurchaseNotFound)) <==>
              queryFault.None? && iterFault.None? && Matching(table, code) == []
    ensures queryFault.None? && (forall k :: 0 <= k < |Matching(table, code)| ==> scanFault(k).None?) && iterFault.Some? ==>
              r == Err(Wrapped(IterationFailed, iterFault.value))
    ensures (queryFault.None? && (forall k :: 0 <= k < |Matching(table, code)| ==> scanFault(k).None?)
             && iterFault.None? && Matching(table, code) != []) ==> r.Ok?
  {
    if queryFault.Some? {
      return Err(Wrapped(QueryFailed, queryFault.value));
    }
    var rows := Matching(table, code);
    var scanned := ScanRows(rows, scanFault);
    if scanned.Err? {
      return scanned;
    }
    if iterFault.Some? {
      return Err(Wrapped(IterationFailed, iterFault.value));
    }
    if |scanned.value| == 0 {
      return Err(Sentinel(PurchaseNotFound));
    }
    return scanned;
  }

  /** The rows.Next loop: each row converted in order, or the first scan error wrapped. */
  method ScanRows(rows: seq<PurchaseRow>, scanFault: nat -> Option<Error>) returns (r: Result<seq<Purchase>, Error>)
    ensures r.Ok? ==> |r.value| == |rows| && forall k :: 0 <= k < |rows| ==> r.value[k] == ToPurchase(rows[k])
    ensures r.Ok? <==> forall k :: 0 <= k < |rows| ==> scanFault(k).None?
    ensures r.Err? ==> r.error.Wrapped? && r.error.context == ScanFailed
  {
    var purchases: seq<Purchase> := [];
    for i := 0 to |rows|
      invariant |purchases| == i
      invariant forall k :: 0 <= k < i ==> purchases[k] == ToPurchase(rows[k]) && scanFault(k).None?
    {
      if scanFault(i).Some? {
        return Err(Wrapped(ScanFailed, scanFault(i).value));
      }
      purchases := purchases + [ToPurchase(rows[i])];
    }
    return Ok(purchases);
  }

  /** The listing holds exactly the short code's purchases, newest first. */
  lemma MatchingIsTheCodesPurchasesNewestFirst(table: seq<PurchaseRow>, code: string)
    ensures Tables.SortedDesc(Matching(table, code), CreatedAt)
    ensures forall p :: p in Matching(table, code) <==> p in table && p.shortCode == code
    ensures Matching(table, code) == [] <==> forall k :: 0 <= k < |table| ==> table[k].shortCode != code
  {
    var filtered := Tables.Filter(table, WithCode(code));
    Tables.SortDescSorted(filtered, CreatedAt);
  }

  /** purchases.DailyStats. */
  datatype DayStats = DayStats(
    date: string,
    count: int,
    earnings: int,
    testCount: int,
    testEarnings: int,
    realCount: int,
    realEarnings: int)

  function DateOf(d: DayStats): string { d.date }

  /** The row padDailyStats adds for a day without purchases. */
  function ZeroDay(date: string): DayStats
  {
    DayStats(date, 0, 0, 0, 0, 0, 0)
  }

  /** A value the driver hands back as interface{}: an int64, or something else (NULL, a numeric). */
  datatype DbValue = Int64Value(n: int) | OtherValue

  /** The type assertion `v.(int64)` with its fallback: anything but an int64 counts as 0. */
  function Int64OrZero(v: DbValue): int
  {
    match v
    case Int64Value(x) => x
    case OtherValue => 0
  }

  /** A row of the daily statistics query. */
  datatype DbDayStats = DbDayStats(
    date: string,
    count: int,
    earnings: int,
    testCount: int,
    testEarnings: DbValue,
    realCount: int,
    realEarnings: DbValue)

  /** The row of the totals query. */
  datatype DbTotals = DbTotals(totalEarnings: DbValue, totalCount: int)

  /** The conversion inside the loop over the daily rows. */
  function ToDayStats(row: DbDayStats): (d: DayStats)
    ensures d.date == row.date && d.count == row.count && d.earnings == row.earnings
    ensures d.testCount == row.testCount && d.realCount == row.realCount
    ensures d.testEarnings == Int64OrZero(row.testEarnings) && d.realEarnings == Int64OrZero(row.realEarnings)
  {
    DayStats(row.date, row.count, row.earnings, row.testCount, Int64OrZero(row.testEarnings),
             row.realCount, Int64OrZero(row.realEarnings))
  }

  ghost function Converted(rows: seq<DbDayStats>): seq<DayStats>
  {
    seq(|rows|, k requires 0 <= k < |rows| => ToDayStats(rows[k]))
  }

  /**
   * GetDailyStatsByUserID: `window` holds the dates of the last `days` days,
   * today first.  The rows are converted, then padded only when fewer than
   * `days` came back.  No totals row is ErrNoStats with an empty list.
   */
  method GetDailyStatsByUserID(daily: Result<seq<DbDayStats>, Error>, totals: Result<DbTotals, Error>,
                               window: seq<string>)
    returns (stats: seq<DayStats>, totalEarnings: int, totalCount: int, err: Option<Error>)
    ensures daily.Err? ==> stats == [] && totalEarnings == 0 && totalCount == 0 && err == Some(daily.error)
    ensures daily.Ok? && totals.Err? ==>
              stats == [] && totalEarnings == 0 && totalCount == 0
              && err == Some(if Is(totals.error, PgxNoRows) then Sentinel(NoStats) else totals.error)
    ensures daily.Ok? && totals.Ok? ==>
              err.None? && totalEarnings == Int64OrZero(totals.value.totalEarnings)
              && totalCount == totals.value.totalCount
    ensures daily.Ok? && totals.Ok? && |daily.value| >= |window| ==> stats == Converted(daily.value)
    ensures daily.Ok? && totals.Ok? && |daily.value| < |window| ==>
              LatestOf(stats, Padded(Converted(daily.value), window, DateOf, ZeroDay), |window|, DateOf)
  {
    if daily.Err? {
      return [], 0, 0, Some(daily.error);
    }
    if totals.Err? {
      if Is(totals.error, PgxNoRows) {
        return [], 0, 0, Some(Sentinel(NoStats));
      }
      return [], 0, 0, Some(totals.error);
    }
    var rows := daily.value;
    stats := [];
    for i := 0 to |rows|
      invariant |stats| == i && forall k :: 0 <= k < i ==> stats[k] == ToDayStats(rows[k])
    {
      stats := stats + [ToDayStats(rows[i])];
    }
    assert stats == Converted(rows);
    if |stats| < |window| {
      stats := Pad(stats, window, DateOf, ZeroDay);
    }
    totalEarnings := Int64OrZero(totals.value.totalEarnings);
    totalCount := totals.value.totalCount;
    err := None;
  }

  /** Padding leaves every day of the window with a row whenever no padded row had to be cut. */
  lemma PaddingCoversTheWindow(rows: seq<DbDayStats>, window: seq<string>, stats: seq<DayStats>, d: string)
    requires LatestOf(stats, Padded(Converted(rows), window, DateOf, ZeroDay), |window|, DateOf)
    requires |Padded(Converted(rows), window, DateOf, ZeroDay)| <= |window|
    requires d in window
    ensures exists x :: x in stats && x.date == d
  {
    var all := Padded(Converted(rows), window, DateOf, ZeroDay);
    PaddedCoversWindow(Converted(rows), window, DateOf, ZeroDay, d);
    var x :| x in all && DateOf(x) == d;
    NothingCutKeepsAll(stats, all, |window|, DateOf);
    assert x in multiset(all);
  }
}
