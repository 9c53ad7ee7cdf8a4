/**
 * internal/store/purchase_store.go: the gorm store's daily statistics.  The
 * totals query comes first and its error ends the call; the daily query's
 * error does not stop the padding and is returned last, next to whatever
 * rows were scanned.
 */
module InternalPurchaseStore {
  import opened Wrappers
  import opened Errors
  import opened DailyStats

  /** The store's DailyStats: date, count and earnings only. */
  datatype DayStats = DayStats(date: string, count: int, earnings: int)

  function DateOf(d: DayStats): string { d.date }

  function ZeroDay(date: string): DayStats
  {
    DayStats(date, 0, 0)
  }

  /** COALESCE(SUM(price), 0) and COUNT(*) over the user's purchases. */
  datatype Totals = Totals(total: int, count: int)

  /**
   * GetDailyStatsByUserID: `window` is the last `days` dates, today first;
   * `daily` the rows the grouped query scanned and `dailyErr` its error.
   */
  method GetDailyStatsByUserID(totals: Result<Totals, Error>, daily: seq<DayStats>, dailyErr: Option<Error>,
                               window: seq<string>)
    returns (stats: seq<DayStats>, totalEarnings: int, totalCount: int, err: Option<Error>)
    ensures totals.Err? ==> stats == [] && totalEarnings == 0 && totalCount == 0 && err == Some(totals.error)
    ensures totals.Ok? ==> totalEarnings == totals.value.total && totalCount == totals.value.count && err == dailyErr
    ensures totals.Ok? && (|daily| == 0 || |daily| < |window|) ==>
              LatestOf(stats, Padded(daily, window, DateOf, ZeroDay), |window|, DateOf)
    ensures totals.Ok? && !(|daily| == 0 || |daily| < |window|) ==> stats == daily
  {
    if totals.Err? {
      return [], 0, 0, Some(totals.error);
    }
    totalEarnings := totals.value.total;
    totalCount := totals.value.count;
    stats := daily;
    if |stats| == 0 || |stats| < |window| {
      stats := Pad(stats, window, DateOf, ZeroDay);
    }
    err := dailyErr;
  }

  /** With no purchases at all, the result is one zero row per window day, latest first, whatever the query error. */
  lemma NoPurchasesGivesZeroWindow(window: seq<string>, stats: seq<DayStats>, d: string)
    requires LatestOf(stats, Padded([], window, DateOf, ZeroDay), |window|, DateOf)
    requires d in window
    ensures ZeroDay(d) in stats
    ensures forall x :: x in stats ==> x.count == 0 && x.earnings == 0
  {
    var all := Padded([], window, DateOf, ZeroDay);
    assert |all| <= |window| by {
      MissingLength(window, Dates([], DateOf));
    }
    NothingCutKeepsAll(stats, all, |window|, DateOf);
    MissingCovers(window, Dates([], DateOf), ZeroDay, DateOf, d);
    assert ZeroDay(d) in multiset(all);
    forall x | x in stats
      ensures x.count == 0 && x.earnings == 0
    {
      assert x in multiset(stats);
      MissingOnlyWindow(window, Dates([], DateOf), ZeroDay, x);
    }
  }

  lemma {:induction false} MissingLength(window: seq<string>, existing: set<string>)
    ensures |Missing(window, existing, ZeroDay)| <= |window|
    decreases |window|
  {
    if window != [] {
      MissingLength(window[..|window| - 1], existing);
    }
  }
}
