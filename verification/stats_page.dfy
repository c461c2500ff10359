/** The admin statistics page: the monthly chart series that joins the
    completed-projects counts with the earnings of the same year and month. */
module StatsPage {
  import Lists
  import StatsSlice

  /** One point of the monthly chart. The month's display name is left to
      the locale, so the point keeps the year and month it stands for. */
  datatype MonthRow = MonthRow(month: StatsSlice.YearMonth, projects: int, earnings: int)

  /** `earningsByMonth.find(...)`: the earnings of the first entry for that
      year and month, or 0 when there is none. */
  function EarningsFor(es: seq<StatsSlice.MonthEarnings>, ym: StatsSlice.YearMonth): int {
    var k := Lists.IndexOfKey(es, (e: StatsSlice.MonthEarnings) => e.id, ym);
    if k == -1 then 0 else es[k].earnings
  }

  /** `monthlyData`: one point per completed-projects entry. */
  function MonthlyData(charts: StatsSlice.Charts): (rows: seq<MonthRow>)
    ensures |rows| == |charts.completedProjectsByMonth|
    ensures forall i :: 0 <= i < |rows| ==>
              rows[i].month == charts.completedProjectsByMonth[i].id
              && rows[i].projects == charts.completedProjectsByMonth[i].count
  {
    var ps := charts.completedProjectsByMonth;
    seq(|ps|, i requires 0 <= i < |ps| =>
      MonthRow(ps[i].id, ps[i].count, EarningsFor(charts.earningsByMonth, ps[i].id)))
  }

  /** The earnings of a point come from the first earnings entry of the same
      year and month, and are 0 when that month has no entry. */
  lemma MonthlyEarnings(charts: StatsSlice.Charts, i: int)
    requires 0 <= i < |charts.completedProjectsByMonth|
    ensures var ym := charts.completedProjectsByMonth[i].id;
            var es := charts.earningsByMonth;
            var e := MonthlyData(charts)[i].earnings;
            && ((forall j :: 0 <= j < |es| ==> es[j].id != ym) ==> e == 0)
            && (forall j :: (0 <= j < |es| && es[j].id == ym
                               && (forall k :: 0 <= k < j ==> es[k].id != ym)) ==> e == es[j].earnings)
  {
    var ym := charts.completedProjectsByMonth[i].id;
    var es := charts.earningsByMonth;
    var k := Lists.IndexOfKey(es, (e: StatsSlice.MonthEarnings) => e.id, ym);
    forall j | 0 <= j < |es| && es[j].id == ym && (forall k' :: 0 <= k' < j ==> es[k'].id != ym)
      ensures MonthlyData(charts)[i].earnings == es[j].earnings
    {
      assert k >= 0;
      assert !(k < j) && !(j < k);
    }
  }

  /** With at most one earnings entry per month, a point of a month that has
      an entry shows that entry's earnings, whatever the order of the list. */
  lemma UniqueMonthEarnings(charts: StatsSlice.Charts, i: int, j: int)
    requires 0 <= i < |charts.completedProjectsByMonth|
    requires 0 <= j < |charts.earningsByMonth|
    requires charts.earningsByMonth[j].id == charts.completedProjectsByMonth[i].id
    requires forall a, b :: 0 <= a < b < |charts.earningsByMonth| ==>
               charts.earningsByMonth[a].id != charts.earningsByMonth[b].id
    ensures MonthlyData(charts)[i].earnings == charts.earningsByMonth[j].earnings
  {
    var es := charts.earningsByMonth;
    forall k | 0 <= k < j
      ensures es[k].id != es[j].id
    {
    }
    MonthlyEarnings(charts, i);
  }
}
