/** The history view: every sheet as a tab, newest date first, each tab
    showing the day's count, total and numbered sales. */
module HistoryView {
  import opened SalesTypes

  /** Each sheet dated no earlier than the next one. */
  predicate NewestFirst(sheets: seq<DailySheet>) {
    forall i :: 0 < i < |sheets| ==> sheets[i - 1].date >= sheets[i].date
  }

  /** Puts x in front of the first sheet dated no later than x. */
  function Insert(x: DailySheet, ys: seq<DailySheet>): (r: seq<DailySheet>)
    requires NewestFirst(ys)
    ensures NewestFirst(r)
    ensures multiset(r) == multiset(ys) + multiset{x}
    ensures |r| == |ys| + 1
    ensures r[0] == x || (|ys| > 0 && r[0] == ys[0])
    decreases |ys|
  {
    if ys == [] || x.date >= ys[0].date then
      [x] + ys
    else
      var rest := Insert(x, ys[1..]);
      assert ys == [ys[0]] + ys[1..];
      [ys[0]] + rest
  }

  /** `[...sheets].sort((a, b) => b.date.localeCompare(a.date))`: the same
      sheets rearranged so that dates never increase. */
  function SortNewestFirst(sheets: seq<DailySheet>): (r: seq<DailySheet>)
    ensures NewestFirst(r)
    ensures multiset(r) == multiset(sheets)
    ensures |r| == |sheets|
  {
    if sheets == [] then []
    else
      assert sheets == [sheets[0]] + sheets[1..];
      Insert(sheets[0], SortNewestFirst(sheets[1..]))
  }

  lemma {:induction false} NewestFirstPairwise(s: seq<DailySheet>, i: int, j: int)
    requires NewestFirst(s)
    requires 0 <= i <= j < |s|
    ensures s[i].date >= s[j].date
    decreases j - i
  {
    if i < j {
      NewestFirstPairwise(s, i, j - 1);
    }
  }

  /** The sorted order compares every pair, not only neighbours. */
  lemma SortedPairwise(sheets: seq<DailySheet>)
    ensures forall i, j :: 0 <= i < j < |SortNewestFirst(sheets)| ==>
              SortNewestFirst(sheets)[i].date >= SortNewestFirst(sheets)[j].date
  {
    var r := SortNewestFirst(sheets);
    forall i, j | 0 <= i < j < |r| ensures r[i].date >= r[j].date {
      NewestFirstPairwise(r, i, j);
    }
  }

  /** One line of a day's table. */
  datatype HistoryRow = HistoryRow(number: nat, gameName: string, price: int, time: string)

  /** The content of one tab: its date, the header's count and total, and
      the table. */
  datatype Panel = Panel(date: Day, count: nat, total: int, rows: seq<HistoryRow>)

  /** What the view shows: the empty state, or the tabs with the one opened
      first. */
  datatype HistoryScreen = NoHistory | Tabs(defaultTab: Day, panels: seq<Panel>)

  function PanelOf(sheet: DailySheet): (p: Panel)
    ensures p.date == sheet.date && p.count == |sheet.sales| && p.total == SumPrices(sheet.sales)
    ensures |p.rows| == |sheet.sales|
    ensures forall i :: 0 <= i < |p.rows| ==>
              p.rows[i] == HistoryRow(i + 1, sheet.sales[i].gameName, sheet.sales[i].price, sheet.sales[i].time)
  {
    var sales := sheet.sales;
    Panel(sheet.date, |sales|, SumPrices(sales),
          seq(|sales|, i requires 0 <= i < |sales| =>
            HistoryRow(i + 1, sales[i].gameName, sales[i].price, sales[i].time)))
  }

  /** The history screen. With no sheets it shows the empty state; otherwise
      one panel per sheet in newest-first order, and the tab opened first is
      the latest date any sheet has. */
  function Screen(sheets: seq<DailySheet>): (r: HistoryScreen)
    ensures r.NoHistory? <==> sheets == []
    ensures r.Tabs? ==>
              var sorted := SortNewestFirst(sheets);
              |r.panels| == |sheets|
              && (forall i :: 0 <= i < |r.panels| ==> r.panels[i] == PanelOf(sorted[i]))
              && (forall i :: 0 <= i < |sheets| ==> sheets[i].date <= r.defaultTab)
              && (exists i :: 0 <= i < |sheets| && sheets[i].date == r.defaultTab)
  {
    if sheets == [] then NoHistory
    else
      var sorted := SortNewestFirst(sheets);
      LatestFirst(sheets);
      Tabs(sorted[0].date, seq(|sorted|, i requires 0 <= i < |sorted| => PanelOf(sorted[i])))
  }

  /** The first sheet of the sorted order has the latest date of all. */
  lemma LatestFirst(sheets: seq<DailySheet>)
    requires sheets != []
    ensures forall i :: 0 <= i < |sheets| ==> sheets[i].date <= SortNewestFirst(sheets)[0].date
    ensures exists i :: 0 <= i < |sheets| && sheets[i].date == SortNewestFirst(sheets)[0].date
  {
    var r := SortNewestFirst(sheets);
    forall i | 0 <= i < |sheets| ensures sheets[i].date <= r[0].date {
      assert sheets[i] in multiset(r);
      var k :| 0 <= k < |r| && r[k] == sheets[i];
      NewestFirstPairwise(r, 0, k);
    }
    assert r[0] in multiset(sheets);
    var k :| 0 <= k < |sheets| && sheets[k] == r[0];
    assert sheets[k].date == r[0].date;
  }
}
