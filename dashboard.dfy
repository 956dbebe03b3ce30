/** The figures of the dashboard view: today's and yesterday's revenue and
    sale counts, their day-over-day change and trend, the all-time total, the
    revenue per game of today and the series of the last seven days. */
module Dashboard {
  import opened Common
  import opened SalesTypes

  /** Revenue of the first sheet dated d, or 0 when no sheet has that date. */
  function DayTotal(sheets: seq<DailySheet>, d: Day): (t: int)
    ensures SheetFor(sheets, d).None? ==> t == 0
  {
    match SheetFor(sheets, d)
    case Some(s) => SumPrices(s.sales)
    case None => 0
  }

  /** Number of sales of the first sheet dated d, or 0 when there is none. */
  function DayCount(sheets: seq<DailySheet>, d: Day): (c: nat)
    ensures SheetFor(sheets, d).None? ==> c == 0
  {
    match SheetFor(sheets, d)
    case Some(s) => |s.sales|
    case None => 0
  }

  /** A date without a sheet has no revenue and no sales; otherwise both are
      read from the earliest sheet with that date. */
  lemma DayFiguresOfFirstSheet(sheets: seq<DailySheet>, d: Day)
    ensures (forall k :: 0 <= k < |sheets| ==> sheets[k].date != d) ==>
              DayTotal(sheets, d) == 0 && DayCount(sheets, d) == 0
    ensures forall i :: 0 <= i < |sheets| && sheets[i].date == d
                        && (forall k :: 0 <= k < i ==> sheets[k].date != d)
                        ==> DayTotal(sheets, d) == SumPrices(sheets[i].sales)
                            && DayCount(sheets, d) == |sheets[i].sales|
  {
    forall i | 0 <= i < |sheets| && sheets[i].date == d && (forall k :: 0 <= k < i ==> sheets[k].date != d)
      ensures DayTotal(sheets, d) == SumPrices(sheets[i].sales) && DayCount(sheets, d) == |sheets[i].sales|
    {
      FirstSheetIsFound(sheets, d, i);
    }
  }

  /** The first sheet with a date is the one `find` returns. */
  lemma FirstSheetIsFound(sheets: seq<DailySheet>, d: Day, i: nat)
    requires i < |sheets| && sheets[i].date == d
    requires forall k :: 0 <= k < i ==> sheets[k].date != d
    ensures SheetFor(sheets, d) == Some(sheets[i])
  {
    assert SheetIndex(sheets, d) == i;
  }

  /** Sum over all sheets of each sheet's revenue, folded from the left. */
  function AllTimeTotal(sheets: seq<DailySheet>): (t: int)
    ensures |sheets| == 1 ==> t == SumPrices(sheets[0].sales)
  {
    if sheets == [] then 0
    else AllTimeTotal(sheets[..|sheets| - 1]) + SumPrices(sheets[|sheets| - 1].sales)
  }

  /** Every sale of every sheet, sheet after sheet. */
  function AllSales(sheets: seq<DailySheet>): seq<Sale> {
    if sheets == [] then [] else AllSales(sheets[..|sheets| - 1]) + sheets[|sheets| - 1].sales
  }

  /** The all-time total is the sum of the prices of every sale ever recorded. */
  lemma {:induction false} AllTimeTotalIsSumOfAllSales(sheets: seq<DailySheet>)
    ensures AllTimeTotal(sheets) == SumPrices(AllSales(sheets))
  {
    if sheets != [] {
      var init := sheets[..|sheets| - 1];
      AllTimeTotalIsSumOfAllSales(init);
      SumPricesAppend(AllSales(init), sheets[|sheets| - 1].sales);
    }
  }

  /** Replacing one sheet changes the all-time total by the difference of the
      two sheets' revenues. */
  lemma {:induction false} AllTimeTotalUpdate(sheets: seq<DailySheet>, k: nat, t: DailySheet)
    requires k < |sheets|
    ensures AllTimeTotal(sheets[k := t])
            == AllTimeTotal(sheets) - SumPrices(sheets[k].sales) + SumPrices(t.sales)
  {
    var n := |sheets|;
    var u := sheets[k := t];
    if k == n - 1 {
      assert u[..n - 1] == sheets[..n - 1];
    } else {
      assert u[..n - 1] == sheets[..n - 1][k := t];
      AllTimeTotalUpdate(sheets[..n - 1], k, t);
    }
  }

  /** `yesterday > 0 ? (today - yesterday) / yesterday * 100 : 0`: the change
      in percent, with no change reported when the earlier value is not
      positive (this guards the division). */
  function Change(today: int, yesterday: int): (r: real)
    ensures yesterday <= 0 ==> r == 0.0
    ensures yesterday > 0 ==> r * (yesterday as real) == ((today - yesterday) * 100) as real
  {
    if yesterday > 0 then ((today - yesterday) as real / yesterday as real) * 100.0 else 0.0
  }

  datatype Trend = Up | Down

  /** `today >= yesterday ? "up" : "down"`. */
  function TrendOf(today: int, yesterday: int): (t: Trend)
    ensures t == Up <==> today >= yesterday
  {
    if today >= yesterday then Up else Down
  }

  /** Whenever a change is computed, the trend arrow agrees with its sign. */
  lemma TrendAgreesWithChange(today: int, yesterday: int)
    requires yesterday > 0
    ensures TrendOf(today, yesterday) == Up <==> Change(today, yesterday) >= 0.0
  {
    var r, y := Change(today, yesterday), yesterday as real;
    assert r * y == ((today - yesterday) * 100) as real;
    PositiveFactorKeepsSign(r, y);
  }

  lemma PositiveFactorKeepsSign(r: real, y: real)
    requires y > 0.0
    ensures r >= 0.0 <==> r * y >= 0.0
  {
  }

  /** The four metric cards. */
  datatype Metrics = Metrics(
    todayTotal: int, yesterdayTotal: int, allTimeTotal: int,
    todayCount: nat, yesterdayCount: nat,
    change: real, countChange: real,
    revenueTrend: Trend, countTrend: Trend,
    activeDays: nat)

  /** The cards for today's date: today is compared with the day before, and
      the number of active days is the number of sheets. */
  function MetricsOf(sheets: seq<DailySheet>, today: Day): (m: Metrics)
    ensures m.activeDays == |sheets|
    ensures m.todayTotal == DayTotal(sheets, today) && m.yesterdayTotal == DayTotal(sheets, today - 1)
    ensures m.todayCount == DayCount(sheets, today) && m.yesterdayCount == DayCount(sheets, today - 1)
    ensures m.allTimeTotal == AllTimeTotal(sheets) && m.allTimeTotal == SumPrices(AllSales(sheets))
    ensures m.change == Change(m.todayTotal, m.yesterdayTotal)
    ensures m.countChange == Change(m.todayCount, m.yesterdayCount)
    ensures m.yesterdayTotal <= 0 ==> m.change == 0.0
    ensures m.yesterdayCount == 0 ==> m.countChange == 0.0 && m.countTrend == Up
    ensures SheetFor(sheets, today - 1).None? ==> m.change == 0.0 && m.countChange == 0.0 && m.countTrend == Up
    ensures m.revenueTrend == Up <==> m.todayTotal >= m.yesterdayTotal
    ensures m.countTrend == Up <==> m.todayCount >= m.yesterdayCount
  {
    var tt, yt := DayTotal(sheets, today), DayTotal(sheets, today - 1);
    var tc, yc := DayCount(sheets, today), DayCount(sheets, today - 1);
    AllTimeTotalIsSumOfAllSales(sheets);
    Metrics(tt, yt, AllTimeTotal(sheets), tc, yc, Change(tt, yt), Change(tc, yc),
            TrendOf(tt, yt), TrendOf(tc, yc), |sheets|)
  }

  /** The distinct dates that have a sheet. */
  function Dates(sheets: seq<DailySheet>): set<Day> {
    if sheets == [] then {} else Dates(sheets[..|sheets| - 1]) + {sheets[|sheets| - 1].date}
  }

  /** A date is among the dates exactly when some sheet carries it. */
  lemma {:induction false} DatesMembers(sheets: seq<DailySheet>)
    ensures forall k :: 0 <= k < |sheets| ==> sheets[k].date in Dates(sheets)
    ensures forall d :: d in Dates(sheets) ==> exists k :: 0 <= k < |sheets| && sheets[k].date == d
  {
    if sheets != [] {
      var init := sheets[..|sheets| - 1];
      DatesMembers(init);
      assert forall k :: 0 <= k < |init| ==> init[k] == sheets[k];
    }
  }

  /** With one sheet per date, the active-days card counts the distinct
      dates on which the shop had a sheet. */
  lemma ActiveDaysCountsDates(sheets: seq<DailySheet>)
    requires WellFormed(sheets)
    ensures |Dates(sheets)| == MetricsOf(sheets, 0).activeDays
  {
    DistinctDates(sheets);
  }

  lemma {:induction false} DistinctDates(sheets: seq<DailySheet>)
    requires forall i, j :: 0 <= i < j < |sheets| ==> sheets[i].date != sheets[j].date
    ensures |Dates(sheets)| == |sheets|
  {
    if sheets != [] {
      var init := sheets[..|sheets| - 1];
      assert forall k :: 0 <= k < |init| ==> init[k] == sheets[k];
      DistinctDates(init);
      NewDateGrowsDates(sheets);
    }
  }

  /** A last sheet whose date no earlier sheet has adds one date. */
  lemma NewDateGrowsDates(sheets: seq<DailySheet>)
    requires sheets != []
    requires forall k :: 0 <= k < |sheets| - 1 ==> sheets[k].date != sheets[|sheets| - 1].date
    ensures |Dates(sheets)| == |Dates(sheets[..|sheets| - 1])| + 1
  {
    var init := sheets[..|sheets| - 1];
    var last := sheets[|sheets| - 1];
    assert last.date !in Dates(init) by {
      DatesMembers(init);
      assert forall k :: 0 <= k < |init| ==> init[k].date == sheets[k].date;
    }
  }

  /** Revenue from the sales whose recorded name is `name`. */
  function GameRevenue(sales: seq<Sale>, name: string): int {
    if sales == [] then 0
    else
      var last := sales[|sales| - 1];
      GameRevenue(sales[..|sales| - 1], name) + (if last.gameName == name then last.price else 0)
  }

  /** The distinct recorded names, in the order in which they first appear. */
  function Names(sales: seq<Sale>): (r: seq<string>)
    ensures forall i, j :: 0 <= i < j < |r| ==> r[i] != r[j]
    ensures forall k :: 0 <= k < |sales| ==> sales[k].gameName in r
    ensures forall j :: 0 <= j < |r| ==> exists k :: 0 <= k < |sales| && sales[k].gameName == r[j]
  {
    if sales == [] then []
    else
      var init := Names(sales[..|sales| - 1]);
      var name := sales[|sales| - 1].gameName;
      if name in init then init else init + [name]
  }

  /** The recorded names as a set. */
  function NameSet(sales: seq<Sale>): set<string> {
    set k | 0 <= k < |sales| :: sales[k].gameName
  }

  /** Sum of the revenues of the given names. */
  function SumRevenues(names: seq<string>, sales: seq<Sale>): int {
    if names == [] then 0
    else SumRevenues(names[..|names| - 1], sales) + GameRevenue(sales, names[|names| - 1])
  }

  lemma {:induction false} RevenueOfAbsentName(sales: seq<Sale>, name: string)
    requires forall k :: 0 <= k < |sales| ==> sales[k].gameName != name
    ensures GameRevenue(sales, name) == 0
  {
    if sales != [] {
      RevenueOfAbsentName(sales[..|sales| - 1], name);
    }
  }

  /** One more sale adds its price to the sum over a list of distinct names
      exactly when its name is in the list. */
  lemma {:induction false} SumRevenuesStep(names: seq<string>, sales: seq<Sale>, x: Sale)
    requires forall i, j :: 0 <= i < j < |names| ==> names[i] != names[j]
    ensures SumRevenues(names, sales + [x])
            == SumRevenues(names, sales) + (if x.gameName in names then x.price else 0)
  {
    assert (sales + [x])[..|sales|] == sales;
    if names != [] {
      var init := names[..|names| - 1];
      SumRevenuesStep(init, sales, x);
      assert x.gameName in names <==> x.gameName in init || x.gameName == names[|names| - 1];
      assert x.gameName == names[|names| - 1] ==> x.gameName !in init;
    }
  }

  /** One more sale raises the sum over the distinct names by its price,
      whether its name is new or already listed. */
  lemma {:induction false} RevenuesStep(init: seq<Sale>, x: Sale)
    ensures SumRevenues(Names(init + [x]), init + [x]) == SumRevenues(Names(init), init) + x.price
  {
    var sales := init + [x];
    var names := Names(init);
    assert sales[..|init|] == init;
    SumRevenuesStep(names, init, x);
    if x.gameName !in names {
      var extended := names + [x.gameName];
      assert extended[..|names|] == names;
      RevenueOfAbsentName(init, x.gameName);
    }
  }

  /** The per-game revenues of a day add up to that day's revenue. */
  lemma {:induction false} RevenuesSumToTotal(sales: seq<Sale>)
    ensures SumRevenues(Names(sales), sales) == SumPrices(sales)
  {
    if sales != [] {
      var init := sales[..|sales| - 1];
      var x := sales[|sales| - 1];
      assert sales == init + [x];
      RevenuesSumToTotal(init);
      RevenuesStep(init, x);
    }
  }

  /** Taking one more sale adds its name to the set of recorded names. */
  lemma NameSetStep(sales: seq<Sale>, i: nat)
    requires i < |sales|
    ensures NameSet(sales[..i + 1]) == NameSet(sales[..i]) + {sales[i].gameName}
  {
    forall n | n in NameSet(sales[..i + 1]) ensures n in NameSet(sales[..i]) + {sales[i].gameName} {
      var k :| 0 <= k < i + 1 && sales[..i + 1][k].gameName == n;
      if k < i { assert sales[..i][k].gameName == n; }
    }
    forall n | n in NameSet(sales[..i]) ensures n in NameSet(sales[..i + 1]) {
      var k :| 0 <= k < i && sales[..i][k].gameName == n;
      assert sales[..i + 1][k].gameName == n;
    }
    assert sales[..i + 1][i].gameName == sales[i].gameName;
  }

  /** Taking one more sale adds its price to its own name's revenue only;
      a name not yet recorded has no revenue so far. */
  lemma RevenueStep(sales: seq<Sale>, i: nat, recorded: set<string>)
    requires i < |sales| && recorded == NameSet(sales[..i])
    ensures forall name :: GameRevenue(sales[..i + 1], name)
                           == GameRevenue(sales[..i], name) + (if sales[i].gameName == name then sales[i].price else 0)
    ensures forall name :: name !in recorded ==> GameRevenue(sales[..i], name) == 0
  {
    assert sales[..i + 1][..i] == sales[..i];
    forall name | name !in recorded ensures GameRevenue(sales[..i], name) == 0 {
      RevenueOfAbsentName(sales[..i], name);
    }
  }

  /** The `salesByGame` loop: a name-to-revenue object filled from today's
      sales, empty when today has no sheet. */
  method SalesByGame(todaySheet: Option<DailySheet>) returns (byGame: map<string, int>)
    ensures todaySheet.None? ==> byGame == map[]
    ensures todaySheet.Some? ==> byGame.Keys == NameSet(todaySheet.value.sales)
    ensures todaySheet.Some? ==>
              forall name :: name in byGame ==> byGame[name] == GameRevenue(todaySheet.value.sales, name)
  {
    byGame := map[];
    if todaySheet.None? {
      return;
    }
    var sales := todaySheet.value.sales;
    var i := 0;
    while i < |sales|
      invariant 0 <= i <= |sales|
      invariant byGame.Keys == NameSet(sales[..i])
      invariant forall name :: name in byGame ==> byGame[name] == GameRevenue(sales[..i], name)
    {
      var sale := sales[i];
      RevenueStep(sales, i, byGame.Keys);
      var sofar := if sale.gameName in byGame then byGame[sale.gameName] else 0;
      byGame := byGame[sale.gameName := sofar + sale.price];
      NameSetStep(sales, i);
      i := i + 1;
    }
    assert sales[..i] == sales;
  }

  /** The keys of the per-game object are the distinct names its entries are
      listed in, so the entries' values add up to today's revenue. */
  lemma NameSetIsNames(sales: seq<Sale>)
    ensures forall name :: name in NameSet(sales) <==> name in Names(sales)
  {
    forall name | name in Names(sales) ensures name in NameSet(sales) {
      var j :| 0 <= j < |Names(sales)| && Names(sales)[j] == name;
      var k :| 0 <= k < |sales| && sales[k].gameName == Names(sales)[j];
    }
  }

  /** The pie chart's values add up to today's revenue: the object's keys are
      the distinct names, and their revenues sum to the revenue of the first
      sheet dated today; with no sheet there is nothing to add up. */
  lemma PieAddsUpToDayTotal(sheets: seq<DailySheet>, today: Day)
    ensures SheetFor(sheets, today).None? ==> DayTotal(sheets, today) == 0
    ensures SheetFor(sheets, today).Some? ==>
              var sales := SheetFor(sheets, today).value.sales;
              (forall name :: name in NameSet(sales) <==> name in Names(sales))
              && SumRevenues(Names(sales), sales) == DayTotal(sheets, today)
  {
    if SheetFor(sheets, today).Some? {
      var sales := SheetFor(sheets, today).value.sales;
      NameSetIsNames(sales);
      RevenuesSumToTotal(sales);
    }
  }

  /** One bar of the seven-day chart. */
  datatype DayPoint = DayPoint(date: Day, revenue: int, sales: nat)

  /** The `last7Days` loop: one point per day from six days before today up
      to today, oldest first, each with that day's revenue and sale count. */
  method Last7Days(sheets: seq<DailySheet>, today: Day) returns (days: seq<DayPoint>)
    ensures |days| == 7
    ensures forall j :: 0 <= j < 7 ==>
              days[j].date == today - 6 + j
              && days[j].revenue == DayTotal(sheets, days[j].date)
              && days[j].sales == DayCount(sheets, days[j].date)
    ensures forall j :: 0 <= j < 7 && SheetFor(sheets, days[j].date).None? ==>
              days[j].revenue == 0 && days[j].sales == 0
  {
    days := [];
    var i := 6;
    while i >= 0
      invariant -1 <= i <= 6
      invariant |days| == 6 - i
      invariant forall j :: 0 <= j < |days| ==>
                  days[j] == DayPoint(today - 6 + j, DayTotal(sheets, today - 6 + j), DayCount(sheets, today - 6 + j))
    {
      var date := today - i;
      var sheet := SheetFor(sheets, date);
      var total := if sheet.Some? then SumPrices(sheet.value.sales) else 0;
      var count := if sheet.Some? then |sheet.value.sales| else 0;
      days := days + [DayPoint(date, total, count)];
      i := i - 1;
    }
  }
}
