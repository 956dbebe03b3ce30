/** The sales page: it makes sure today has a sheet, records sales on it and
    exports it as CSV text. */
module SalesPage {
  import opened Common
  import opened SalesTypes
  import opened JsText
  import Lists
  import Dashboard

  /** The sheet the page creates for a date that has none. */
  function EmptySheet(d: Day): DailySheet {
    DailySheet(d, d, [])
  }

  /** The sheet shown for today: the first sheet dated today, or an empty
      sheet for today when there is none. */
  function TodaySheetOf(sheets: seq<DailySheet>, today: Day): (r: DailySheet)
    ensures r.date == today
    ensures (forall k :: 0 <= k < |sheets| ==> sheets[k].date != today) ==> r == DailySheet(today, today, [])
    ensures forall i :: 0 <= i < |sheets| && sheets[i].date == today
                        && (forall k :: 0 <= k < i ==> sheets[k].date != today)
                        ==> r == sheets[i]
  {
    match SheetFor(sheets, today)
    case Some(s) => s
    case None => EmptySheet(today)
  }

  /** `sheets.map(s => s.id === id ? t : s)`. */
  function ReplaceSheet(sheets: seq<DailySheet>, id: Day, t: DailySheet): (r: seq<DailySheet>)
    ensures |r| == |sheets|
    ensures forall k :: 0 <= k < |sheets| ==> r[k] == if sheets[k].id == id then t else sheets[k]
  {
    Lists.Replace(sheets, (s: DailySheet) => s.id == id, t)
  }

  /** Putting a sheet for day d in place of the first sheet dated d (and of
      every sheet sharing its id) makes it the sheet found for d. */
  lemma ReplaceFoundSheet(sheets: seq<DailySheet>, d: Day, t: DailySheet)
    requires SheetFor(sheets, d).Some? && t.date == d
    ensures SheetFor(ReplaceSheet(sheets, SheetFor(sheets, d).value.id, t), d) == Some(t)
  {
    var e := SheetFor(sheets, d).value;
    var k := SheetIndex(sheets, d);
    var u := ReplaceSheet(sheets, e.id, t);
    assert u[k] == t;
    var j := SheetIndex(u, d);
    assert j <= k;
    if j < k {
      assert sheets[j].date != d && u[j].date == d;
    }
    assert u[j] == t;
  }

  /** With one sheet per date, whose id is its date, writing t back over the
      sheet found for d changes that one position and keeps one sheet per
      date. */
  lemma ReplaceInWellFormed(sheets: seq<DailySheet>, d: Day, t: DailySheet)
    requires WellFormed(sheets) && SheetFor(sheets, d).Some? && t.date == d && t.id == d
    ensures ReplaceSheet(sheets, SheetFor(sheets, d).value.id, t) == sheets[SheetIndex(sheets, d) := t]
    ensures WellFormed(sheets[SheetIndex(sheets, d) := t])
  {
    var k := SheetIndex(sheets, d);
    var u := ReplaceSheet(sheets, SheetFor(sheets, d).value.id, t);
    assert u == sheets[k := t] by {
      assert forall i :: 0 <= i < |sheets| && i != k ==> sheets[i].id != d;
      assert forall i :: 0 <= i < |sheets| ==> u[i] == sheets[k := t][i];
    }
    assert WellFormed(sheets[k := t]) by {
      assert forall i :: 0 <= i < |sheets| && i != k ==> sheets[k := t][i] == sheets[i];
    }
  }

  /** A sale appended to the first sheet dated d, written back over every
      sheet with that sheet's id, is what looking d up finds afterwards, and
      raises d's revenue by the sale's price.
      With one sheet per date only that sheet changes, and the all-time
      total rises by the same price. */
  lemma AppendSaleToSheet(sheets: seq<DailySheet>, d: Day, sale: Sale)
    requires SheetFor(sheets, d).Some?
    ensures var e := SheetFor(sheets, d).value;
            var u := ReplaceSheet(sheets, e.id, e.(sales := e.sales + [sale]));
            SheetFor(u, d) == Some(e.(sales := e.sales + [sale]))
            && Dashboard.DayTotal(u, d) == Dashboard.DayTotal(sheets, d) + sale.price
            && |u| == |sheets|
            && (WellFormed(sheets) ==>
                  && u == sheets[SheetIndex(sheets, d) := e.(sales := e.sales + [sale])]
                  && WellFormed(u)
                  && Dashboard.AllTimeTotal(u) == Dashboard.AllTimeTotal(sheets) + sale.price)
  {
    var e := SheetFor(sheets, d).value;
    var t := e.(sales := e.sales + [sale]);
    assert t.sales[..|e.sales|] == e.sales;
    ReplaceFoundSheet(sheets, d, t);
    if WellFormed(sheets) {
      ReplaceInWellFormed(sheets, d, t);
      Dashboard.AllTimeTotalUpdate(sheets, SheetIndex(sheets, d), t);
    }
  }

  /** A new sheet for d holding one sale, appended when no sheet is dated d,
      is what looking d up finds afterwards; it raises d's revenue and the all-time total by the sale's price and
      keeps one sheet per date. */
  lemma AppendSheetWithSale(sheets: seq<DailySheet>, d: Day, sale: Sale)
    requires SheetFor(sheets, d).None?
    ensures var u := sheets + [DailySheet(d, d, [sale])];
            SheetFor(u, d) == Some(DailySheet(d, d, [sale]))
            && Dashboard.DayTotal(u, d) == Dashboard.DayTotal(sheets, d) + sale.price
            && Dashboard.AllTimeTotal(u) == Dashboard.AllTimeTotal(sheets) + sale.price
            && (WellFormed(sheets) ==> WellFormed(u))
  {
    var u := sheets + [DailySheet(d, d, [sale])];
    assert [sale][..0] == [];
    assert u[..|sheets|] == sheets;
    assert forall k :: 0 <= k < |sheets| ==> u[k] == sheets[k] && u[k].date != d;
    assert u[|sheets|].date == d;
    assert SheetIndex(u, d) == |sheets|;
    assert SheetFor(u, d) == Some(DailySheet(d, d, [sale]));
    assert SumPrices([sale]) == sale.price;
  }

  const CsvHeader: string := "Jeu,Prix,Heure"

  /** One CSV row per sale: name, price with two decimals, time. */
  function SaleRow(sale: Sale): (row: string)
    ensures row == sale.gameName + "," + Fixed2(sale.price) + "," + sale.time
  {
    JoinThree(sale.gameName, Fixed2(sale.price), sale.time, ",");
    Join([sale.gameName, Fixed2(sale.price), sale.time], ",")
  }

  /** The closing row: an empty cell, "Total" and the sum of the prices. */
  function TotalRow(sales: seq<Sale>): (row: string)
    ensures row == ",Total," + Fixed2(SumPrices(sales))
  {
    JoinThree("", "Total", Fixed2(SumPrices(sales)), ",");
    Join(["", "Total", Fixed2(SumPrices(sales))], ",")
  }

  lemma JoinThree(a: string, b: string, c: string, sep: string)
    ensures Join([a, b, c], sep) == a + sep + b + sep + c
  {
    assert [a, b, c][1..] == [b, c];
    assert [b, c][1..] == [c];
    assert Join([c], sep) == c;
    assert Join([b, c], sep) == b + sep + c;
  }

  /** The lines of the export of a sheet: the header, one row per sale in
      sheet order, then the total row. */
  function CsvLines(sheet: DailySheet): (lines: seq<string>)
    ensures |lines| == |sheet.sales| + 2
    ensures lines[0] == CsvHeader && lines[|sheet.sales| + 1] == TotalRow(sheet.sales)
  {
    [CsvHeader] + SaleRows(sheet.sales) + [TotalRow(sheet.sales)]
  }

  /** The export has the header, one row per sale in sheet order, then the
      total row: n + 2 lines for n sales. */
  lemma CsvLinesShape(sheet: DailySheet)
    ensures |CsvLines(sheet)| == |sheet.sales| + 2
    ensures CsvLines(sheet)[0] == CsvHeader
    ensures forall i :: 0 <= i < |sheet.sales| ==> CsvLines(sheet)[i + 1] == SaleRow(sheet.sales[i])
    ensures CsvLines(sheet)[|sheet.sales| + 1] == TotalRow(sheet.sales)
  {
    CsvLineRows(sheet);
  }

  lemma CsvLineRows(sheet: DailySheet)
    ensures forall i :: 0 <= i < |sheet.sales| ==> CsvLines(sheet)[i + 1] == SaleRow(sheet.sales[i])
  {
    var rows := SaleRows(sheet.sales);
    forall i | 0 <= i < |sheet.sales| ensures CsvLines(sheet)[i + 1] == rows[i] {
      Framed(CsvHeader, rows, TotalRow(sheet.sales), i);
    }
  }

  lemma Framed<T>(first: T, middle: seq<T>, last: T, i: nat)
    requires i < |middle|
    ensures ([first] + middle + [last])[i + 1] == middle[i]
  {
  }

  /** `sheet.sales.map(...)`: one row per sale, in order. */
  function SaleRows(sales: seq<Sale>): (rows: seq<string>)
    ensures |rows| == |sales|
    ensures forall i :: 0 <= i < |sales| ==> rows[i] == SaleRow(sales[i])
  {
    if sales == [] then []
    else
      var rest := SaleRows(sales[1..]);
      assert forall i :: 1 <= i < |sales| ==> sales[i] == sales[1..][i - 1];
      [SaleRow(sales[0])] + rest
  }

  /** The text handleExport builds: the lines joined by newlines. */
  function ExportCsv(sheet: DailySheet): (text: string)
    ensures CsvHeader <= text
  {
    Join(CsvLines(sheet), "\n")
  }

  lemma ShowNumberHasNo(n: int, c: char)
    requires c != '-' && c != '.' && !IsDigit(c)
    ensures c !in ShowNumber(n) && c !in Fixed2(n)
  {
    var ds := ShowNat(if n < 0 then -n else n);
    assert forall k :: 0 <= k < |ds| ==> ds[k] != c;
  }

  lemma {:induction false} CsvLinesHaveNoNewline(sheet: DailySheet)
    requires forall k :: 0 <= k < |sheet.sales| ==> '\n' !in sheet.sales[k].gameName && '\n' !in sheet.sales[k].time
    ensures forall k :: 0 <= k < |CsvLines(sheet)| ==> '\n' !in CsvLines(sheet)[k]
  {
    SaleRowsHaveNo(sheet.sales, '\n');
    TotalRowHasNo(sheet.sales, '\n');
    FramedHasNo(CsvHeader, SaleRows(sheet.sales), TotalRow(sheet.sales), '\n');
  }

  lemma SaleRowsHaveNo(sales: seq<Sale>, c: char)
    requires c != ',' && c != '-' && c != '.' && !IsDigit(c)
    requires forall k :: 0 <= k < |sales| ==> c !in sales[k].gameName && c !in sales[k].time
    ensures forall i :: 0 <= i < |SaleRows(sales)| ==> c !in SaleRows(sales)[i]
  {
    forall i | 0 <= i < |sales| ensures c !in SaleRows(sales)[i] {
      SaleRowHasNo(sales[i], c);
    }
  }

  lemma FramedHasNo<T>(first: seq<T>, middle: seq<seq<T>>, last: seq<T>, c: T)
    requires c !in first && c !in last
    requires forall i :: 0 <= i < |middle| ==> c !in middle[i]
    ensures forall k :: 0 <= k < |middle| + 2 ==> c !in ([first] + middle + [last])[k]
  {
    var all := [first] + middle + [last];
    forall k | 0 <= k < |middle| + 2 ensures c !in all[k] {
      if 0 < k <= |middle| {
        assert all[k] == middle[k - 1];
      }
    }
  }

  lemma SaleRowHasNo(sale: Sale, c: char)
    requires c != ',' && c != '-' && c != '.' && !IsDigit(c)
    requires c !in sale.gameName && c !in sale.time
    ensures c !in SaleRow(sale)
  {
    ShowNumberHasNo(sale.price, c);
  }

  lemma TotalRowHasNo(sales: seq<Sale>, c: char)
    requires c != ',' && c != '-' && c != '.' && !IsDigit(c) && c !in "Total"
    ensures c !in TotalRow(sales)
  {
    ShowNumberHasNo(SumPrices(sales), c);
  }

  /** As long as no game name and no time contains a newline, the export has
      exactly the lines of CsvLines: a header, one line per sale and a total
      line, n + 2 lines for n sales. */
  lemma ExportLines(sheet: DailySheet)
    requires forall k :: 0 <= k < |sheet.sales| ==> '\n' !in sheet.sales[k].gameName && '\n' !in sheet.sales[k].time
    ensures Split(ExportCsv(sheet), '\n') == CsvLines(sheet)
    ensures |Split(ExportCsv(sheet), '\n')| == |sheet.sales| + 2
  {
    CsvLinesShape(sheet);
    CsvLinesHaveNoNewline(sheet);
    SplitJoin(CsvLines(sheet), '\n');
  }

  /** A sale row splits back into its three cells when neither the game
      name nor the time contains a comma; the export does no quoting, so a
      comma in a game name yields a row with more cells. */
  lemma SaleRowCells(sale: Sale)
    requires ',' !in sale.gameName && ',' !in sale.time
    ensures Split(SaleRow(sale), ',') == [sale.gameName, Fixed2(sale.price), sale.time]
  {
    ShowNumberHasNo(sale.price, ',');
    SplitJoin([sale.gameName, Fixed2(sale.price), sale.time], ',');
  }

  lemma FiveAsFixed2()
    ensures Fixed2(5) == "5.00"
  {
    assert DigitChar(5) == '5';
  }

  lemma SumOfOne(sale: Sale)
    ensures SumPrices([sale]) == sale.price
  {
    assert [sale][..0] == [];
  }

  lemma OneSaleRow(sale: Sale)
    requires sale.gameName == "A" && sale.price == 5 && sale.time == "10:00:00"
    ensures SaleRow(sale) == "A,5.00,10:00:00"
  {
    FiveAsFixed2();
  }

  lemma OneSaleTotal(sale: Sale)
    requires sale.price == 5
    ensures TotalRow([sale]) == ",Total,5.00"
  {
    SumOfOne(sale);
    FiveAsFixed2();
  }

  /** A sheet holding one sale of "A" at 5, made at 10:00:00, exports as
      the header, that sale and the total 5.00. */
  lemma ExportOneSale(d: Day, sale: Sale)
    requires sale.gameName == "A" && sale.price == 5 && sale.time == "10:00:00"
    ensures ExportCsv(DailySheet(d, d, [sale]))
         == "Jeu,Prix,Heure" + "\n" + "A,5.00,10:00:00" + "\n" + ",Total,5.00"
  {
    var sheet := DailySheet(d, d, [sale]);
    var row, total := SaleRow(sale), TotalRow([sale]);
    OneSaleRow(sale);
    OneSaleTotal(sale);
    assert CsvLines(sheet) == [CsvHeader, row, total] by {
      CsvLinesShape(sheet);
    }
    JoinThree(CsvHeader, row, total, "\n");
  }

  datatype AddSaleStatus = GameNotFound | Added | NotSaved

  /** The page's state: the loaded games and sheets, the loading flag, whether
      a user is signed in, and today's date, fixed when the page mounts. */
  class SalesPage {
    var games: seq<Game>
    var sheets: seq<DailySheet>
    var loading: bool
    var authenticated: bool
    const today: Day

    /** The state once the load effect has settled. */
    constructor (today: Day, authenticated: bool, loading: bool, games: seq<Game>, sheets: seq<DailySheet>)
      ensures this.today == today && this.authenticated == authenticated && this.loading == loading
      ensures this.games == games && this.sheets == sheets
    {
      this.today := today;
      this.authenticated := authenticated;
      this.loading := loading;
      this.games := games;
      this.sheets := sheets;
    }

    ghost predicate Valid()
      reads this
    {
      WellFormed(sheets)
    }

    /** The sheet the sales view is given. */
    function TodaySheet(): DailySheet
      reads this
    {
      TodaySheetOf(sheets, today)
    }

    /** The effect that creates today's sheet. It does nothing while loading
        or signed out, and nothing when a sheet for today exists; otherwise
        it sends an empty sheet for today to the store and, if the store
        accepts it, appends it. A second run after a success adds nothing. */
    method EnsureTodaySheet(addSheet: Outcome) returns (request: Option<DailySheet>)
      modifies this`sheets
      ensures loading || !authenticated || SheetFor(old(sheets), today).Some? ==>
                request == None && sheets == old(sheets)
      ensures !loading && authenticated && SheetFor(old(sheets), today).None? ==>
                request == Some(DailySheet(today, today, []))
                && sheets == (if addSheet == Done then old(sheets) + [request.value] else old(sheets))
      ensures !loading && authenticated && addSheet == Done ==> SheetFor(sheets, today).Some?
      ensures old(Valid()) ==> Valid()
    {
      request := None;
      if loading || !authenticated {
        return;
      }
      var existing := SheetFor(sheets, today);
      if existing.None? {
        var newSheet := EmptySheet(today);
        request := Some(newSheet);
        if addSheet == Done {
          sheets := sheets + [newSheet];
          assert sheets[|sheets| - 1].date == today;
        }
      }
    }

    /** handleAddSale: looks the game up, builds the sale from the game's
        current name and the given price, then either appends it to today's
        sheet (written back whole) or creates today's sheet holding just that
        sale. A failed write leaves the state as it was. */
    method AddSale(gameId: string, price: int, saleId: string, time: string, write: Outcome)
      returns (status: AddSaleStatus, sale: Option<Sale>)
      modifies this`sheets
      ensures GameById(games, gameId).None? ==> status == GameNotFound && sale == None
      ensures GameById(games, gameId).Some? ==>
                sale == Some(Sale(saleId, gameId, GameById(games, gameId).value.name, price, time))
      ensures status == Added <==> GameById(games, gameId).Some? && write == Done
      ensures status != Added ==> sheets == old(sheets)
      ensures status == Added && SheetFor(old(sheets), today).Some? ==>
                var e := SheetFor(old(sheets), today).value;
                sheets == ReplaceSheet(old(sheets), e.id, e.(sales := e.sales + [sale.value]))
      ensures status == Added && SheetFor(old(sheets), today).None? ==>
                sheets == old(sheets) + [DailySheet(today, today, [sale.value])]
      ensures status == Added ==>
                Dashboard.DayTotal(sheets, today) == Dashboard.DayTotal(old(sheets), today) + price
      ensures old(Valid()) ==> Valid()
      ensures old(Valid()) && status == Added && SheetFor(old(sheets), today).Some? ==>
                var k := SheetIndex(old(sheets), today);
                sheets == old(sheets)[k := old(sheets)[k].(sales := old(sheets)[k].sales + [sale.value])]
      ensures old(Valid()) && status == Added ==>
                Dashboard.AllTimeTotal(sheets) == Dashboard.AllTimeTotal(old(sheets)) + price
    {
      var game := GameById(games, gameId);
      if game.None? {
        return GameNotFound, None;
      }
      var newSale := Sale(saleId, gameId, game.value.name, price, time);
      sale := Some(newSale);
      var existing := SheetFor(sheets, today);
      if existing.Some? {
        var e := existing.value;
        var updated := e.(sales := e.sales + [newSale]);
        if write == Done {
          AppendSaleToSheet(sheets, today, newSale);
          sheets := ReplaceSheet(sheets, e.id, updated);
          status := Added;
        } else {
          status := NotSaved;
        }
      } else {
        if write == Done {
          AppendSheetWithSale(sheets, today, newSale);
          sheets := sheets + [DailySheet(today, today, [newSale])];
          status := Added;
        } else {
          status := NotSaved;
        }
      }
    }

    /** handleExport's text for the sheet on screen. */
    function Export(): string
      reads this
    {
      ExportCsv(TodaySheet())
    }
  }
}
