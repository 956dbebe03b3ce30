/** The records of the sales tracker: games, sales, daily sheets and users. */
module SalesTypes {
  import opened Common
  import Lists

  /** A calendar date as a day number; consecutive days differ by one, and
      ordering day numbers orders the YYYY-MM-DD strings the app uses. */
  type Day = int

  /** A catalogue entry. Amounts are integers in one fixed unit. */
  datatype Game = Game(id: string, name: string, defaultPrice: int)

  /** One recorded transaction; gameName and price are copies taken when the
      sale is recorded, not references to the catalogue. */
  datatype Sale = Sale(id: string, gameId: string, gameName: string, price: int, time: string)

  /** The sales of one date. The app gives a sheet the id of its date. */
  datatype DailySheet = DailySheet(id: Day, date: Day, sales: seq<Sale>)

  datatype Role = Gerant | Proprietaire

  /** An account; the password is kept and compared as plain text. */
  datatype User = User(id: string, username: string, password: string, role: Role, name: string)

  /** `sales.reduce((sum, sale) => sum + sale.price, 0)`, folded from the left. */
  function SumPrices(sales: seq<Sale>): int {
    if sales == [] then 0 else SumPrices(sales[..|sales| - 1]) + sales[|sales| - 1].price
  }

  lemma {:induction false} SumPricesAppend(a: seq<Sale>, b: seq<Sale>)
    ensures SumPrices(a + b) == SumPrices(a) + SumPrices(b)
  {
    if b == [] {
      assert a + b == a;
    } else {
      assert (a + b)[..|a + b| - 1] == a + b[..|b| - 1];
      SumPricesAppend(a, b[..|b| - 1]);
    }
  }

  /** `sheets.find(s => s.date === d)`. */
  function SheetFor(sheets: seq<DailySheet>, d: Day): (r: Option<DailySheet>)
    ensures r.None? <==> forall k :: 0 <= k < |sheets| ==> sheets[k].date != d
    ensures r.Some? ==> SheetIndex(sheets, d) < |sheets| && r.value == sheets[SheetIndex(sheets, d)]
  {
    Lists.Find(sheets, (s: DailySheet) => s.date == d)
  }

  /** Position of the first sheet dated d, or |sheets| when there is none. */
  function SheetIndex(sheets: seq<DailySheet>, d: Day): (i: nat)
    ensures i <= |sheets|
    ensures i < |sheets| ==> sheets[i].date == d
    ensures forall k :: 0 <= k < i ==> sheets[k].date != d
  {
    Lists.FindIndex(sheets, (s: DailySheet) => s.date == d)
  }

  /** `games.find(g => g.id === id)`. */
  function GameById(games: seq<Game>, id: string): (r: Option<Game>)
    ensures r.None? <==> forall k :: 0 <= k < |games| ==> games[k].id != id
    ensures r.Some? ==> r.value in games && r.value.id == id
    ensures r.Some? ==> exists i :: 0 <= i < |games| && games[i] == r.value && forall k :: 0 <= k < i ==> games[k].id != id
  {
    var p := (g: Game) => g.id == id;
    var r := Lists.Find(games, p);
    var i := Lists.FindIndex(games, p);
    assert r.Some? ==> i < |games| && games[i] == r.value && forall k :: 0 <= k < i ==> games[k].id != id;
    r
  }

  /** The shape the app keeps its sheets in: each sheet has the id of its
      date, and no two sheets share a date. */
  ghost predicate WellFormed(sheets: seq<DailySheet>) {
    && (forall k :: 0 <= k < |sheets| ==> sheets[k].id == sheets[k].date)
    && (forall i, j :: 0 <= i < j < |sheets| ==> sheets[i].date != sheets[j].date)
  }
}
