/** The sales view: the add-sale form (game picker and price field) and the
    table of today's sales with a running total. */
module SalesView {
  import opened Common
  import opened SalesTypes
  import opened JsText

  datatype SaleFormError =
    | SelectGameAndPrice  // "Veuillez sélectionner un jeu et entrer un prix"
    | InvalidPrice        // "Prix invalide"

  /** The call `onAddSale(gameId, price)`. */
  datatype SaleRequest = SaleRequest(gameId: string, price: int)

  /** handleAddSale's checks: a game must be selected and the price field
      filled, then the field must parse to a positive number. */
  function CheckSale(selectedGameId: string, priceText: string): (r: Checked<SaleRequest, SaleFormError>)
    ensures r == Rejected(SelectGameAndPrice) <==> selectedGameId == "" || priceText == ""
    ensures r == Rejected(InvalidPrice) <==>
              selectedGameId != "" && priceText != ""
              && (ParseNumber(priceText).None? || ParseNumber(priceText).value <= 0)
    ensures r.Accepted? ==>
              ParseNumber(priceText).Some? && r.value == SaleRequest(selectedGameId, ParseNumber(priceText).value)
              && r.value.price > 0
  {
    if selectedGameId == "" || priceText == "" then Rejected(SelectGameAndPrice)
    else
      match ParseNumber(priceText)
      case None => Rejected(InvalidPrice)
      case Some(p) => if p <= 0 then Rejected(InvalidPrice) else Accepted(SaleRequest(selectedGameId, p))
  }

  /** Picking a listed game with a positive default price and adding the sale
      straight away records that game at its default price. */
  lemma SelectThenAdd(games: seq<Game>, gameId: string)
    requires gameId != "" && GameById(games, gameId).Some?
    requires GameById(games, gameId).value.defaultPrice > 0
    ensures CheckSale(gameId, ShowNumber(GameById(games, gameId).value.defaultPrice))
            == Accepted(SaleRequest(gameId, GameById(games, gameId).value.defaultPrice))
  {
    ParseShowNumber(GameById(games, gameId).value.defaultPrice);
  }

  /** The two fields of the add-sale form. */
  class SaleForm {
    var selectedGameId: string
    var price: string

    constructor ()
      ensures selectedGameId == "" && price == ""
    {
      selectedGameId, price := "", "";
    }

    /** handleGameSelect: the selection always changes; the price field takes
        the game's default price only when the game is in the list. */
    method HandleGameSelect(games: seq<Game>, gameId: string)
      modifies this
      ensures selectedGameId == gameId
      ensures GameById(games, gameId).Some? ==> price == ShowNumber(GameById(games, gameId).value.defaultPrice)
      ensures GameById(games, gameId).None? ==> price == old(price)
    {
      selectedGameId := gameId;
      var game := GameById(games, gameId);
      if game.Some? {
        price := ShowNumber(game.value.defaultPrice);
      }
    }

    /** handleAddSale: on accepted input it calls onAddSale once and clears
        both fields; on refused input it calls nothing and changes nothing. */
    method HandleAddSale() returns (call: Option<SaleRequest>, error: Option<SaleFormError>)
      modifies this
      ensures var c := CheckSale(old(selectedGameId), old(price));
              (c.Accepted? ==> call == Some(c.value) && error == None && selectedGameId == "" && price == "")
              && (c.Rejected? ==> call == None && error == Some(c.error)
                                  && selectedGameId == old(selectedGameId) && price == old(price))
    {
      var c := CheckSale(selectedGameId, price);
      if c.Rejected? {
        return None, Some(c.error);
      }
      call, error := Some(c.value), None;
      selectedGameId, price := "", "";
    }
  }

  /** One line of the table: its number, the sale and the running total. */
  datatype SalesRow = SalesRow(number: nat, gameName: string, price: int, time: string, cumulative: int)

  lemma PrefixSums(sales: seq<Sale>)
    ensures forall j :: 0 < j <= |sales| ==> SumPrices(sales[..j]) == SumPrices(sales[..j - 1]) + sales[j - 1].price
  {
    forall j | 0 < j <= |sales| ensures SumPrices(sales[..j]) == SumPrices(sales[..j - 1]) + sales[j - 1].price {
      assert sales[..j][..j - 1] == sales[..j - 1];
    }
  }

  /** The rows of today's table, in sheet order, numbered from 1. Each
      running total is the previous one plus the row's price, and the last
      one is the day's total shown in the footer. */
  function SalesRows(sheet: DailySheet): (rows: seq<SalesRow>)
    ensures |rows| == |sheet.sales|
    ensures forall i :: 0 <= i < |rows| ==>
              rows[i].number == i + 1 && rows[i].gameName == sheet.sales[i].gameName
              && rows[i].price == sheet.sales[i].price && rows[i].time == sheet.sales[i].time
    ensures |rows| > 0 ==> rows[0].cumulative == sheet.sales[0].price
    ensures forall i :: 0 < i < |rows| ==> rows[i].cumulative == rows[i - 1].cumulative + sheet.sales[i].price
    ensures |rows| > 0 ==> rows[|rows| - 1].cumulative == SumPrices(sheet.sales)
  {
    var sales := sheet.sales;
    PrefixSums(sales);
    assert sales[..|sales|] == sales;
    seq(|sales|, i requires 0 <= i < |sales| =>
      SalesRow(i + 1, sales[i].gameName, sales[i].price, sales[i].time, SumPrices(sales[..i + 1])))
  }
}
