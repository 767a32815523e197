/**
 * The spot-rate panel: how the stored `bidChanged` of a quote colours its bid and ask cells.
 */
module SpotRate {
  import opened Wrappers
  import opened MarketData
  import TvScreen

  const Green: string := "#25b325"
  const Red: string := "#f01a1a"
  const White: string := "white"
  const CellBackground: string := "#3b3b3b"

  /** Text colour for a direction: green for "up", red for "down", white for anything else, absent included. */
  function GetColor(change: Option<Change>): (r: string)
    ensures r == Green <==> change == Some(Up)
    ensures r == Red <==> change == Some(Down)
    ensures r == White <==> change != Some(Up) && change != Some(Down)
  {
    if change == Some(Up) then Green
    else if change == Some(Down) then Red
    else White
  }

  /** Cell background: the same dark grey whatever the direction. */
  function GetBackgroundColor(change: Option<Change>): (r: string)
    ensures r == CellBackground
  {
    if change == Some(Up) then CellBackground
    else if change == Some(Down) then CellBackground
    else CellBackground
  }

  /** A price cell: the value it shows and its colours. */
  datatype Cell = Cell(value: Option<real>, color: string, background: string)

  /** The bid cell: the bid, coloured by the bid's direction. */
  function BidCell(q: Quote): (r: Cell)
    ensures r.value == q.bid && r.background == CellBackground
    ensures r.color == Green <==> q.bidChanged == Some(Up)
    ensures r.color == Red <==> q.bidChanged == Some(Down)
    ensures r.color == White <==> q.bidChanged != Some(Up) && q.bidChanged != Some(Down)
  {
    Cell(q.bid, GetColor(q.bidChanged), GetBackgroundColor(q.bidChanged))
  }

  /** The ask cell: the ask, coloured by the bid's direction. */
  function AskCell(q: Quote): (r: Cell)
    ensures r.value == q.ask && r.background == CellBackground
    ensures r.color == Green <==> q.bidChanged == Some(Up)
    ensures r.color == Red <==> q.bidChanged == Some(Down)
    ensures r.color == White <==> q.bidChanged != Some(Up) && q.bidChanged != Some(Down)
  {
    Cell(q.ask, GetColor(q.bidChanged), GetBackgroundColor(q.bidChanged))
  }

  /** There is no ask direction: the ask cell takes the bid cell's colours, whatever the ask does. */
  lemma AskColouredByBid(q: Quote, ask: Option<real>)
    ensures AskCell(q).color == BidCell(q).color && AskCell(q).background == BidCell(q).background
    ensures AskCell(q.(ask := ask)).color == AskCell(q).color
    ensures AskCell(q).value == q.ask && BidCell(q).value == q.bid
  {
  }

  /**
   * After a well-formed event on the TV screen, the symbol's cells turn green exactly when
   * the bid rose above a previous bid, red exactly when it fell or when only one of the two
   * bids is present, and white on first sight of the symbol or an equal bid.
   */
  lemma ColourAfterEvent(store: Store, msg: Option<Quote>)
    requires IsWellFormed(msg)
    ensures
      var s := SymbolOf(msg);
      var q := TvScreen.Merge(store, msg)[s];
      var prev := Lookup(store, s);
      var bid := msg.value.bid;
      && (GetColor(q.bidChanged) == Green <==>
            prev.Some? && bid.Some? && prev.value.bid.Some? && bid.value > prev.value.bid.value)
      && (GetColor(q.bidChanged) == Red <==>
            prev.Some? &&
            ((bid.Some? && prev.value.bid.Some? && bid.value < prev.value.bid.value) ||
             bid.Some? != prev.value.bid.Some?))
      && (GetColor(q.bidChanged) == White <==> prev.None? || bid == prev.value.bid)
  {

  }
}
