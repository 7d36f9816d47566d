/** The aggregation as the service runs it: one pass over the active columns,
    filling the column list and, per column, the card list by appending. */
module Aggregator {
  import opened Wrappers
  import opened CardAge
  import opened CardTable
  import Decimal

  /** The cards of one column, processed one by one and appended in order;
      the first card that lacks a field or cannot be aged fails the column. */
  method ProcessCards(raws: seq<RawCard>, now: int, t: Thresholds) returns (r: Result<seq<Card>>)
    ensures r == NormaliseCards(raws, now, t)
  {
    var cards: seq<Card> := [];
    var k := 0;
    while k < |raws|
      invariant 0 <= k <= |raws|
      invariant |cards| == k
      invariant forall j :: 0 <= j < k ==> NormaliseCard(raws[j], now, t) == Ok(cards[j])
    {
      var card := raws[k];
      if card.createdAt.None? {
        NormaliseCardsFirstError(raws, k, now, t);
        return Err(MissingCreatedAt);
      }
      var created := card.createdAt.value;
      var age: int;
      match created.parsed {
        case Unparseable(reason) =>
          NormaliseCardsFirstError(raws, k, now, t);
          return Err(reason);
        case Naive(_) =>
          NormaliseCardsFirstError(raws, k, now, t);
          return Err(NaiveAwareMessage);
        case Aware(utc) =>
          age := AgeDays(utc, now);
      }
      var color := CardColor(age, t);
      var assignees := PersonNames(PeopleOf(card.assignees));
      if assignees == [] {
        assignees := [Unassigned];
      }
      if card.title.None? {
        NormaliseCardsFirstError(raws, k, now, t);
        return Err(MissingTitle);
      }
      cards := cards + [Card(card.title.value, age, color, assignees, created.text)];
      k := k + 1;
    }
    var normalised := NormaliseCards(raws, now, t);
    assert normalised.Ok?;
    assert |normalised.value| == |cards|;
    assert forall j :: 0 <= j < |raws| ==> normalised.value[j] == cards[j];
    assert normalised.value == cards;
    r := Ok(cards);
  }

  /** Builds the document for one request from the board's answer, the card
      requests' answers (`fetch` gives the answer for a column id), the current
      instant and the thresholds. Every failure the service catches becomes
      `Error`; the result is exactly the snapshot CardTableData describes. */
  method FetchCardTableData(board: BoardResponse, fetch: int -> CardResponse, now: int, t: Thresholds)
    returns (r: Response)
    ensures r == CardTableData(board, fetch, now, t)
  {
    if board.status != Ok200 {
      return Error(BoardErrorPrefix + Decimal.FromNat(board.status));
    }
    var columns := ActiveColumns(ListsOf(board.body));
    var columnsData: seq<ColumnData> := [];
    var i := 0;
    while i < |columns|
      invariant 0 <= i <= |columns|
      invariant |columnsData| == i
      invariant forall j :: 0 <= j < i ==> NormaliseColumn(columns[j], fetch, now, t) == Ok(columnsData[j])
    {
      var column := columns[i];
      if column.id.None? {
        NormaliseColumnsFirstError(columns, i, fetch, now, t);
        return Error(MissingId);
      }
      if column.title.None? {
        NormaliseColumnsFirstError(columns, i, fetch, now, t);
        return Error(MissingTitle);
      }
      var response := fetch(column.id.value);
      var cards: seq<Card> := [];
      if response.status == Ok200 {
        var outcome := ProcessCards(response.cards, now, t);
        if outcome.Err? {
          NormaliseColumnsFirstError(columns, i, fetch, now, t);
          return Error(outcome.msg);
        }
        cards := outcome.value;
      }
      columnsData := columnsData + [ColumnData(column.title.value, cards)];
      i := i + 1;
    }
    var normalised := NormaliseColumns(columns, fetch, now, t);
    assert normalised.Ok?;
    assert |normalised.value| == |columnsData|;
    assert forall j :: 0 <= j < |columns| ==> normalised.value[j] == columnsData[j];
    assert normalised.value == columnsData;
    r := Snapshot(TitleOf(board.body), columnsData, t);
  }
}
