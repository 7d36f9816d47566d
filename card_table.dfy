/** The card-table snapshot: the raw records the project-management API
    returns, how each is normalised into the dashboard's schema, and the
    snapshot a whole board yields. The functions here are the specification
    that the imperative aggregation in module Aggregator is proved against. */
module CardTable {
  import opened Wrappers
  import opened CardAge
  import Decimal

  // ---------------------------------------------------------------------
  // Raw records, as decoded from the API's JSON bodies. A field that may be
  // absent from its JSON object is an Option.
  // ---------------------------------------------------------------------

  /** One entry of a card's `assignees` list. */
  datatype Person = Person(name: Option<string>)

  /** What parsing an ISO-8601 `created_at` text gives: an instant with a UTC
      offset (converted to UTC seconds), a naive local time without offset, or
      a parse failure with the parser's message. */
  datatype Parsed = Aware(utcSeconds: int) | Naive(localSeconds: int) | Unparseable(reason: string)

  /** A `created_at` field: the text as sent, and what it parses to. */
  datatype Stamp = Stamp(text: string, parsed: Parsed)

  datatype RawCard = RawCard(title: Option<string>, createdAt: Option<Stamp>, assignees: Option<seq<Person>>)

  /** The answer to one column's card request. */
  datatype CardResponse = CardResponse(status: nat, cards: seq<RawCard>)

  /** One entry of the board's `lists`; `kind` is the JSON `type` field. */
  datatype RawColumn = RawColumn(id: Option<int>, title: Option<string>, kind: Option<string>)

  datatype BoardBody = BoardBody(title: Option<string>, lists: Option<seq<RawColumn>>)

  /** The answer to the board request. */
  datatype BoardResponse = BoardResponse(status: nat, body: BoardBody)

  // ---------------------------------------------------------------------
  // The dashboard's schema.
  // ---------------------------------------------------------------------

  datatype Card = Card(title: string, ageDays: int, color: string, assignees: seq<string>, createdAt: string)

  datatype ColumnData = ColumnData(name: string, cards: seq<Card>)

  /** The document served for one request: an error, or the whole snapshot. */
  datatype Response =
    | Error(msg: string)
    | Snapshot(title: string, columns: seq<ColumnData>, thresholds: Thresholds)

  const ColumnType: string := "Kanban::Column"
  const TriageType: string := "Kanban::Triage"
  const Unassigned: string := "Unassigned"
  const DefaultTitle: string := "Card Table"
  const BoardErrorPrefix: string := "Failed to fetch Card Table: "
  const Ok200: nat := 200

  /** The messages of the exceptions the catch-all turns into an error: a
      missing dictionary key (Python renders the key quoted), and subtracting
      a naive time from an aware one. */
  const MissingId: string := "'id'"
  const MissingTitle: string := "'title'"
  const MissingCreatedAt: string := "'created_at'"
  const NaiveAwareMessage: string := "can't subtract offset-naive and offset-aware datetimes"

  // ---------------------------------------------------------------------
  // Columns.
  // ---------------------------------------------------------------------

  /** A column of active work: a kanban column or the triage column. */
  predicate IsActive(col: RawColumn) {
    col.kind == Some(ColumnType) || col.kind == Some(TriageType)
  }

  /** The board's `lists`, or none when the field is missing. */
  function ListsOf(body: BoardBody): seq<RawColumn> {
    match body.lists
    case None => []
    case Some(lists) => lists
  }

  /** The board's title, or the default when the field is missing. */
  function TitleOf(body: BoardBody): (title: string)
    ensures body.title.None? ==> title == DefaultTitle
    ensures body.title.Some? ==> title == body.title.value
  {
    match body.title
    case None => DefaultTitle
    case Some(title) => title
  }

  /** The active columns among `lists`, in their order. */
  function ActiveColumns(lists: seq<RawColumn>): (cols: seq<RawColumn>)
    ensures |cols| <= |lists|
    ensures forall c :: c in cols <==> c in lists && IsActive(c)
  {
    if lists == [] then []
    else (if IsActive(lists[0]) then [lists[0]] else []) + ActiveColumns(lists[1..])
  }

  /** Filtering keeps order: the active columns of a concatenation are those
      of the first part followed by those of the second. */
  lemma {:induction false} ActiveColumnsAppend(a: seq<RawColumn>, b: seq<RawColumn>)
    ensures ActiveColumns(a + b) == ActiveColumns(a) + ActiveColumns(b)
  {
    if a == [] {
      assert a + b == b;
    } else {
      assert (a + b)[0] == a[0];
      assert (a + b)[1..] == a[1..] + b;
      ActiveColumnsAppend(a[1..], b);
    }
  }

  /** A list whose columns are all active is kept whole. */
  lemma {:induction false} ActiveColumnsKeepsAll(lists: seq<RawColumn>)
    requires forall i :: 0 <= i < |lists| ==> IsActive(lists[i])
    ensures ActiveColumns(lists) == lists
  {
    if lists != [] {
      ActiveColumnsKeepsAll(lists[1..]);
    }
  }

  /** A list with no active column yields no column. */
  lemma {:induction false} ActiveColumnsDropsAll(lists: seq<RawColumn>)
    requires forall i :: 0 <= i < |lists| ==> !IsActive(lists[i])
    ensures ActiveColumns(lists) == []
  {
    if lists != [] {
      ActiveColumnsDropsAll(lists[1..]);
    }
  }

  // ---------------------------------------------------------------------
  // Cards.
  // ---------------------------------------------------------------------

  /** The display name of one assignee, or the sentinel when it has none. */
  function NameOf(p: Person): string {
    match p.name
    case None => Unassigned
    case Some(name) => name
  }

  /** The display names of `people`, one per person, in order. */
  function PersonNames(people: seq<Person>): (names: seq<string>)
    ensures |names| == |people|
    ensures forall i :: 0 <= i < |people| ==> names[i] == NameOf(people[i])
  {
    if people == [] then [] else [NameOf(people[0])] + PersonNames(people[1..])
  }

  /** A card's `assignees`, or none when the field is missing. */
  function PeopleOf(field: Option<seq<Person>>): seq<Person> {
    match field
    case None => []
    case Some(people) => people
  }

  /** The assignee names of a card: never empty, the sentinel alone when the
      card has nobody, otherwise one name per person in order. */
  function Assignees(field: Option<seq<Person>>): (names: seq<string>)
    ensures names != []
    ensures PeopleOf(field) == [] ==> names == [Unassigned]
    ensures PeopleOf(field) != [] ==>
      |names| == |PeopleOf(field)| &&
      forall i :: 0 <= i < |names| ==> names[i] == NameOf(PeopleOf(field)[i])
  {
    var names := PersonNames(PeopleOf(field));
    if names == [] then [Unassigned] else names
  }

  /** One raw card in the dashboard's schema. The failures come in the order
      the fields are read: `created_at`, then its parse and its subtraction
      from `now`, then `title`. */
  function NormaliseCard(raw: RawCard, now: int, t: Thresholds): (r: Result<Card>)
    ensures raw.createdAt.None? ==> r == Err(MissingCreatedAt)
    ensures raw.createdAt.Some? && raw.createdAt.value.parsed.Unparseable? ==>
      r == Err(raw.createdAt.value.parsed.reason)
    ensures raw.createdAt.Some? && raw.createdAt.value.parsed.Naive? ==> r == Err(NaiveAwareMessage)
    ensures raw.createdAt.Some? && raw.createdAt.value.parsed.Aware? && raw.title.None? ==> r == Err(MissingTitle)
    ensures r.Ok? <==> raw.createdAt.Some? && raw.createdAt.value.parsed.Aware? && raw.title.Some?
    ensures r.Ok? ==>
      var created := raw.createdAt.value;
      && r.value.title == raw.title.value
      && r.value.createdAt == created.text
      && r.value.ageDays == AgeDays(created.parsed.utcSeconds, now)
      && r.value.color == CardColor(r.value.ageDays, t)
      && r.value.assignees == Assignees(raw.assignees)
  {
    match raw.createdAt
    case None => Err(MissingCreatedAt)
    case Some(created) =>
      match created.parsed
      case Unparseable(reason) => Err(reason)
      case Naive(_) => Err(NaiveAwareMessage)
      case Aware(utc) =>
        var age := AgeDays(utc, now);
        var color := CardColor(age, t);
        var assignees := Assignees(raw.assignees);
        match raw.title
        case None => Err(MissingTitle)
        case Some(title) => Ok(Card(title, age, color, assignees, created.text))
  }

  /** The cards of one column, in order; the first card that fails fails them all. */
  function NormaliseCards(raws: seq<RawCard>, now: int, t: Thresholds): (r: Result<seq<Card>>)
    ensures r.Ok? <==> forall i :: 0 <= i < |raws| ==> NormaliseCard(raws[i], now, t).Ok?
    ensures r.Ok? ==>
      |r.value| == |raws| &&
      forall i :: 0 <= i < |raws| ==> NormaliseCard(raws[i], now, t) == Ok(r.value[i])
  {
    if raws == [] then Ok([])
    else
      match NormaliseCard(raws[0], now, t)
      case Err(m) => Err(m)
      case Ok(card) =>
        match NormaliseCards(raws[1..], now, t)
        case Err(m) => Err(m)
        case Ok(rest) => Ok([card] + rest)
  }

  /** The column's cards fail with the error of the first card that fails. */
  lemma {:induction false} NormaliseCardsFirstError(raws: seq<RawCard>, k: nat, now: int, t: Thresholds)
    requires k < |raws|
    requires forall j :: 0 <= j < k ==> NormaliseCard(raws[j], now, t).Ok?
    requires NormaliseCard(raws[k], now, t).Err?
    ensures NormaliseCards(raws, now, t) == Err(NormaliseCard(raws[k], now, t).msg)
  {
    if k > 0 {
      NormaliseCardsFirstError(raws[1..], k - 1, now, t);
    }
  }

  /** One active column in the dashboard's schema. Its `id` and `title` are
      read first; a card request answered with anything but 200 leaves the
      column empty instead of failing the snapshot. */
  function NormaliseColumn(col: RawColumn, fetch: int -> CardResponse, now: int, t: Thresholds): (r: Result<ColumnData>)
    ensures col.id.None? ==> r == Err(MissingId)
    ensures col.id.Some? && col.title.None? ==> r == Err(MissingTitle)
    ensures r.Ok? ==> col.id.Some? && col.title.Some? && r.value.name == col.title.value
    ensures col.id.Some? && col.title.Some? && fetch(col.id.value).status != Ok200 ==>
      r == Ok(ColumnData(col.title.value, []))
    ensures col.id.Some? && col.title.Some? && fetch(col.id.value).status == Ok200 ==>
      match NormaliseCards(fetch(col.id.value).cards, now, t)
      case Err(m) => r == Err(m)
      case Ok(cards) => r == Ok(ColumnData(col.title.value, cards))
  {
    match col.id
    case None => Err(MissingId)
    case Some(id) =>
      match col.title
      case None => Err(MissingTitle)
      case Some(name) =>
        var response := fetch(id);
        if response.status != Ok200 then Ok(ColumnData(name, []))
        else
          match NormaliseCards(response.cards, now, t)
          case Err(m) => Err(m)
          case Ok(cards) => Ok(ColumnData(name, cards))
  }

  /** The active columns, in order; the first column that fails fails them all. */
  function NormaliseColumns(cols: seq<RawColumn>, fetch: int -> CardResponse, now: int, t: Thresholds): (r: Result<seq<ColumnData>>)
    ensures r.Ok? <==> forall i :: 0 <= i < |cols| ==> NormaliseColumn(cols[i], fetch, now, t).Ok?
    ensures r.Ok? ==>
      |r.value| == |cols| &&
      forall i :: 0 <= i < |cols| ==> NormaliseColumn(cols[i], fetch, now, t) == Ok(r.value[i])
  {
    if cols == [] then Ok([])
    else
      match NormaliseColumn(cols[0], fetch, now, t)
      case Err(m) => Err(m)
      case Ok(column) =>
        match NormaliseColumns(cols[1..], fetch, now, t)
        case Err(m) => Err(m)
        case Ok(rest) => Ok([column] + rest)
  }

  /** The active columns fail with the error of the first of them that fails. */
  lemma {:induction false} NormaliseColumnsFirstError(cols: seq<RawColumn>, k: nat, fetch: int -> CardResponse, now: int, t: Thresholds)
    requires k < |cols|
    requires forall j :: 0 <= j < k ==> NormaliseColumn(cols[j], fetch, now, t).Ok?
    requires NormaliseColumn(cols[k], fetch, now, t).Err?
    ensures NormaliseColumns(cols, fetch, now, t) == Err(NormaliseColumn(cols[k], fetch, now, t).msg)
  {
    if k > 0 {
      NormaliseColumnsFirstError(cols[1..], k - 1, fetch, now, t);
    }
  }

  // ---------------------------------------------------------------------
  // The snapshot.
  // ---------------------------------------------------------------------

  /** The document for one request, given the board's answer, the answer to
      each column's card request, the current instant and the thresholds. */
  function CardTableData(board: BoardResponse, fetch: int -> CardResponse, now: int, t: Thresholds): (r: Response)
    ensures board.status != Ok200 ==> r == Error(BoardErrorPrefix + Decimal.FromNat(board.status))
    ensures board.status == Ok200 && NormaliseColumns(ActiveColumns(ListsOf(board.body)), fetch, now, t).Err? ==>
      r == Error(NormaliseColumns(ActiveColumns(ListsOf(board.body)), fetch, now, t).msg)
    ensures r.Snapshot? ==>
      && board.status == Ok200
      && r.title == TitleOf(board.body)
      && r.thresholds == t
      && |r.columns| == |ActiveColumns(ListsOf(board.body))|
  {
    if board.status != Ok200 then Error(BoardErrorPrefix + Decimal.FromNat(board.status))
    else
      match NormaliseColumns(ActiveColumns(ListsOf(board.body)), fetch, now, t)
      case Err(m) => Error(m)
      case Ok(columns) => Snapshot(TitleOf(board.body), columns, t)
  }

  /** A board answered with anything but 200 yields only the error naming
      its status, whatever the card requests would have answered. */
  lemma BoardFailureIsFatal(board: BoardResponse, fetch: int -> CardResponse, now: int, t: Thresholds)
    requires board.status != Ok200
    ensures CardTableData(board, fetch, now, t).Error?
    ensures CardTableData(board, fetch, now, t).msg == BoardErrorPrefix + Decimal.FromNat(board.status)
    ensures Decimal.ToNat(CardTableData(board, fetch, now, t).msg[|BoardErrorPrefix|..]) == board.status
  {
    var msg := CardTableData(board, fetch, now, t).msg;
    assert msg[|BoardErrorPrefix|..] == Decimal.FromNat(board.status);
    Decimal.FromNatRoundTrip(board.status);
  }

  /** A snapshot is produced exactly when the board is answered with 200 and
      every active column has its `id`, its `title` and well-formed cards. */
  lemma SnapshotIff(board: BoardResponse, fetch: int -> CardResponse, now: int, t: Thresholds)
    ensures CardTableData(board, fetch, now, t).Snapshot? <==>
      && board.status == Ok200
      && var cols := ActiveColumns(ListsOf(board.body));
         forall i :: 0 <= i < |cols| ==> NormaliseColumn(cols[i], fetch, now, t).Ok?
  {
    var cols := ActiveColumns(ListsOf(board.body));
    if board.status == Ok200 {
      match NormaliseColumns(cols, fetch, now, t)
      case Ok(columns) =>
        assert CardTableData(board, fetch, now, t) == Snapshot(TitleOf(board.body), columns, t);
      case Err(m) =>
        assert CardTableData(board, fetch, now, t) == Error(m);
    }
  }

  /** The i-th column of a snapshot is the i-th active list: named by its
      title, empty when its card request failed, and otherwise holding one
      card per raw card, in order, each with its fields copied and its age
      and colour computed. */
  lemma {:induction false} SnapshotColumn(board: BoardResponse, fetch: int -> CardResponse, now: int, t: Thresholds, i: int)
    requires CardTableData(board, fetch, now, t).Snapshot?
    requires 0 <= i < |ActiveColumns(ListsOf(board.body))|
    ensures var col := ActiveColumns(ListsOf(board.body))[i];
      var out := CardTableData(board, fetch, now, t).columns[i];
      && col in ListsOf(board.body) && IsActive(col)
      && col.id.Some? && col.title.Some?
      && out.name == col.title.value
      && (fetch(col.id.value).status != Ok200 ==> out.cards == [])
      && (fetch(col.id.value).status == Ok200 ==>
            var raws := fetch(col.id.value).cards;
            && |out.cards| == |raws|
            && forall k :: 0 <= k < |raws| ==>
                 && raws[k].title == Some(out.cards[k].title)
                 && raws[k].createdAt.Some?
                 && raws[k].createdAt.value.text == out.cards[k].createdAt
                 && raws[k].createdAt.value.parsed == Aware(raws[k].createdAt.value.parsed.utcSeconds)
                 && out.cards[k].ageDays == AgeDays(raws[k].createdAt.value.parsed.utcSeconds, now)
                 && out.cards[k].color == CardColor(out.cards[k].ageDays, t)
                 && out.cards[k].assignees == Assignees(raws[k].assignees))
  {
    var cols := ActiveColumns(ListsOf(board.body));
    var columns := NormaliseColumns(cols, fetch, now, t).value;
    var col := cols[i];
    assert NormaliseColumn(col, fetch, now, t) == Ok(columns[i]);
    if col.id.Some? && col.title.Some? && fetch(col.id.value).status == Ok200 {
      var raws := fetch(col.id.value).cards;
      var cards := NormaliseCards(raws, now, t);
      assert cards.Ok?;
      forall k | 0 <= k < |raws|
        ensures NormaliseCard(raws[k], now, t) == Ok(columns[i].cards[k])
      {
      }
    }
  }

  /** When both runs yield a snapshot, the i-th column depends only on the
      answer to its own card request: runs whose answers agree for the i-th
      column's id produce the same i-th column. (A failing answer for any
      column makes the whole document an error instead.) */
  lemma ColumnIndependence(board: BoardResponse, f: int -> CardResponse, g: int -> CardResponse, now: int, t: Thresholds, i: int)
    requires CardTableData(board, f, now, t).Snapshot? && CardTableData(board, g, now, t).Snapshot?
    requires 0 <= i < |ActiveColumns(ListsOf(board.body))|
    requires var col := ActiveColumns(ListsOf(board.body))[i];
      col.id.Some? ==> f(col.id.value) == g(col.id.value)
    ensures CardTableData(board, f, now, t).columns[i] == CardTableData(board, g, now, t).columns[i]
  {
    var cols := ActiveColumns(ListsOf(board.body));
    assert NormaliseColumn(cols[i], f, now, t) == Ok(CardTableData(board, f, now, t).columns[i]);
    assert NormaliseColumn(cols[i], g, now, t) == Ok(CardTableData(board, g, now, t).columns[i]);
  }

  /** With the board answered 200, the document is the error of the first
      active column that fails, whatever the columns after it hold. */
  lemma SnapshotFirstColumnError(board: BoardResponse, fetch: int -> CardResponse, now: int, t: Thresholds, k: nat)
    requires board.status == Ok200
    requires k < |ActiveColumns(ListsOf(board.body))|
    requires var cols := ActiveColumns(ListsOf(board.body));
      forall j :: 0 <= j < k ==> NormaliseColumn(cols[j], fetch, now, t).Ok?
    requires NormaliseColumn(ActiveColumns(ListsOf(board.body))[k], fetch, now, t).Err?
    ensures CardTableData(board, fetch, now, t) ==
      Error(NormaliseColumn(ActiveColumns(ListsOf(board.body))[k], fetch, now, t).msg)
  {
    NormaliseColumnsFirstError(ActiveColumns(ListsOf(board.body)), k, fetch, now, t);
  }

  /** A board without a `lists` field yields a snapshot with no column. */
  lemma NoListsNoColumns(body: BoardBody, fetch: int -> CardResponse, now: int, t: Thresholds)
    requires body.lists.None?
    ensures CardTableData(BoardResponse(Ok200, body), fetch, now, t) == Snapshot(TitleOf(body), [], t)
  {
  }

  /** Every card of a snapshot has at least one assignee and one of the three
      colours. */
  lemma SnapshotCardsWellFormed(board: BoardResponse, fetch: int -> CardResponse, now: int, t: Thresholds, i: int, k: int)
    requires CardTableData(board, fetch, now, t).Snapshot?
    requires 0 <= i < |CardTableData(board, fetch, now, t).columns|
    requires 0 <= k < |CardTableData(board, fetch, now, t).columns[i].cards|
    ensures var card := CardTableData(board, fetch, now, t).columns[i].cards[k];
      && card.assignees != []
      && (card.color == GreenHex || card.color == YellowHex || card.color == RedHex)
  {
    SnapshotColumn(board, fetch, now, t, i);
  }

  /** A board answered with 401 yields the error naming that status. */
  lemma UnauthorisedBoard(body: BoardBody, fetch: int -> CardResponse, now: int, t: Thresholds)
    ensures CardTableData(BoardResponse(401, body), fetch, now, t) == Error("Failed to fetch Card Table: 401")
  {
  }

  /** Three lists, the middle one not active, the first one's card request
      answered with 500: both active columns are present, the first empty and
      the other with its one card. */
  lemma {:induction false} PartialCardFailure(fetch: int -> CardResponse, now: int, created: int)
    requires fetch(1).status == 500
    requires fetch(3) == CardResponse(200, [RawCard(Some("Fix"), Some(Stamp("t", Aware(created))), None)])
    ensures var lists := [
        RawColumn(Some(1), Some("Doing"), Some(ColumnType)),
        RawColumn(Some(2), Some("Done"), Some("Kanban::DoneColumn")),
        RawColumn(Some(3), Some("Triage"), Some(TriageType))];
      var age := AgeDays(created, now);
      CardTableData(BoardResponse(200, BoardBody(None, Some(lists))), fetch, now, DefaultThresholds) ==
        Snapshot(DefaultTitle, [
          ColumnData("Doing", []),
          ColumnData("Triage", [Card("Fix", age, CardColor(age, DefaultThresholds), [Unassigned], "t")])],
          DefaultThresholds)
  {
    var lists := [
      RawColumn(Some(1), Some("Doing"), Some(ColumnType)),
      RawColumn(Some(2), Some("Done"), Some("Kanban::DoneColumn")),
      RawColumn(Some(3), Some("Triage"), Some(TriageType))];
    assert "Kanban::DoneColumn"[8] != ColumnType[8];
    assert !IsActive(lists[1]);
    assert ActiveColumns(lists[2..]) == [lists[2]];
    assert lists[1..][1..] == lists[2..];
    assert ActiveColumns(lists) == [lists[0], lists[2]];
    var t := DefaultThresholds;
    var raws := fetch(3).cards;
    var age := AgeDays(created, now);
    var card := Card("Fix", age, CardColor(age, t), [Unassigned], "t");
    assert Assignees(None) == [Unassigned];
    assert NormaliseCard(raws[0], now, t) == Ok(card);
    assert NormaliseCards(raws[1..], now, t) == Ok([]);
    assert [card] + [] == [card];
    assert NormaliseCards(raws, now, t) == Ok([card]);
    var active := [lists[0], lists[2]];
    assert NormaliseColumn(active[0], fetch, now, t) == Ok(ColumnData("Doing", []));
    assert NormaliseColumn(active[1], fetch, now, t) == Ok(ColumnData("Triage", [card]));
    assert active[1..][1..] == [];
    assert NormaliseColumns(active[1..][1..], fetch, now, t) == Ok([]);
    assert [ColumnData("Triage", [card])] + [] == [ColumnData("Triage", [card])];
    assert NormaliseColumns(active[1..], fetch, now, t) == Ok([ColumnData("Triage", [card])]);
    assert [ColumnData("Doing", [])] + [ColumnData("Triage", [card])] == [ColumnData("Doing", []), ColumnData("Triage", [card])];
    assert NormaliseColumns(active, fetch, now, t) == Ok([ColumnData("Doing", []), ColumnData("Triage", [card])]);
  }
}
