# Card-table dashboard pipeline, modelled in Dafny

The modelled service polls a Basecamp card table (a kanban board) and
serves one JSON document per request. Each card in it carries an age in
whole days and a colour for that age. This project models the service's
fetch-and-transform core in `app.py`:

- `calculate_card_age`: whole days between a card's creation instant and now.
- `get_card_color`: the three-way red / yellow / green threshold rule.
- `fetch_card_table_data`: fetches the board and then each active column's
  cards, and reshapes them into the snapshot document `{title, columns,
  thresholds}`. Any failure becomes `{"error": ...}`.

The model has these modules:

- `Wrappers` (`wrappers.dfy`): `Option` for a JSON field that may be missing,
  and `Result` for a value or the text of the exception the service catches.
- `Decimal` (`decimal.dfy`): writes an HTTP status code in decimal for the
  board error message, with the inverse reading and its round trip.
- `CardAge` (`card_age.dfy`): the age in days, the colour classifier, and
  their boundary and monotonicity properties.
- `CardTable` (`card_table.dfy`): the raw records of the API's answers and
  the dashboard schema. It also holds the functions that say what each
  card, column and the whole snapshot become, and the lemmas about the
  snapshot.
- `Aggregator` (`aggregator.dfy`): the aggregation as the service runs it.
  These are methods that append to the column list and the card list inside
  loops. Each method is proved equal to the `CardTable` function.

Inputs the service gets from outside are parameters:

- the board response (status code and decoded body);
- a function from column id to that column's card response (status code and
  decoded cards);
- the current instant, in integer seconds since the epoch, UTC;
- the two thresholds.

A `created_at` field is modelled as its text plus what parsing that text
gives:

- an instant with a UTC offset, converted to UTC seconds;
- a naive time with no offset (subtracting it from an aware "now" raises
  Python's `TypeError`);
- a parse failure carrying the parser's message.

A missing dictionary key becomes the error text Python's `KeyError` renders,
for example `'id'`. Keys are read in the source's order:

1. per column: `id`, then `title`, then the card request;
2. per card: `created_at`, then its parse, then `title`.

So the first failure in document order is the error reported.

Three points of the code's behaviour that the model keeps:

- A card's assignees are a list, one entry per person in order, duplicates
  included, not a set.
- Column filtering and the board error are inline in `fetch_card_table_data`.
  A transport failure reaches the caller only through the catch-all.
- The classifier checks red first. So the colour is monotone in the age for
  any thresholds, even yellow > red, and `CardColorMonotone` is proved
  without assuming yellow ≤ red.

## Model

| member | source | states |
|---|---|---|
| `CardAge.AgeDays` | app.py:39-44 | the age is the floor of the elapsed seconds over 86400: `days*86400 <= now - created < (days+1)*86400` |
| `CardAge.AgeDaysUnique` | app.py:43 | the floor bounds determine the age: any `d` within them is the age |
| `CardAge.AgeDaysNonNegative` | app.py:39-44 | the age is non-negative if and only if the card was created no later than now |
| `CardAge.AgeDaysOfWholeDays` | app.py:39-44 | a card created `k` days plus less than a day before now is exactly `k` days old |
| `CardAge.AgeDaysMonotone` | app.py:39-44 | the age never decreases as now advances |
| `CardAge.CardColor` | app.py:46-53 | red `#fee2e2` iff age ≥ red; yellow `#fef3c7` iff yellow ≤ age < red; green `#d1fae5` iff age is below both; always one of the three |
| `CardAge.CardColorMonotone` | app.py:46-53 | an older card is never shown in a less severe colour (green < yellow < red), for any thresholds |
| `CardAge.CardColorBoundaries` | app.py:46-53 | with yellow < red: age = red is red, age = yellow is yellow, age = yellow − 1 is green |
| `CardAge.DefaultScenarios` | app.py:25-53 | with the default thresholds 3 and 14, a card 20 days old has age 20 and is red, and a card one day old is green |
| `Decimal.FromNat` | app.py:63 | the status is written as a non-empty string of decimal digits without a leading zero |
| `Decimal.FromNatRoundTrip` | app.py:63 | reading the written digits back gives the status code |
| `Decimal.FromNatInjective` | app.py:63 | different status codes give different texts |
| `CardTable.TitleOf` | app.py:111 | the snapshot title is the board's `title`, or `"Card Table"` when it is missing |
| `CardTable.ActiveColumns` | app.py:68-71 | a list is kept iff its `type` is `Kanban::Column` or `Kanban::Triage`; nothing is added |
| `CardTable.ActiveColumnsAppend` | app.py:71 | filtering keeps source order: the filter of a concatenation is the concatenation of the filters |
| `CardTable.ActiveColumnsKeepsAll` | app.py:71 | a list of only active columns is kept whole and in order |
| `CardTable.ActiveColumnsDropsAll` | app.py:71 | a list with no active column gives no column |
| `CardTable.PersonNames` | app.py:93 | one name per assignee, in order; a person without `name` gives `"Unassigned"` |
| `CardTable.Assignees` | app.py:93-95 | the assignee list is never empty: exactly `["Unassigned"]` when the card has nobody, otherwise one name per person in order |
| `CardTable.NormaliseCard` | app.py:88-103 | a card fails on a missing `created_at`, then on a parse or naive-time error, then on a missing `title`; otherwise its title and `created_at` text are copied, and its age, colour and assignees are computed |
| `CardTable.NormaliseCards` | app.py:83-103 | a column's cards succeed iff every card does, and then there is one output card per raw card, in order |
| `CardTable.NormaliseCardsFirstError` | app.py:88-103 | the column's cards fail with the error of the first failing card |
| `CardTable.NormaliseColumn` | app.py:75-108 | a missing `id`, then a missing `title`, fails the column; a card answer other than 200 gives the column, named by its title, with no cards; otherwise the column holds its normalised cards or fails with their error |
| `CardTable.NormaliseColumns` | app.py:74-108 | the columns succeed iff every active column does, and then there is one output column per active list, in order |
| `CardTable.NormaliseColumnsFirstError` | app.py:74-108 | the active columns together fail with the error of the first failing column |
| `CardTable.CardTableData` | app.py:55-121 | a board answer other than 200 gives only `"Failed to fetch Card Table: <status>"`; with a 200 answer, failing columns give the error document carrying their error; a snapshot carries the board title, the thresholds unchanged and one column per active list |
| `CardTable.SnapshotFirstColumnError` | app.py:74-121 | with the board answered 200, the document is the error of the first failing active column, whatever the later columns hold |
| `CardTable.BoardFailureIsFatal` | app.py:62-63 | a failed board request is an error whatever the card answers are, and its message ends in the status code's digits |
| `CardTable.SnapshotIff` | app.py:57-121 | a snapshot is produced iff the board answers 200 and every active column normalises |
| `CardTable.SnapshotColumn` | app.py:74-108 | column i of a snapshot is active list i: named by its title, empty when its card answer is not 200, and otherwise one card per raw card, in order, with title and `created_at` copied and age, colour and assignees computed |
| `CardTable.ColumnIndependence` | app.py:79-108 | when both runs yield a snapshot, runs that agree on column i's card answer give the same column i (a card answer that fails makes the whole document an error instead) |
| `CardTable.NoListsNoColumns` | app.py:68 | a board without `lists` yields a snapshot with no columns |
| `CardTable.SnapshotCardsWellFormed` | app.py:88-103 | every card of a snapshot has a non-empty assignee list and one of the three colours |
| `CardTable.UnauthorisedBoard` | app.py:62-63 | a board answered with 401 gives exactly `"Failed to fetch Card Table: 401"` |
| `CardTable.PartialCardFailure` | app.py:71-108 | with an inactive list between two active ones, and the first card request answered 500: both active columns are present, the first empty and the second with its card |
| `Aggregator.ProcessCards` | app.py:83-103 | the card loop, appending one normalised card at a time, returns exactly what `NormaliseCards` describes, including the first card's error |
| `Aggregator.FetchCardTableData` | app.py:55-121 | the column loop, with its early error returns, returns exactly the document `CardTableData` describes |

## Left out

- Flask serving: the app setup, the `/`, `/api/cards` and `/health` routes, template rendering, JSON encoding and `app.run`. They are web plumbing, not logic.
- The HTTP requests themselves: URLs, the bearer-token and User-Agent headers, network errors and timeouts. The answers are inputs instead. A transport exception would reach the caller through the catch-all as some `Error`, and the model has no input that produces one.
- Reading the configuration from the environment and the `int(...)` parsing of the thresholds. The thresholds are parameters, with `DefaultThresholds` (3, 14) as the defaults.
- The wall clock and the `updated_at` field. `now` is a parameter, and `updated_at` is not in the snapshot.
- The clock reading per card. The source reads the clock inside `calculate_card_age`, once for every card and between HTTP requests. The model ages every card against one `now`. So in the source two cards with the same `created_at` can get different ages (across a day boundary), and in the model they cannot.
- ISO-8601 parsing and the replacement of every `Z` in the text by `+00:00`. The model receives the parse outcome, with an aware instant already converted to UTC seconds. Sub-second precision is not kept: instants are whole seconds.
- JSON `null` values and values of an unexpected type. The model's records are always well typed. In the source:
  - a `null` board, column or card `title` is copied into the document as `None`;
  - a `null` column `id` is formatted into the card URL, and the request is still made;
  - a `null` `type` makes the list inactive, which the model gives for a missing `type`;
  - a `null` person `name` is copied as `None`;
  - an empty string or empty object as `lists` or `assignees` is iterated as nothing, so it behaves like an empty list (no columns, or `["Unassigned"]`);
  - a `null` `lists`, `assignees` or `created_at`, any other non-list `lists` or `assignees` (a number, a non-empty string or object), or a non-dict person raises `TypeError` or `AttributeError`, which the catch-all turns into an error.
- Two active lists with the same `id`. The card answers are a function of the column id, so such lists get the same answer. The source makes a separate request for each, and the two answers could differ.
- A body that is not valid JSON, on either request. The responses are modelled already decoded.
- The text of the parser's error for an unparseable `created_at`. The model takes it from the parse outcome as given and does not rebuild it character for character.
