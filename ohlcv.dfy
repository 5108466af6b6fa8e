/** Candle (OHLCV) retrieval of `fetch_ohlcv` in main.py: the granularity table, the requested
    time window, the column naming of the returned table, and its ordering by time. */
module Ohlcv {
  import opened Basics
  import Text

  /** The thirteen candle sizes the exchange accepts, in seconds, with their kline labels. */
  const GranularityMap: map<int, string> := map[
    60 := "1min",
    180 := "3min",
    300 := "5min",
    900 := "15min",
    1800 := "30min",
    3600 := "1hour",
    7200 := "2hour",
    14400 := "4hour",
    21600 := "6hour",
    28800 := "8hour",
    43200 := "12hour",
    86400 := "1day",
    604800 := "1week"
  ]

  const ExpectedColumns: seq<string> := ["timestamp", "open", "close", "high", "low", "volume"]

  /** Position of the "close" column once the columns are named. */
  const CloseColumn: nat := 2

  const DefaultGranularity := 900
  const DefaultLimit := 50

  datatype FetchError =
    | InvalidGranularity(granularity: int)
    | ClientFailure(reason: string)
    | NoData
    | TooFewColumns(width: nat)

  /** A label written from the number of seconds alone, in the largest whole unit: an
      independent description of what the table holds. */
  function UnitLabel(seconds: nat): string
    requires seconds > 0 && seconds % 60 == 0
  {
    if seconds % 604800 == 0 then Text.NatToString(seconds / 604800) + "week"
    else if seconds % 86400 == 0 then Text.NatToString(seconds / 86400) + "day"
    else if seconds % 3600 == 0 then Text.NatToString(seconds / 3600) + "hour"
    else Text.NatToString(seconds / 60) + "min"
  }

  /** The lookup `granularity_map[granularity]`, which raises `ValueError` for any other value. */
  function KlineType(granularity: int): (r: Result<string, FetchError>)
    ensures r.Ok? <==> granularity in {60, 180, 300, 900, 1800, 3600, 7200, 14400, 21600, 28800, 43200, 86400, 604800}
    ensures r.Ok? ==> granularity > 0 && granularity % 60 == 0 && r.value == UnitLabel(granularity)
    ensures r.Err? ==> r.error == InvalidGranularity(granularity)
  {
    if granularity in GranularityMap then
      GranularityLabels(granularity);
      Ok(GranularityMap[granularity])
    else Err(InvalidGranularity(granularity))
  }

  /** Every entry of the table is the label `UnitLabel` writes for its number of seconds. */
  lemma GranularityLabels(g: int)
    requires g in GranularityMap
    ensures g > 0 && g % 60 == 0 && GranularityMap[g] == UnitLabel(g)
  {
    assert g in {60, 180, 300, 900, 1800, 3600, 7200, 14400, 21600, 28800, 43200, 86400, 604800};
    if g < 3600 {
      MinuteLabels(g);
    } else if g < 86400 {
      HourLabels(g);
    } else {
      DayLabels(g);
    }
  }

  lemma MinuteLabels(g: int)
    requires g in {60, 180, 300, 900, 1800}
    ensures g in GranularityMap && g > 0 && g % 60 == 0 && GranularityMap[g] == UnitLabel(g)
  {
    if g == 60 {
      assert GranularityMap[g] == "1min" && UnitLabel(g) == "1min";
    } else if g == 180 {
      assert GranularityMap[g] == "3min" && UnitLabel(g) == "3min";
    } else if g == 300 {
      assert GranularityMap[g] == "5min" && UnitLabel(g) == "5min";
    } else if g == 900 {
      assert Text.NatToString(15) == Text.NatToString(1) + [Text.DigitChar(5)];
      assert GranularityMap[g] == "15min" && UnitLabel(g) == "15min";
    } else {
      assert Text.NatToString(30) == Text.NatToString(3) + [Text.DigitChar(0)];
      assert GranularityMap[g] == "30min" && UnitLabel(g) == "30min";
    }
  }

  lemma HourLabels(g: int)
    requires g in {3600, 7200, 14400, 21600, 28800, 43200}
    ensures g in GranularityMap && g > 0 && g % 60 == 0 && GranularityMap[g] == UnitLabel(g)
  {
    if g == 3600 {
      assert GranularityMap[g] == "1hour" && UnitLabel(g) == "1hour";
    } else if g == 7200 {
      assert GranularityMap[g] == "2hour" && UnitLabel(g) == "2hour";
    } else if g == 14400 {
      assert GranularityMap[g] == "4hour" && UnitLabel(g) == "4hour";
    } else if g == 21600 {
      assert GranularityMap[g] == "6hour" && UnitLabel(g) == "6hour";
    } else if g == 28800 {
      assert GranularityMap[g] == "8hour" && UnitLabel(g) == "8hour";
    } else {
      assert Text.NatToString(12) == Text.NatToString(1) + [Text.DigitChar(2)];
      assert GranularityMap[g] == "12hour" && UnitLabel(g) == "12hour";
    }
  }

  lemma DayLabels(g: int)
    requires g in {86400, 604800}
    ensures g in GranularityMap && g > 0 && g % 60 == 0 && GranularityMap[g] == UnitLabel(g)
  {
    if g == 86400 {
      assert GranularityMap[g] == "1day" && UnitLabel(g) == "1day";
    } else {
      assert GranularityMap[g] == "1week" && UnitLabel(g) == "1week";
    }
  }

  /** The epoch-second interval asked for: it ends now and spans `limit` candles. */
  datatype Window = Window(start: int, end: int)

  function CandleWindow(limit: int, granularity: int, now: int): (w: Window)
    ensures w.end == now
    ensures w.end - w.start == limit * granularity
  {
    Window(now - limit * granularity, now)
  }

  /** The call `client.get_kline_data(symbol, kline_type, start=..., end=...)`. */
  datatype CandleQuery = CandleQuery(symbol: string, klineType: string, start: int, end: int)

  /** What the vendor client gives back: candle rows, `None`, or an exception. */
  datatype ClientReply = Rows(rows: seq<seq<real>>) | Nothing | Raised(reason: string)

  /** The number of columns of `pd.DataFrame(klines)`: the longest row (shorter ones are padded). */
  function Width(rows: seq<seq<real>>): (n: nat)
    ensures forall i :: 0 <= i < |rows| ==> |rows[i]| <= n
    ensures rows != [] ==> exists i :: 0 <= i < |rows| && |rows[i]| == n
    ensures rows == [] ==> n == 0
  {
    if rows == [] then 0
    else
      var rest := Width(rows[1..]);
      if |rows[0]| >= rest then |rows[0]| else rest
  }

  function ExtraName(i: nat): string {
    "extra_col_" + Text.NatToString(i)
  }

  /** The column names given to a table of `width` columns; fewer than six raises `ValueError`. */
  function ColumnNames(width: nat): (r: Result<seq<string>, FetchError>)
    ensures r.Ok? <==> width >= 6
    ensures r.Err? ==> r.error == TooFewColumns(width)
    ensures r.Ok? ==> |r.value| == width && r.value[..6] == ExpectedColumns
    ensures r.Ok? ==> forall i :: 6 <= i < width ==> r.value[i] == ExtraName(i - 6)
  {
    if width >= |ExpectedColumns| then
      Ok(ExpectedColumns + seq(width - |ExpectedColumns|, i requires 0 <= i => ExtraName(i)))
    else Err(TooFewColumns(width))
  }

  lemma ExtraNamesDistinct(i: nat, j: nat)
    ensures ExtraName(i) == ExtraName(j) ==> i == j
  {
    if ExtraName(i) == ExtraName(j) {
      var p := "extra_col_";
      assert ExtraName(i)[|p|..] == Text.NatToString(i);
      assert ExtraName(j)[|p|..] == Text.NatToString(j);
      Text.NatToStringInjective(i, j);
    }
  }

  lemma ExtraNameStart(i: nat)
    ensures |ExtraName(i)| > 10 && ExtraName(i)[0] == 'e'
  {
    var prefix, digits := "extra_col_", Text.NatToString(i);
    assert ExtraName(i) == prefix + digits;
    assert (prefix + digits)[0] == prefix[0];
  }

  /** No two columns share a name, so `df["close"]` and the like select a single column. */
  lemma {:induction false} ColumnNamesDistinct(width: nat, i: nat, j: nat)
    requires width >= 6 && i < j < width
    ensures ColumnNames(width).value[i] != ColumnNames(width).value[j]
  {
    var names := ColumnNames(width).value;
    if j >= 6 {
      if i >= 6 {
        ExtraNamesDistinct(i - 6, j - 6);
      } else {
        ExtraNameStart(j - 6);
        assert names[j] == ExtraName(j - 6);
        assert names[i] == names[..6][i] == ExpectedColumns[i];
        assert ExpectedColumns[i][0] != 'e';
      }
    } else {
      assert names[i] == ExpectedColumns[i] && names[j] == ExpectedColumns[j];
    }
  }

  /** The "timestamp" of a row; `None` stands for the NaN of a padded, empty row. */
  function Timestamp(row: seq<real>): Option<real> {
    if |row| > 0 then Some(row[0]) else None
  }

  /** The order `sort_values(by="timestamp")` puts rows in: ascending, missing values last. */
  predicate KeyLe(a: Option<real>, b: Option<real>) {
    match a
    case None => b.None?
    case Some(x) => b.None? || x <= b.value
  }

  predicate Sorted(rows: seq<seq<real>>) {
    forall i, j :: 0 <= i < j < |rows| ==> KeyLe(Timestamp(rows[i]), Timestamp(rows[j]))
  }

  lemma KeyLeTotal(a: Option<real>, b: Option<real>)
    ensures KeyLe(a, b) || KeyLe(b, a)
  {
  }

  /** Places `row` into an already ordered table (one step of the sort). */
  function Insert(row: seq<real>, sorted: seq<seq<real>>): (r: seq<seq<real>>)
    requires Sorted(sorted)
    ensures Sorted(r)
    ensures |r| == |sorted| + 1
    ensures forall k :: 0 <= k < |r| ==> r[k] == row || r[k] in sorted
    ensures multiset(r) == multiset(sorted) + multiset{row}
  {
    if sorted == [] then [row]
    else if KeyLe(Timestamp(row), Timestamp(sorted[0])) then
      [row] + sorted
    else
      var head, tail := sorted[0], Insert(row, sorted[1..]);
      InsertBehindHead(row, sorted, tail);
      assert sorted == [head] + sorted[1..];
      [head] + tail
  }

  lemma InsertBehindHead(row: seq<real>, sorted: seq<seq<real>>, tail: seq<seq<real>>)
    requires Sorted(sorted) && sorted != [] && Sorted(tail)
    requires !KeyLe(Timestamp(row), Timestamp(sorted[0]))
    requires forall k :: 0 <= k < |tail| ==> tail[k] == row || tail[k] in sorted[1..]
    ensures Sorted([sorted[0]] + tail)
  {
    var r := [sorted[0]] + tail;
    KeyLeTotal(Timestamp(row), Timestamp(sorted[0]));
    forall i, j | 0 <= i < j < |r| ensures KeyLe(Timestamp(r[i]), Timestamp(r[j])) {
      if i == 0 {
        assert r[j] == tail[j - 1];
        if r[j] != row {
          var m :| 1 <= m < |sorted| && sorted[m] == r[j];
        }
      } else {
        assert r[i] == tail[i - 1] && r[j] == tail[j - 1];
      }
    }
  }

  /** The table reordered by `df.sort_values(by="timestamp")`. */
  function SortByTimestamp(rows: seq<seq<real>>): (r: seq<seq<real>>)
    ensures Sorted(r)
    ensures multiset(r) == multiset(rows)
  {
    if rows == [] then []
    else
      assert rows == [rows[0]] + rows[1..];
      Insert(rows[0], SortByTimestamp(rows[1..]))
  }

  /** The DataFrame `fetch_ohlcv` returns. */
  datatype Frame = Frame(columns: seq<string>, rows: seq<seq<real>>)

  /** `fetch_ohlcv(symbol, granularity, limit)` with the clock reading `now` (`int(time.time())`)
      and the vendor client as parameters. */
  function FetchOhlcv(symbol: string, granularity: int, limit: int, now: int,
                      client: CandleQuery -> ClientReply): (r: Result<Frame, FetchError>)
    ensures granularity !in GranularityMap ==> r == Err(InvalidGranularity(granularity))
    ensures r.Ok? ==> granularity in GranularityMap && |r.value.rows| > 0
    ensures r.Ok? ==>
      var w := CandleWindow(limit, granularity, now);
      var reply := client(CandleQuery(symbol, GranularityMap[granularity], w.start, w.end));
      && reply.Rows? && reply.rows != []
      && |r.value.columns| == Width(reply.rows) >= 6
      && r.value.columns[..6] == ExpectedColumns
      && Sorted(r.value.rows)
      && multiset(r.value.rows) == multiset(reply.rows)
  {
    match KlineType(granularity)
    case Err(e) => Err(e)
    case Ok(klineType) =>
      var w := CandleWindow(limit, granularity, now);
      match client(CandleQuery(symbol, klineType, w.start, w.end))
      case Raised(reason) => Err(ClientFailure(reason))
      case Nothing => Err(NoData)
      case Rows(rows) =>
        if rows == [] then Err(NoData)
        else
          match ColumnNames(Width(rows))
          case Err(e) => Err(e)
          case Ok(names) => Ok(Frame(names, SortByTimestamp(rows)))
  }

  /** For an accepted granularity the reply to the window query decides: a table exactly when
      it holds rows at least six columns wide, named by `ColumnNames`; otherwise the error of
      the step that raised. */
  lemma FetchOhlcvCases(symbol: string, granularity: int, limit: int, now: int,
                        client: CandleQuery -> ClientReply)
    requires granularity in GranularityMap
    ensures var r := FetchOhlcv(symbol, granularity, limit, now, client);
      var w := CandleWindow(limit, granularity, now);
      var reply := client(CandleQuery(symbol, GranularityMap[granularity], w.start, w.end));
      && (r.Ok? <==> reply.Rows? && reply.rows != [] && Width(reply.rows) >= 6)
      && (r.Ok? ==> r.value.columns == ColumnNames(Width(reply.rows)).value)
      && (reply.Raised? ==> r == Err(ClientFailure(reply.reason)))
      && (reply.Nothing? || reply == Rows([]) ==> r == Err(NoData))
      && (reply.Rows? && reply.rows != [] && Width(reply.rows) < 6 ==> r == Err(TooFewColumns(Width(reply.rows))))
  {
  }

  /** A rejected granularity fails before the client is consulted. */
  lemma RejectedBeforeClient(symbol: string, granularity: int, limit: int, now: int,
                             c1: CandleQuery -> ClientReply, c2: CandleQuery -> ClientReply)
    requires granularity !in GranularityMap
    ensures FetchOhlcv(symbol, granularity, limit, now, c1) == FetchOhlcv(symbol, granularity, limit, now, c2)
    ensures FetchOhlcv(symbol, granularity, limit, now, c1).Err?
  {
  }

  /** An empty or missing reply is an error, never an empty table. */
  lemma EmptyReplyFails(symbol: string, granularity: int, limit: int, now: int,
                        client: CandleQuery -> ClientReply)
    requires granularity in GranularityMap
    requires var w := CandleWindow(limit, granularity, now);
      client(CandleQuery(symbol, GranularityMap[granularity], w.start, w.end)) in {Nothing, Rows([])}
    ensures FetchOhlcv(symbol, granularity, limit, now, client) == Err(NoData)
  {
  }

  /** The close of the most recent candle, `df["close"].iloc[-1]`; `None` is a NaN cell. */
  function LastClose(frame: Frame): Option<real>
    requires |frame.rows| > 0
  {
    var last := frame.rows[|frame.rows| - 1];
    if |last| > CloseColumn then Some(last[CloseColumn]) else None
  }

  /** The last close is the "close" cell of the last row, and NaN exactly when that row is too
      short to have one; in a successfully fetched table that is the most recent candle. */
  lemma LastCloseCell(symbol: string, granularity: int, limit: int, now: int,
                      client: CandleQuery -> ClientReply)
    requires FetchOhlcv(symbol, granularity, limit, now, client).Ok?
    ensures var frame := FetchOhlcv(symbol, granularity, limit, now, client).value;
      var last := frame.rows[|frame.rows| - 1];
      && frame.columns[CloseColumn] == "close"
      && (LastClose(frame).Some? <==> |last| > CloseColumn)
      && (LastClose(frame).Some? ==> LastClose(frame).value == last[CloseColumn])
      && forall k :: 0 <= k < |frame.rows| ==> KeyLe(Timestamp(frame.rows[k]), Timestamp(last))
  {
    var frame := FetchOhlcv(symbol, granularity, limit, now, client).value;
    assert frame.columns[..6][CloseColumn] == ExpectedColumns[CloseColumn];
  }
}
