/**
 * The price-history store (backend/database.py): three append-only tables
 * (price_history, predictions, transactions) whose rows get increasing
 * AUTOINCREMENT ids. The SQLite connection, pandas and SQL text are
 * replaced by the tables' contents; the history query is a pure
 * filter / sort / take over the price_history rows.
 */
module PriceStore {
  import opened Wrappers
  import opened Frames
  import Preprocess

  datatype Table = PriceHistoryTable | PredictionsTable | TransactionsTable

  const AllTables: set<Table> := {PriceHistoryTable, PredictionsTable, TransactionsTable}

  /** A price_history row; a missing (NaN) input cell is stored as NULL, here NA. */
  datatype PriceRow = PriceRow(id: nat, itemId: Cell<int>, price: Cell<int>, quantity: Cell<int>, timestamp: Cell<int>)

  /** A value bound to an INSERT parameter. */
  datatype SqlValue = Null | Integer(i: int) | Real(r: real) | Text(t: string)

  datatype PredictionRow = PredictionRow(
    id: nat, itemId: SqlValue, predictedPrice: SqlValue, confidence: SqlValue, timestamp: SqlValue, targetDate: SqlValue)

  /** A transactions row (BUY or SELL); the table is created but no code writes it. */
  datatype TransactionRow = TransactionRow(
    id: nat, itemId: SqlValue, kind: SqlValue, price: SqlValue, quantity: SqlValue, timestamp: SqlValue, character: SqlValue)

  /** `CREATE TABLE IF NOT EXISTS` for the three tables: existing tables are left as they are. */
  function CreateIfMissing(tables: set<Table>): (r: set<Table>)
    ensures AllTables <= r && tables <= r
  {
    tables + AllTables
  }

  lemma CreateIfMissingIdempotent(tables: set<Table>)
    ensures CreateIfMissing(CreateIfMissing(tables)) == CreateIfMissing(tables)
  {
  }

  // ---------------------------------------------------------------
  // save_scan_data: the four columns of a scan frame, as table rows
  // ---------------------------------------------------------------

  const ScanColumns: seq<string> := ["item_id", "price", "quantity", "timestamp"]

  predicate HasScanColumns(columns: seq<string>)
  {
    forall c | c in ScanColumns :: c in columns
  }

  /** The scan columns the frame lacks, in the order they are asked for. */
  function AbsentScanColumns(columns: seq<string>): (r: seq<string>)
    ensures r == [] <==> HasScanColumns(columns)
    ensures forall c :: c in r <==> c in ScanColumns && c !in columns
    ensures Preprocess.Subsequence(r, ScanColumns)
  {
    NotIn(ScanColumns, columns)
  }

  /** The names not among the columns, in their own order. */
  function NotIn(names: seq<string>, columns: seq<string>): (r: seq<string>)
    ensures r == [] <==> forall c | c in names :: c in columns
    ensures forall c :: c in r <==> c in names && c !in columns
    ensures Preprocess.Subsequence(r, names)
    decreases |names|
  {
    if names == [] then []
    else
      var rest := NotIn(names[1..], columns);
      assert forall c :: c in names <==> c == names[0] || c in names[1..];
      if names[0] in columns then
        rest
      else
        assert ([names[0]] + rest)[1..] == rest;
        [names[0]] + rest
  }

  /** The cell of the column named `name` in one row. */
  function CellOf(columns: seq<string>, row: seq<Cell<int>>, name: string): Cell<int>
    requires name in columns && |row| == |columns|
  {
    row[ColumnIndex(columns, name).value]
  }

  /** `df[['item_id', 'price', 'quantity', 'timestamp']]`: one frame row as a table row. */
  function ScanRow(columns: seq<string>, row: seq<Cell<int>>, id: nat): PriceRow
    requires HasScanColumns(columns) && |row| == |columns|
  {
    assert "item_id" in ScanColumns && "price" in ScanColumns && "quantity" in ScanColumns && "timestamp" in ScanColumns;
    PriceRow(id, CellOf(columns, row, "item_id"), CellOf(columns, row, "price"),
             CellOf(columns, row, "quantity"), CellOf(columns, row, "timestamp"))
  }

  /** The rows `to_sql` appends, numbered after the table's last id `base`. */
  function ScanRows(columns: seq<string>, rows: seq<seq<Cell<int>>>, base: nat): (r: seq<PriceRow>)
    requires HasScanColumns(columns)
    requires forall k :: 0 <= k < |rows| ==> |rows[k]| == |columns|
    ensures |r| == |rows|
    ensures forall k :: 0 <= k < |rows| ==> r[k] == ScanRow(columns, rows[k], base + k + 1)
    decreases |rows|
  {
    if rows == [] then []
    else [ScanRow(columns, rows[0], base + 1)] + ScanRows(columns, rows[1..], base + 1)
  }

  /** The cells of one column, top to bottom. */
  function Column(f: Frame<int>, name: string): (r: seq<Cell<int>>)
    requires Rectangular(f) && name in f.columns
    ensures |r| == |f.rows|
  {
    seq(|f.rows|, k requires 0 <= k < |f.rows| => CellOf(f.columns, f.rows[k], name))
  }

  /**
   * Extra columns are dropped and column order is irrelevant: two frames
   * that agree on the four scan columns append the same rows.
   */
  lemma ScanRowsDependOnlyOnScanColumns(f: Frame<int>, g: Frame<int>, base: nat)
    requires Rectangular(f) && Rectangular(g)
    requires HasScanColumns(f.columns) && HasScanColumns(g.columns)
    requires forall c | c in ScanColumns :: Column(f, c) == Column(g, c)
    ensures ScanRows(f.columns, f.rows, base) == ScanRows(g.columns, g.rows, base)
  {
    assert "item_id" in ScanColumns && "price" in ScanColumns && "quantity" in ScanColumns && "timestamp" in ScanColumns;
    assert |f.rows| == |Column(f, "item_id")| == |Column(g, "item_id")| == |g.rows|;
    forall k | 0 <= k < |f.rows|
      ensures ScanRow(f.columns, f.rows[k], base + k + 1) == ScanRow(g.columns, g.rows[k], base + k + 1)
    {
      assert Column(f, "item_id")[k] == Column(g, "item_id")[k];
      assert Column(f, "price")[k] == Column(g, "price")[k];
      assert Column(f, "quantity")[k] == Column(g, "quantity")[k];
      assert Column(f, "timestamp")[k] == Column(g, "timestamp")[k];
    }
  }

  // ---------------------------------------------------------------
  // get_price_history: filter by item, newest timestamp first, limit
  // ---------------------------------------------------------------

  /**
   * `a` may come before `b` in `ORDER BY timestamp DESC`: a larger or equal
   * timestamp; NULL sorts below every number, so it comes last.
   */
  predicate AtLeast(a: Cell<int>, b: Cell<int>)
  {
    match b
    case NA => true
    case Val(y) => a.Val? && a.v >= y
  }

  predicate SortedDesc(s: seq<PriceRow>)
  {
    forall i, j :: 0 <= i < j < |s| ==> AtLeast(s[i].timestamp, s[j].timestamp)
  }

  /** `WHERE item_id = {item_id}`: NULL equals nothing. */
  function Matching(rows: seq<PriceRow>, itemId: int): (r: seq<PriceRow>)
    ensures forall k :: 0 <= k < |r| ==> r[k].itemId == Val(itemId)
    ensures multiset(r) <= multiset(rows)
    decreases |rows|
  {
    if rows == [] then []
    else if rows[0].itemId == Val(itemId) then
      assert rows == [rows[0]] + rows[1..];
      [rows[0]] + Matching(rows[1..], itemId)
    else
      assert rows == [rows[0]] + rows[1..];
      Matching(rows[1..], itemId)
  }

  /** Every matching row is kept. */
  lemma {:induction false} MatchingKeepsEveryMatch(rows: seq<PriceRow>, itemId: int, x: PriceRow)
    requires x.itemId == Val(itemId)
    ensures multiset(Matching(rows, itemId))[x] == multiset(rows)[x]
    decreases |rows|
  {
    if rows != [] {
      var tail := rows[1..];
      MatchingKeepsEveryMatch(tail, itemId, x);
      assert rows == [rows[0]] + tail;
      assert multiset(rows) == multiset{rows[0]} + multiset(tail);
      if rows[0].itemId == Val(itemId) {
        assert Matching(rows, itemId) == [rows[0]] + Matching(tail, itemId);
      } else {
        assert Matching(rows, itemId) == Matching(tail, itemId);
        assert rows[0] != x;
      }
    }
  }

  /** Insert a row into a list sorted newest first, before the first strictly older row. */
  function Insert(x: PriceRow, s: seq<PriceRow>): (r: seq<PriceRow>)
    requires SortedDesc(s)
    ensures SortedDesc(r)
    ensures multiset(r) == multiset(s) + multiset{x}
    ensures |r| == |s| + 1
    decreases |s|
  {
    if s == [] then [x]
    else if AtLeast(x.timestamp, s[0].timestamp) then
      InsertFront(x, s);
      [x] + s
    else
      var rest := Insert(x, s[1..]);
      InsertBehind(x, s, rest);
      [s[0]] + rest
  }

  /** A row at least as new as the head of a newest-first list goes in front. */
  lemma InsertFront(x: PriceRow, s: seq<PriceRow>)
    requires SortedDesc(s) && s != []
    requires AtLeast(x.timestamp, s[0].timestamp)
    ensures SortedDesc([x] + s)
  {
    assert forall j :: 0 < j < |s| ==> AtLeast(x.timestamp, s[j].timestamp);
    ConsSorted(x, s);
  }

  /** A row strictly older than the head goes behind it, into the rest. */
  lemma InsertBehind(x: PriceRow, s: seq<PriceRow>, rest: seq<PriceRow>)
    requires SortedDesc(s) && s != []
    requires !AtLeast(x.timestamp, s[0].timestamp)
    requires SortedDesc(rest) && multiset(rest) == multiset(s[1..]) + multiset{x}
    ensures SortedDesc([s[0]] + rest)
    ensures multiset([s[0]] + rest) == multiset(s) + multiset{x}
  {
    var tail := s[1..];
    assert AtLeast(s[0].timestamp, x.timestamp);
    assert forall j :: 0 <= j < |tail| ==> AtLeast(s[0].timestamp, tail[j].timestamp);
    assert multiset([x] + tail) == multiset(rest);
    NewestBoundsPermutation(s[0].timestamp, [x] + tail, rest);
    ConsSorted(s[0], rest);
    assert s == [s[0]] + tail;
  }

  /** A row at least as new as every row of a newest-first list can go in front of it. */
  lemma ConsSorted(a: PriceRow, t: seq<PriceRow>)
    requires SortedDesc(t)
    requires forall j :: 0 <= j < |t| ==> AtLeast(a.timestamp, t[j].timestamp)
    ensures SortedDesc([a] + t)
  {
    var r := [a] + t;
    forall i, j | 0 <= i < j < |r| ensures AtLeast(r[i].timestamp, r[j].timestamp) {
      if i > 0 {
        assert r[i] == t[i - 1] && r[j] == t[j - 1];
      }
    }
  }

  /** A timestamp at least every row's of `t` is at least every row's of any rearrangement of `t`. */
  lemma NewestBoundsPermutation(a: Cell<int>, t: seq<PriceRow>, r: seq<PriceRow>)
    requires forall j :: 0 <= j < |t| ==> AtLeast(a, t[j].timestamp)
    requires multiset(r) == multiset(t)
    ensures forall j :: 0 <= j < |r| ==> AtLeast(a, r[j].timestamp)
  {
    forall j | 0 <= j < |r| ensures AtLeast(a, r[j].timestamp) {
      assert r[j] in multiset(t);
      var i :| 0 <= i < |t| && t[i] == r[j];
    }
  }

  /** The matching rows ordered newest first; how equal timestamps are ordered is this model's choice. */
  function SortDesc(s: seq<PriceRow>): (r: seq<PriceRow>)
    ensures SortedDesc(r)
    ensures multiset(r) == multiset(s)
    decreases |s|
  {
    if s == [] then []
    else
      assert s == [s[0]] + s[1..];
      Insert(s[0], SortDesc(s[1..]))
  }

  /** `LIMIT n`: the first `n` rows, or all when there are fewer. */
  function Take(s: seq<PriceRow>, n: nat): (r: seq<PriceRow>)
    ensures |r| == if |s| <= n then |s| else n
    ensures r <= s
  {
    if |s| <= n then s else s[..n]
  }

  /** One admissible answer of the history query. */
  function History(rows: seq<PriceRow>, itemId: int, limit: nat): seq<PriceRow>
  {
    Take(SortDesc(Matching(rows, itemId)), limit)
  }

  /**
   * What the query promises whatever order SQLite gives equal timestamps:
   * `min(limit, #matching)` matching rows, newest first, and no row left out
   * is newer than a row returned.
   */
  ghost predicate IsHistory(rows: seq<PriceRow>, itemId: int, limit: nat, r: seq<PriceRow>)
  {
    var m := Matching(rows, itemId);
    && |r| == (if |m| <= limit then |m| else limit)
    && SortedDesc(r)
    && multiset(r) <= multiset(m)
    && forall x, y :: x in multiset(m) - multiset(r) && y in r ==> AtLeast(y.timestamp, x.timestamp)
  }

  /** A prefix of a newest-first list leaves out no row newer than one it keeps. */
  lemma TakeKeepsNewest(p: seq<PriceRow>, limit: nat)
    requires SortedDesc(p)
    ensures SortedDesc(Take(p, limit))
    ensures multiset(Take(p, limit)) <= multiset(p)
    ensures forall x, y :: x in multiset(p) - multiset(Take(p, limit)) && y in Take(p, limit) ==> AtLeast(y.timestamp, x.timestamp)
  {
    var r := Take(p, limit);
    if |p| > limit {
      var rest := p[limit..];
      assert p == r + rest;
      assert multiset(p) == multiset(r) + multiset(rest);
      forall x, y | x in multiset(p) - multiset(r) && y in r
        ensures AtLeast(y.timestamp, x.timestamp)
      {
        assert x in multiset(rest);
        var i :| 0 <= i < |r| && r[i] == y;
        var j :| 0 <= j < |rest| && rest[j] == x;
        assert p[i] == y && p[limit + j] == x;
      }
    }
  }

  /** The computed answer satisfies the query's promise. */
  lemma HistoryMeetsSpec(rows: seq<PriceRow>, itemId: int, limit: nat)
    ensures IsHistory(rows, itemId, limit, History(rows, itemId, limit))
  {
    var m := Matching(rows, itemId);
    var p := SortDesc(m);
    TakeKeepsNewest(p, limit);
  }

  /** What any answer of the query gives: only rows of that item, from the table, and the edge cases. */
  lemma HistoryProperties(rows: seq<PriceRow>, itemId: int, limit: nat, r: seq<PriceRow>)
    requires IsHistory(rows, itemId, limit, r)
    ensures forall k :: 0 <= k < |r| ==> r[k].itemId == Val(itemId) && r[k] in rows
    ensures |r| <= limit
    ensures limit == 0 ==> r == []
    ensures (forall k :: 0 <= k < |rows| ==> rows[k].itemId != Val(itemId)) ==> r == []
    ensures limit >= |Matching(rows, itemId)| ==> multiset(r) == multiset(Matching(rows, itemId))
  {
    var m := Matching(rows, itemId);
    forall k | 0 <= k < |r| ensures r[k].itemId == Val(itemId) && r[k] in rows {
      assert r[k] in multiset(r);
      assert r[k] in multiset(m);
      assert r[k] in multiset(rows);
      var i :| 0 <= i < |m| && m[i] == r[k];
    }
    if limit >= |m| {
      assert |multiset(r)| == |multiset(m)|;
      MultisetSubsetSameSize(multiset(r), multiset(m));
    }
  }

  lemma MultisetSubsetSameSize<T>(a: multiset<T>, b: multiset<T>)
    requires a <= b && |a| == |b|
    ensures a == b
  {
    assert b == a + (b - a);
    assert |b - a| == 0;
  }

  /**
   * Observations with timestamps 10, 30, 20 for one item: any answer with
   * limit 2 holds the rows stamped 30 and 20, in that order.
   */
  lemma HistoryExample(a: PriceRow, b: PriceRow, c: PriceRow, r: seq<PriceRow>)
    requires a.itemId == b.itemId == c.itemId == Val(7)
    requires a.timestamp == Val(10) && b.timestamp == Val(30) && c.timestamp == Val(20)
    requires IsHistory([a, b, c], 7, 2, r)
    ensures |r| == 2 && r[0] == b && r[1] == c
  {
    ExampleMatching(a, b, c);
    var m := [a, b, c];
    var left := multiset(m) - multiset(r);
    var first, second := r[0], r[1];
    assert r == [first, second];
    assert multiset(r) == multiset{first, second};
    assert multiset(m) == multiset{a, b, c};
    assert first in multiset{a, b, c} && second in multiset{a, b, c};
    assert AtLeast(first.timestamp, second.timestamp);
    // the row stamped 30 cannot be left out: nothing returned would be as new
    assert b in left ==> AtLeast(first.timestamp, b.timestamp);
    assert b in multiset(r);
    // nor can the row stamped 20: only one returned row could be as new
    assert c in left ==> AtLeast(first.timestamp, c.timestamp) && AtLeast(second.timestamp, c.timestamp);
    assert c in multiset(r);
  }

  lemma ExampleMatching(a: PriceRow, b: PriceRow, c: PriceRow)
    requires a.itemId == b.itemId == c.itemId == Val(7)
    ensures Matching([a, b, c], 7) == [a, b, c]
  {
    assert [a, b, c][1..] == [b, c] && [b, c][1..] == [c] && [c][1..] == [];
    assert Matching([c], 7) == [c] + Matching([], 7) == [c];
    assert Matching([b, c], 7) == [b] + Matching([c], 7) == [b, c];
  }

  // ---------------------------------------------------------------
  // save_prediction: one row per input dictionary
  // ---------------------------------------------------------------

  /** The dictionary keys `save_prediction` reads, in the order it reads them. */
  const PredictionKeys: seq<string> := ["item_id", "price", "confidence", "timestamp", "target_date"]

  predicate HasPredictionKeys(p: map<string, SqlValue>)
  {
    forall key | key in PredictionKeys :: key in p
  }

  /** The first key of the five that the dictionary lacks (the KeyError raised). */
  function MissingKey(p: map<string, SqlValue>): (r: Option<string>)
    ensures r.None? <==> HasPredictionKeys(p)
    ensures r.Some? ==> r.value in PredictionKeys && r.value !in p
    ensures r.Some? ==> exists j :: 0 <= j < |PredictionKeys| && PredictionKeys[j] == r.value &&
                                    forall i :: 0 <= i < j ==> PredictionKeys[i] in p
  {
    var keys := PredictionKeys;
    assert keys[0] == "item_id" && keys[1] == "price" && keys[2] == "confidence" &&
           keys[3] == "timestamp" && keys[4] == "target_date";
    if "item_id" !in p then Some("item_id")
    else if "price" !in p then Some("price")
    else if "confidence" !in p then Some("confidence")
    else if "timestamp" !in p then Some("timestamp")
    else if "target_date" !in p then Some("target_date")
    else None
  }

  /** The row one prediction becomes: its `price` is stored as `predicted_price`. */
  function PredictionRowOf(id: nat, p: map<string, SqlValue>): PredictionRow
    requires HasPredictionKeys(p)
  {
    assert "item_id" in PredictionKeys && "price" in PredictionKeys && "confidence" in PredictionKeys &&
           "timestamp" in PredictionKeys && "target_date" in PredictionKeys;
    PredictionRow(id, p["item_id"], p["price"], p["confidence"], p["timestamp"], p["target_date"])
  }

  /** The rows a batch of predictions becomes, numbered after `base`. */
  function PredictionRows(inputs: seq<map<string, SqlValue>>, base: nat): (r: seq<PredictionRow>)
    requires forall k :: 0 <= k < |inputs| ==> HasPredictionKeys(inputs[k])
    ensures |r| == |inputs|
    ensures forall k :: 0 <= k < |inputs| ==> r[k] == PredictionRowOf(base + k + 1, inputs[k])
    decreases |inputs|
  {
    if inputs == [] then []
    else [PredictionRowOf(base + 1, inputs[0])] + PredictionRows(inputs[1..], base + 1)
  }

  /** The KeyError the loop raises first: the first missing key of the first incomplete input. */
  function FirstMissingKey(inputs: seq<map<string, SqlValue>>): (r: Option<string>)
    ensures r.None? <==> forall k :: 0 <= k < |inputs| ==> HasPredictionKeys(inputs[k])
    decreases |inputs|
  {
    if inputs == [] then None
    else if MissingKey(inputs[0]).Some? then MissingKey(inputs[0])
    else FirstMissingKey(inputs[1..])
  }

  lemma {:induction false} FirstMissingKeyAt(inputs: seq<map<string, SqlValue>>, i: nat)
    requires i < |inputs| && MissingKey(inputs[i]).Some?
    requires forall k :: 0 <= k < i ==> HasPredictionKeys(inputs[k])
    ensures FirstMissingKey(inputs) == MissingKey(inputs[i])
    decreases i
  {
    if i > 0 {
      assert HasPredictionKeys(inputs[0]);
      FirstMissingKeyAt(inputs[1..], i - 1);
    }
  }

  /** Every table's ids strictly increase and stay within the AUTOINCREMENT counter. */
  predicate PriceIds(s: seq<PriceRow>, top: nat)
  {
    && (forall i, j :: 0 <= i < j < |s| ==> s[i].id < s[j].id)
    && (forall i :: 0 <= i < |s| ==> 1 <= s[i].id <= top)
  }

  predicate PredictionIds(s: seq<PredictionRow>, top: nat)
  {
    && (forall i, j :: 0 <= i < j < |s| ==> s[i].id < s[j].id)
    && (forall i :: 0 <= i < |s| ==> 1 <= s[i].id <= top)
  }

  datatype ScanError = MissingColumns(names: seq<string>) | WriteFailed

  /** What `save_scan_data` logs: the number of records saved, or the error it swallowed. */
  datatype ScanLog = Saved(count: nat) | Logged(error: ScanError)

  /** What `save_scan_data` logs for a frame with these columns and `count` rows. */
  function ScanLogOf(columns: seq<string>, writeFails: bool, count: nat): (log: ScanLog)
    ensures log.Saved? <==> HasScanColumns(columns) && !writeFails
    ensures log.Saved? ==> log.count == count
    ensures !HasScanColumns(columns) ==> log == Logged(MissingColumns(AbsentScanColumns(columns)))
  {
    if !HasScanColumns(columns) then Logged(MissingColumns(AbsentScanColumns(columns)))
    else if writeFails then Logged(WriteFailed)
    else Saved(count)
  }

  datatype PredictionOutcome = Committed | Raised(keyError: string)

  class DatabaseManager {
    var tables: set<Table>
    var priceHistory: seq<PriceRow>
    var predictions: seq<PredictionRow>
    var transactions: seq<TransactionRow>
    /** sqlite_sequence: the last id handed out in each written table. */
    var priceSeq: nat
    var predictionSeq: nat

    ghost predicate Valid()
      reads this
    {
      && tables == AllTables
      && PriceIds(priceHistory, priceSeq)
      && PredictionIds(predictions, predictionSeq)
    }

    /** `DatabaseManager()` on a database file that does not exist yet: creates the schema. */
    constructor ()
      ensures Valid()
      ensures priceHistory == [] && predictions == [] && transactions == []
      ensures priceSeq == 0 && predictionSeq == 0
    {
      tables := {};
      priceHistory, predictions, transactions := [], [], [];
      priceSeq, predictionSeq := 0, 0;
      new;
      InitDb();
    }

    /** `_init_db`: create the missing tables; rows already stored are untouched. */
    method InitDb()
      modifies this
      ensures tables == CreateIfMissing(old(tables))
      ensures priceHistory == old(priceHistory) && predictions == old(predictions) && transactions == old(transactions)
      ensures priceSeq == old(priceSeq) && predictionSeq == old(predictionSeq)
    {
      tables := CreateIfMissing(tables);
    }

    /**
     * `save_scan_data`: append the four scan columns of every row, or, when
     * a column is missing or the write fails, append nothing and only log.
     */
    method SaveScanData(df: Frame<int>, writeFails: bool) returns (log: ScanLog)
      requires Valid() && Rectangular(df)
      modifies this
      ensures Valid()
      ensures log == ScanLogOf(df.columns, writeFails, |df.rows|)
      ensures log.Saved? ==> priceHistory == old(priceHistory) + ScanRows(df.columns, df.rows, old(priceSeq))
                             && priceSeq == old(priceSeq) + |df.rows|
      ensures log.Logged? ==> priceHistory == old(priceHistory) && priceSeq == old(priceSeq)
      ensures predictions == old(predictions) && predictionSeq == old(predictionSeq)
      ensures transactions == old(transactions) && tables == old(tables)
    {
      if !HasScanColumns(df.columns) {
        return Logged(MissingColumns(AbsentScanColumns(df.columns)));
      }
      if writeFails {
        return Logged(WriteFailed);
      }
      var added := ScanRows(df.columns, df.rows, priceSeq);
      AppendKeepsPriceIds(priceHistory, priceSeq, added);
      priceHistory := priceHistory + added;
      priceSeq := priceSeq + |df.rows|;
      log := Saved(|df.rows|);
    }

    /** `get_price_history`: an answer of the history query over the current rows. */
    method GetPriceHistory(itemId: int, limit: nat) returns (r: seq<PriceRow>)
      ensures IsHistory(priceHistory, itemId, limit, r)
    {
      r := History(priceHistory, itemId, limit);
      HistoryMeetsSpec(priceHistory, itemId, limit);
    }

    /**
     * `save_prediction`: insert one row per input and commit after the
     * loop; a missing key raises before the commit, so nothing is stored.
     */
    method SavePrediction(inputs: seq<map<string, SqlValue>>) returns (outcome: PredictionOutcome)
      requires Valid()
      modifies this
      ensures Valid()
      ensures outcome == if FirstMissingKey(inputs).None? then Committed else Raised(FirstMissingKey(inputs).value)
      ensures outcome.Committed? ==> predictions == old(predictions) + PredictionRows(inputs, old(predictionSeq))
                                     && predictionSeq == old(predictionSeq) + |inputs|
      ensures outcome.Raised? ==> predictions == old(predictions) && predictionSeq == old(predictionSeq)
      ensures priceHistory == old(priceHistory) && priceSeq == old(priceSeq)
      ensures transactions == old(transactions) && tables == old(tables)
    {
      var staged: seq<PredictionRow> := [];
      for i := 0 to |inputs|
        invariant forall k :: 0 <= k < i ==> HasPredictionKeys(inputs[k])
        invariant |staged| == i
        invariant forall k :: 0 <= k < i ==> staged[k] == PredictionRowOf(predictionSeq + k + 1, inputs[k])
      {
        var missing := MissingKey(inputs[i]);
        if missing.Some? {
          FirstMissingKeyAt(inputs, i);
          return Raised(missing.value);
        }
        staged := staged + [PredictionRowOf(predictionSeq + i + 1, inputs[i])];
      }
      assert staged == PredictionRows(inputs, predictionSeq);
      AppendKeepsPredictionIds(predictions, predictionSeq, staged);
      predictions := predictions + staged;
      predictionSeq := predictionSeq + |inputs|;
      outcome := Committed;
    }

    /** `migrate_from_csv`: nothing when the file does not exist, otherwise `save_scan_data` of its rows. */
    method MigrateFromCsv(csv: Option<Frame<int>>, writeFails: bool) returns (log: Option<ScanLog>)
      requires Valid()
      requires csv.Some? ==> Rectangular(csv.value)
      modifies this
      ensures Valid()
      ensures csv.None? ==> log.None? && priceHistory == old(priceHistory) && priceSeq == old(priceSeq)
      ensures csv.Some? ==> log == Some(ScanLogOf(csv.value.columns, writeFails, |csv.value.rows|))
      ensures csv.Some? && log.Some? && log.value.Saved? ==>
                HasScanColumns(csv.value.columns) &&
                priceHistory == old(priceHistory) + ScanRows(csv.value.columns, csv.value.rows, old(priceSeq)) &&
                priceSeq == old(priceSeq) + |csv.value.rows|
      ensures csv.Some? && log.Some? && log.value.Logged? ==> priceHistory == old(priceHistory) && priceSeq == old(priceSeq)
      ensures old(priceHistory) <= priceHistory
      ensures predictions == old(predictions) && predictionSeq == old(predictionSeq)
      ensures transactions == old(transactions) && tables == old(tables)
    {
      if csv.None? {
        return None;
      }
      var l := SaveScanData(csv.value, writeFails);
      log := Some(l);
    }
  }

  lemma AppendKeepsPriceIds(s: seq<PriceRow>, top: nat, added: seq<PriceRow>)
    requires PriceIds(s, top)
    requires forall k :: 0 <= k < |added| ==> added[k].id == top + k + 1
    ensures PriceIds(s + added, top + |added|)
  {
  }

  lemma AppendKeepsPredictionIds(s: seq<PredictionRow>, top: nat, added: seq<PredictionRow>)
    requires PredictionIds(s, top)
    requires forall k :: 0 <= k < |added| ==> added[k].id == top + k + 1
    ensures PredictionIds(s + added, top + |added|)
  {
  }
}
