/** `aggregate_time_series` of src/data_processing.py: the dates of both
    record tables are parsed in place, each table is summed per date, the
    two daily tables are merged, and the merged timeline is summed per
    week (weeks close on Sunday, as pandas' 'W' rule). */
module TimeSeries {
  import opened Frames

  /** The two record categories the timeline counts. */
  datatype Category = Biometric | Demographic {
    /** The three age-bracket counters summed per date, in the order the
        source adds them up. */
    function Counts(): seq<Col> {
      match this
      case Biometric => [BioAge0To4, BioAge5To17, BioAge18Above]
      case Demographic => [DemoAge0To4, DemoAge5To17, DemoAge18Above]
    }

    function CountSet(): set<Col> {
      match this
      case Biometric => {BioAge0To4, BioAge5To17, BioAge18Above}
      case Demographic => {DemoAge0To4, DemoAge5To17, DemoAge18Above}
    }

    /** The category of the other record table. */
    function Other(): Category {
      match this
      case Biometric => Demographic
      case Demographic => Biometric
    }

    /** The per-date total column the source adds. */
    function Total(): (c: Col)
      ensures c !in Counts() && c !in CountSet() && c != Date
    {
      match this
      case Biometric => TotalBio
      case Demographic => TotalDemo
    }
  }

  /** A row's number in column `c`; a missing column or cell counts 0, as
      in pandas' sums and in `fillna(0)`. */
  function Val(row: Row, c: Col): real {
    if c in row then NumOf(row[c]) else 0.0
  }

  /** The sum of several columns of one row, added in their order. */
  function RowSum(row: Row, cols: seq<Col>): real {
    if |cols| == 0 then 0.0 else Val(row, cols[0]) + RowSum(row, cols[1..])
  }

  /** The sums of several counters over the records dated `d`, added up. */
  function DaySum(recs: seq<Row>, d: int, cols: seq<Col>): real {
    if |cols| == 0 then 0.0 else GroupSum(recs, Date, d, cols[0]) + DaySum(recs, d, cols[1..])
  }

  /** A date that no record carries sums to 0 in every counter. */
  lemma {:induction false} DaySumAbsent(recs: seq<Row>, d: int, cols: seq<Col>)
    requires d !in KeysIn(recs, Date)
    ensures DaySum(recs, d, cols) == 0.0
  {
    if |cols| > 0 {
      GroupSumAbsent(recs, Date, d, cols[0]);
      DaySumAbsent(recs, d, cols[1..]);
    }
  }

  /** A row whose every listed cell is that column's sum for date `d`
      totals the date's sum over those columns. */
  lemma {:induction false} RowSumOfDay(row: Row, recs: seq<Row>, d: int, cols: seq<Col>)
    requires forall c :: c in cols ==> Val(row, c) == GroupSum(recs, Date, d, c)
    ensures RowSum(row, cols) == DaySum(recs, d, cols)
  {
    if |cols| > 0 {
      RowSumOfDay(row, recs, d, cols[1..]);
    }
  }

  // Weeks. Day 0 is Thursday 1970-01-01, so day 3 is a Sunday; week w
  // is the seven days ending on Sunday `WeekEnd(w)`.

  function WeekOf(d: Day): int {
    (d + 3) / 7
  }

  function WeekEnd(w: int): Day {
    7 * w + 3
  }

  /** Every date falls in the week that closes on the first Sunday on or
      after it, and a week's closing Sunday falls in that week. */
  lemma WeekBounds(d: Day, w: int)
    ensures WeekEnd(WeekOf(d)) - 7 < d <= WeekEnd(WeekOf(d))
    ensures WeekEnd(w) % 7 == 3 && WeekOf(WeekEnd(w)) == w
  {
  }

  /** A later date never falls in an earlier week. */
  lemma WeekOfMonotone(d: Day, e: Day)
    requires d <= e
    ensures WeekOf(d) <= WeekOf(e)
  {
  }

  predicate InWeek(row: Row, w: int) {
    KeyAt(row, Date).Some? && WeekOf(KeyAt(row, Date).value) == w
  }

  /** The sum of column `c` over the rows dated within week `w`. */
  function WeekSum(rows: seq<Row>, w: int, c: Col): real {
    if |rows| == 0 then 0.0
    else (if InWeek(rows[0], w) then Val(rows[0], c) else 0.0) + WeekSum(rows[1..], w, c)
  }

  /** The week's sums of several columns, added up. */
  function WeekSums(rows: seq<Row>, w: int, cols: seq<Col>): real {
    if |cols| == 0 then 0.0 else WeekSum(rows, w, cols[0]) + WeekSums(rows, w, cols[1..])
  }

  /** The sum of column `c` over the rows that have a date. */
  function DatedTotal(rows: seq<Row>, c: Col): real {
    if |rows| == 0 then 0.0
    else (if KeyAt(rows[0], Date).Some? then Val(rows[0], c) else 0.0) + DatedTotal(rows[1..], c)
  }

  /** The sums of column `c` over the `n` weeks from week `a` on. */
  function RangeSum(rows: seq<Row>, a: int, n: nat, c: Col): real {
    if n == 0 then 0.0 else RangeSum(rows, a, n - 1, c) + WeekSum(rows, a + n - 1, c)
  }

  /** What one row contributes to the weeks from `a` on. */
  function HeadRange(row: Row, a: int, n: nat, c: Col): real {
    if n == 0 then 0.0 else HeadRange(row, a, n - 1, c) + (if InWeek(row, a + n - 1) then Val(row, c) else 0.0)
  }

  lemma {:induction false} HeadRangeValue(row: Row, a: int, n: nat, c: Col)
    ensures HeadRange(row, a, n, c) ==
      if KeyAt(row, Date).Some? && a <= WeekOf(KeyAt(row, Date).value) < a + n then Val(row, c) else 0.0
  {
    if n > 0 {
      HeadRangeValue(row, a, n - 1, c);
    }
  }

  lemma {:induction false} RangeSumSplit(rows: seq<Row>, a: int, n: nat, c: Col)
    requires |rows| > 0
    ensures RangeSum(rows, a, n, c) == HeadRange(rows[0], a, n, c) + RangeSum(rows[1..], a, n, c)
  {
    if n > 0 {
      RangeSumSplit(rows, a, n - 1, c);
    }
  }

  /** Summing the weeks that cover every dated row gives the column's
      total over the dated rows: no dated row is lost or counted twice. */
  lemma {:induction false} RangeCovers(rows: seq<Row>, a: int, n: nat, c: Col)
    requires forall i :: 0 <= i < |rows| && KeyAt(rows[i], Date).Some? ==> a <= WeekOf(KeyAt(rows[i], Date).value) < a + n
    ensures RangeSum(rows, a, n, c) == DatedTotal(rows, c)
  {
    if |rows| == 0 {
      RangeEmpty(rows, a, n, c);
    } else {
      RangeSumSplit(rows, a, n, c);
      HeadRangeValue(rows[0], a, n, c);
      assert forall i :: 0 <= i < |rows[1..]| ==> rows[1..][i] == rows[i + 1];
      RangeCovers(rows[1..], a, n, c);
    }
  }

  lemma {:induction false} RangeEmpty(rows: seq<Row>, a: int, n: nat, c: Col)
    requires |rows| == 0
    ensures RangeSum(rows, a, n, c) == 0.0
  {
    if n > 0 {
      RangeEmpty(rows, a, n - 1, c);
    }
  }

  // From a table with one row per date back to the records: summing the
  // day rows of a week gives the week's sum over the records.

  /** The day sums of the listed dates that fall in week `w`, added up. */
  function KeyWeekSum(keys: seq<int>, w: int, recs: seq<Row>, cols: seq<Col>): real {
    if |keys| == 0 then 0.0
    else (if WeekOf(keys[0]) == w then DaySum(recs, keys[0], cols) else 0.0) + KeyWeekSum(keys[1..], w, recs, cols)
  }

  /** A table whose rows carry the listed dates and hold their day sums
      sums, per week, to the listed dates' day sums. */
  lemma {:induction false} RowsToKeys(rows: seq<Row>, keys: seq<int>, w: int, col: Col, recs: seq<Row>, cols: seq<Col>)
    requires |rows| == |keys|
    requires forall i :: 0 <= i < |rows| ==> KeyAt(rows[i], Date) == Some(keys[i]) && Val(rows[i], col) == DaySum(recs, keys[i], cols)
    ensures WeekSum(rows, w, col) == KeyWeekSum(keys, w, recs, cols)
  {
    if |rows| > 0 {
      RowsToKeys(rows[1..], keys[1..], w, col, recs, cols);
    }
  }

  /** What one record contributes to the day sums of date `d`. */
  function HeadDay(rec: Row, d: int, cols: seq<Col>): real {
    if KeyAt(rec, Date) == Some(d) then RowSum(rec, cols) else 0.0
  }

  lemma {:induction false} DaySumSplit(recs: seq<Row>, d: int, cols: seq<Col>)
    requires |recs| > 0
    ensures DaySum(recs, d, cols) == HeadDay(recs[0], d, cols) + DaySum(recs[1..], d, cols)
  {
    if |cols| > 0 {
      DaySumSplit(recs, d, cols[1..]);
    }
  }

  lemma {:induction false} DaySumNone(recs: seq<Row>, d: int, cols: seq<Col>)
    requires |recs| == 0
    ensures DaySum(recs, d, cols) == 0.0
  {
    if |cols| > 0 {
      DaySumNone(recs, d, cols[1..]);
    }
  }

  /** What one record contributes to the listed dates of week `w`. */
  function KeyHead(keys: seq<int>, w: int, rec: Row, cols: seq<Col>): real {
    if |keys| == 0 then 0.0
    else (if WeekOf(keys[0]) == w then HeadDay(rec, keys[0], cols) else 0.0) + KeyHead(keys[1..], w, rec, cols)
  }

  lemma {:induction false} KeyWeekSumSplit(keys: seq<int>, w: int, recs: seq<Row>, cols: seq<Col>)
    requires |recs| > 0
    ensures KeyWeekSum(keys, w, recs, cols) == KeyHead(keys, w, recs[0], cols) + KeyWeekSum(keys, w, recs[1..], cols)
  {
    if |keys| > 0 {
      DaySumSplit(recs, keys[0], cols);
      KeyWeekSumSplit(keys[1..], w, recs, cols);
    }
  }

  lemma {:induction false} KeyWeekSumNone(keys: seq<int>, w: int, recs: seq<Row>, cols: seq<Col>)
    requires |recs| == 0
    ensures KeyWeekSum(keys, w, recs, cols) == 0.0
  {
    if |keys| > 0 {
      DaySumNone(recs, keys[0], cols);
      KeyWeekSumNone(keys[1..], w, recs, cols);
    }
  }

  /** Over dates listed once each, a record counts once, in the week of
      its date, if its date is listed. */
  lemma {:induction false} KeyHeadValue(keys: seq<int>, w: int, rec: Row, cols: seq<Col>)
    requires Distinct(keys)
    ensures KeyHead(keys, w, rec, cols) ==
      if InWeek(rec, w) && KeyAt(rec, Date).value in keys then RowSum(rec, cols) else 0.0
  {
    if |keys| > 0 {
      assert Distinct(keys[1..]) by {
        forall i, j | 0 <= i < j < |keys[1..]| ensures keys[1..][i] != keys[1..][j] {
          assert keys[1..][i] == keys[i + 1] && keys[1..][j] == keys[j + 1];
        }
      }
      KeyHeadValue(keys[1..], w, rec, cols);
      if KeyAt(rec, Date) == Some(keys[0]) {
        assert keys[0] !in keys[1..] by {
          forall i | 0 <= i < |keys[1..]| ensures keys[1..][i] != keys[0] {
            assert keys[1..][i] == keys[i + 1];
          }
        }
      }
      assert keys == [keys[0]] + keys[1..];
    }
  }

  /** The record's share of a week's sums over several columns. */
  lemma {:induction false} WeekSumsSplit(recs: seq<Row>, w: int, cols: seq<Col>)
    requires |recs| > 0
    ensures WeekSums(recs, w, cols) == (if InWeek(recs[0], w) then RowSum(recs[0], cols) else 0.0) + WeekSums(recs[1..], w, cols)
  {
    if |cols| > 0 {
      WeekSumsSplit(recs, w, cols[1..]);
    }
  }

  lemma {:induction false} WeekSumsNone(recs: seq<Row>, w: int, cols: seq<Col>)
    requires |recs| == 0
    ensures WeekSums(recs, w, cols) == 0.0
  {
    if |cols| > 0 {
      WeekSumsNone(recs, w, cols[1..]);
    }
  }

  /** Regrouping: when the dates are listed once each and include every
      record's date, the listed dates' day sums within a week add up to
      the week's sums over the records. */
  lemma {:induction false} KeysToRecords(keys: seq<int>, w: int, recs: seq<Row>, cols: seq<Col>)
    requires Distinct(keys)
    requires forall i :: 0 <= i < |recs| && KeyAt(recs[i], Date).Some? ==> KeyAt(recs[i], Date).value in keys
    ensures KeyWeekSum(keys, w, recs, cols) == WeekSums(recs, w, cols)
  {
    if |recs| == 0 {
      KeyWeekSumNone(keys, w, recs, cols);
      WeekSumsNone(recs, w, cols);
    } else {
      KeyWeekSumSplit(keys, w, recs, cols);
      KeyHeadValue(keys, w, recs[0], cols);
      WeekSumsSplit(recs, w, cols);
      assert forall i :: 0 <= i < |recs[1..]| ==> recs[1..][i] == recs[i + 1];
      KeysToRecords(keys, w, recs[1..], cols);
    }
  }

  /** A row of `rows` with a date lists that date in the week sums' order
      of summation: the week sum of a sum of columns is the sum of their
      week sums. */
  lemma {:induction false} WeekSumAdd(rows: seq<Row>, w: int, sum: Col, a: Col, b: Col)
    requires forall i :: 0 <= i < |rows| ==> Val(rows[i], sum) == Val(rows[i], a) + Val(rows[i], b)
    ensures WeekSum(rows, w, sum) == WeekSum(rows, w, a) + WeekSum(rows, w, b)
  {
    if |rows| > 0 {
      WeekSumAdd(rows[1..], w, sum, a, b);
    }
  }

  // Parsing the date column in place.

  /** `pd.to_datetime(x, dayfirst=True, errors='coerce')` on one cell: text
      the day-first parser accepts becomes its date, any other text becomes
      NaT, and a date stays what it is. The text parser is a parameter. */
  function ParsedDate(x: Cell, parse: string -> Option<Day>): (y: Cell)
    ensures y.Stamp? || y.Missing?
    ensures x.Stamp? ==> y == x
  {
    match x
    case Text(s) => (match parse(s) case Some(d) => Stamp(d) case None => Missing)
    case Stamp(_) => x
    case _ => Missing
  }

  /** The table with its date column parsed, every other cell unchanged. */
  function ParseDates(t: Frame, parse: string -> Option<Day>): (r: Frame)
    requires t.Valid() && Date in t.cols
    ensures r.Valid() && r.cols == t.cols && |r.rows| == |t.rows|
    ensures forall i :: 0 <= i < |r.rows| ==> r.rows[i][Date] == ParsedDate(t.rows[i][Date], parse)
    ensures forall i, c :: 0 <= i < |r.rows| && c in t.cols && c != Date ==> r.rows[i][c] == t.rows[i][c]
  {
    WithColumn(t, Date, seq(|t.rows|, i requires 0 <= i < |t.rows| => ParsedDate(t.rows[i][Date], parse)))
  }

  /** What the source needs of a table before it parses its dates: a table
      that is not empty has a date column. */
  predicate HasDates(t: Frame) {
    t.Valid() && (!t.Empty() ==> Date in t.cols)
  }

  /** The table after `if not df.empty: df['date'] = pd.to_datetime(...)`. */
  function WithParsedDates(t: Frame, parse: string -> Option<Day>): (r: Frame)
    requires HasDates(t)
    ensures HasDates(r) && r.cols == t.cols && |r.rows| == |t.rows|
  {
    if t.Empty() then t else ParseDates(t, parse)
  }

  /** Parsing a second time changes nothing, so a table passed in as both
      record tables ends up parsed once. */
  lemma ParseTwice(t: Frame, parse: string -> Option<Day>)
    requires HasDates(t)
    ensures WithParsedDates(WithParsedDates(t, parse), parse) == WithParsedDates(t, parse)
  {
    if !t.Empty() {
      var p := ParseDates(t, parse);
      var q := ParseDates(p, parse);
      forall i | 0 <= i < |p.rows| ensures q.rows[i] == p.rows[i] {
        assert q.rows[i].Keys == p.rows[i].Keys;
      }
      assert q.rows == p.rows;
    }
  }

  /** Parses the date column of a caller's table in place when the table is
      not empty. */
  method ParseInPlace(df: DataFrame, parse: string -> Option<Day>)
    requires HasDates(df.Value())
    modifies df
    ensures df.Value() == WithParsedDates(old(df.Value()), parse)
  {
    if !df.Value().Empty() {
      var p := ParseDates(df.Value(), parse);
      df.cols, df.rows := p.cols, p.rows;
    }
  }

  // Daily sums per category.

  /** What the source needs of a record table: one that is not empty has
      the date column and the category's counters (pandas raises KeyError
      otherwise). */
  predicate Dated(t: Frame, k: Category) {
    HasDates(t) && (!t.Empty() ==> k.CountSet() <= t.cols)
  }

  /** A table with one row per date, in ascending order of dates. */
  predicate DayTable(t: Frame) {
    && t.Valid() && Date in t.cols && KeyedBy(t, Date)
    && forall i, j :: 0 <= i < j < |t.rows| ==> KeyAt(t.rows[i], Date).value < KeyAt(t.rows[j], Date).value
  }

  /** A daily row: each counter is its sum over the records of the row's
      date, and the category's total is the sum of the three. */
  predicate DailyRow(row: Row, t: Frame, k: Category)
    requires KeyAt(row, Date).Some?
  {
    var day := KeyAt(row, Date).value;
    && (forall c :: c in k.Counts() ==> Val(row, c) == GroupSum(t.rows, Date, day, c))
    && Val(row, k.Total()) == DaySum(t.rows, day, k.Counts())
  }

  /** `g` is the daily table of the records `t`: empty when no record has a
      date, and otherwise one row per date that some record carries. */
  ghost predicate DailyOf(g: Frame, t: Frame, k: Category) {
    && g.Valid()
    && (g.Empty() <==> KeysIn(t.rows, Date) == {})
    && (!g.Empty() ==>
         && g.cols == DailyCols(k)
         && DayTable(g)
         && KeysIn(g.rows, Date) == KeysIn(t.rows, Date)
         && forall i :: 0 <= i < |g.rows| ==> DailyRow(g.rows[i], t, k))
  }

  /** A table without columns has no dates. */
  lemma NoColumnsNoDates(t: Frame)
    requires t.Valid() && t.cols == {}
    ensures KeysIn(t.rows, Date) == {}
  {
    assert forall i :: 0 <= i < |t.rows| ==> KeyAt(t.rows[i], Date) == None by {
      forall i | 0 <= i < |t.rows| ensures Date !in t.rows[i] {
        assert RowFits(t.rows[i], t.cols);
      }
    }
    forall x ensures x !in KeysIn(t.rows, Date) {
      KeysInAt(t.rows, Date, x);
    }
  }

  /** A table with one row per date has a date exactly when it has a row. */
  lemma DatesOfRows(t: Frame)
    requires DayTable(t)
    ensures KeysIn(t.rows, Date) == {} <==> |t.rows| == 0
  {
    if |t.rows| > 0 {
      KeysInAt(t.rows, Date, KeyAt(t.rows[0], Date).value);
    }
  }

  /** A category's counters can be summed per date over its records. */
  lemma CountersGroupable(t: Frame, k: Category)
    requires Dated(t, k) && !t.Empty()
    ensures CanGroup(t, Date, k.CountSet(), {})
  {
  }

  /** Two tables whose rows carry the same dates, row by row, are both
      tables of distinct ascending dates with the same date set. */
  lemma SameDates(g: Frame, s: Frame)
    requires DayTable(s) && g.Valid() && Date in g.cols && |g.rows| == |s.rows|
    requires forall i :: 0 <= i < |g.rows| ==> KeyAt(g.rows[i], Date) == KeyAt(s.rows[i], Date)
    ensures DayTable(g) && KeysIn(g.rows, Date) == KeysIn(s.rows, Date)
  {
    KeysInSame(g.rows, s.rows, Date);
  }

  /** Adding a column other than the date to a table of dates keeps its
      dates, row by row. */
  lemma AddedColumnDates(t: Frame, m: Frame, c: Col)
    requires DayTable(t) && c != Date && m.Valid() && m.cols == t.cols + {c} && |m.rows| == |t.rows|
    requires forall i, d :: 0 <= i < |m.rows| && d in t.cols && d != c ==> m.rows[i][d] == t.rows[i][d]
    ensures DayTable(m) && KeysIn(m.rows, Date) == KeysIn(t.rows, Date)
    ensures forall i :: 0 <= i < |m.rows| ==> KeyAt(m.rows[i], Date) == KeyAt(t.rows[i], Date)
  {
    forall i | 0 <= i < |m.rows| ensures KeyAt(m.rows[i], Date) == KeyAt(t.rows[i], Date) {
      assert RowFits(t.rows[i], t.cols) && RowFits(m.rows[i], m.cols);
    }
    SameDates(m, t);
  }

  /** `groupby('date')`: one row per date of the records, in ascending
      order. */
  lemma GroupedDates(t: Frame, k: Category)
    requires CanGroup(t, Date, k.CountSet(), {})
    ensures var s := GroupBy(t, Date, k.CountSet(), {});
      DayTable(s) && s.cols == {Date} + k.CountSet() && KeysIn(s.rows, Date) == KeysIn(t.rows, Date)
  {
    var s := GroupBy(t, Date, k.CountSet(), {});
    forall i, j | 0 <= i < j < |s.rows| ensures KeyAt(s.rows[i], Date).value < KeyAt(s.rows[j], Date).value {
      GroupByAscending(t, Date, k.CountSet(), {}, i, j);
    }
  }

  /** `[counters].sum()`: each counter of a date's row is its sum over the
      records of that date. */
  lemma GroupedSums(t: Frame, k: Category, i: int)
    requires CanGroup(t, Date, k.CountSet(), {})
    requires 0 <= i < |GroupBy(t, Date, k.CountSet(), {}).rows|
    ensures var s := GroupBy(t, Date, k.CountSet(), {});
      KeyAt(s.rows[i], Date).Some? &&
      forall c :: c in k.Counts() ==> Val(s.rows[i], c) == GroupSum(t.rows, Date, KeyAt(s.rows[i], Date).value, c)
  {
    GroupByRow(t, Date, k.CountSet(), {}, i);
  }

  /** `agg['total_...'] = agg[c1] + agg[c2] + agg[c3]`. */
  method AddTotal(sums: Frame, ghost t: Frame, k: Category) returns (g: Frame)
    requires DayTable(sums) && sums.cols == {Date} + k.CountSet()
    requires forall i, c :: 0 <= i < |sums.rows| && c in k.Counts() ==>
      Val(sums.rows[i], c) == GroupSum(t.rows, Date, KeyAt(sums.rows[i], Date).value, c)
    ensures DayTable(g) && g.cols == DailyCols(k) && |g.rows| == |sums.rows|
    ensures KeysIn(g.rows, Date) == KeysIn(sums.rows, Date)
    ensures forall i :: 0 <= i < |g.rows| ==> DailyRow(g.rows[i], t, k)
  {
    g := WithColumn(sums, k.Total(),
      seq(|sums.rows|, i requires 0 <= i < |sums.rows| => Num(RowSum(sums.rows[i], k.Counts()))));
    AddedColumnDates(sums, g, k.Total());
    forall i | 0 <= i < |g.rows| ensures DailyRow(g.rows[i], t, k) {
      assert RowFits(sums.rows[i], sums.cols);
      TotalRow(g.rows[i], sums.rows[i], t, k);
    }
  }

  /** A row of counter sums extended with their total is a daily row. */
  lemma TotalRow(row: Row, sums: Row, t: Frame, k: Category)
    requires KeyAt(sums, Date).Some? && KeyAt(row, Date) == KeyAt(sums, Date)
    requires forall c :: c in k.Counts() ==> c in sums && Val(sums, c) == GroupSum(t.rows, Date, KeyAt(sums, Date).value, c)
    requires forall c :: c in sums && c != k.Total() ==> c in row && row[c] == sums[c]
    requires k.Total() in row && row[k.Total()] == Num(RowSum(sums, k.Counts()))
    ensures DailyRow(row, t, k)
  {
    TotalOf(row, sums, t, KeyAt(sums, Date).value, k.Counts(), k.Total());
  }

  lemma TotalOf(row: Row, sums: Row, t: Frame, day: int, counts: seq<Col>, total: Col)
    requires total !in counts
    requires forall c :: c in counts ==> c in sums && Val(sums, c) == GroupSum(t.rows, Date, day, c)
    requires forall c :: c in sums && c != total ==> c in row && row[c] == sums[c]
    requires total in row && row[total] == Num(RowSum(sums, counts))
    ensures forall c :: c in counts ==> Val(row, c) == GroupSum(t.rows, Date, day, c)
    ensures Val(row, total) == DaySum(t.rows, day, counts)
  {
    RowSumOfDay(sums, t.rows, day, counts);
  }

  /** The daily table of a category: the group sums and their total, or an
      empty table when the records are empty. */
  method DailyTotals(t: Frame, k: Category) returns (g: Frame)
    requires Dated(t, k)
    ensures DailyOf(g, t, k)
  {
    if t.Empty() {
      if t.cols == {} {
        NoColumnsNoDates(t);
      }
      g := Frame({}, []);
      return;
    }
    CountersGroupable(t, k);
    var sums := GroupBy(t, Date, k.CountSet(), {});
    GroupedDates(t, k);
    forall i | 0 <= i < |sums.rows|
      ensures forall c :: c in k.Counts() ==> Val(sums.rows[i], c) == GroupSum(t.rows, Date, KeyAt(sums.rows[i], Date).value, c)
    {
      GroupedSums(t, k, i);
    }
    g := AddTotal(sums, t, k);
    DatesOfRows(g);
  }

  /** Looking a date up in a daily table gives its sums, and 0 for a date
      no record carries. */
  lemma DailyLookup(g: Frame, t: Frame, k: Category, day: int, c: Col)
    requires DailyOf(g, t, k) && !g.Empty()
    requires c in k.Counts() || c == k.Total()
    ensures NumOf(Lookup(g, Date, day, c)) ==
      if c == k.Total() then DaySum(t.rows, day, k.Counts()) else GroupSum(t.rows, Date, day, c)
  {
    if day in KeysIn(g.rows, Date) {
      var j := IndexOfKey(g.rows, Date, day);
      assert DailyRow(g.rows[j], t, k);
    } else {
      DaySumAbsent(t.rows, day, k.Counts());
      GroupSumAbsent(t.rows, Date, day, c);
    }
  }

  // Merging the two daily tables into the master timeline.

  /** The dates some record of either category carries. */
  function Dates(b: Frame, d: Frame): set<int> {
    KeysIn(b.rows, Date) + KeysIn(d.rows, Date)
  }

  /** The columns of the master timeline: a category's counters appear
      only when some record of that category has a date. */
  function TimelineCols(b: Frame, d: Frame): set<Col> {
    {Date, TotalBio, TotalDemo, TotalUpdates}
    + (if KeysIn(b.rows, Date) == {} then {} else Biometric.CountSet())
    + (if KeysIn(d.rows, Date) == {} then {} else Demographic.CountSet())
  }

  /** What one category contributes to the timeline row of date `day`:
      each of its counters present in the row is that counter's sum over
      the category's records of that date, and its total is the sum of the
      three, 0 when no record carries the date. */
  predicate SideRow(row: Row, recs: seq<Row>, counts: seq<Col>, total: Col, day: int) {
    && (forall c :: c in counts && c in row ==> Val(row, c) == GroupSum(recs, Date, day, c))
    && Val(row, total) == DaySum(recs, day, counts)
  }

  /** A timeline row holds both categories' sums for its date. */
  predicate DayRow(row: Row, b: Frame, d: Frame)
    requires KeyAt(row, Date).Some?
  {
    var day := KeyAt(row, Date).value;
    && SideRow(row, b.rows, Biometric.Counts(), TotalBio, day)
    && SideRow(row, d.rows, Demographic.Counts(), TotalDemo, day)
  }

  /** One row per date that a record of either category carries, in
      ascending order, each holding both categories' sums for its date. */
  ghost predicate MergedDays(m: Frame, b: Frame, d: Frame) {
    && DayTable(m)
    && KeysIn(m.rows, Date) == Dates(b, d)
    && DayRows(m, b, d)
  }

  /** Every row of `m` is dated and holds both categories' sums for its
      date. */
  predicate DayRows(m: Frame, b: Frame, d: Frame) {
    forall i :: 0 <= i < |m.rows| ==> KeyAt(m.rows[i], Date).Some? && DayRow(m.rows[i], b, d)
  }

  /** `total_updates` is the sum of the two categories' totals on every
      row. */
  predicate UpdatesAdded(rows: seq<Row>) {
    forall i :: 0 <= i < |rows| ==> Val(rows[i], TotalUpdates) == Val(rows[i], TotalBio) + Val(rows[i], TotalDemo)
  }

  /** The master timeline: the merged days with `total_updates`, the sum of
      the two categories' totals. */
  ghost predicate MasterOf(m: Frame, b: Frame, d: Frame) {
    && MergedDays(m, b, d)
    && m.cols == TimelineCols(b, d)
    && UpdatesAdded(m.rows)
  }

  /** A row whose cells of one category's columns agree in value with
      those of a row holding its sums holds them too. */
  lemma SideRowSame(row: Row, from: Row, recs: seq<Row>, counts: seq<Col>, total: Col, day: int)
    requires SideRow(from, recs, counts, total, day)
    requires forall c :: c in counts ==> (c in row ==> c in from) && Val(row, c) == Val(from, c)
    requires Val(row, total) == Val(from, total)
    ensures SideRow(row, recs, counts, total, day)
  {
  }

  /** The columns of a category's daily table. */
  function DailyCols(k: Category): set<Col> {
    {Date} + k.CountSet() + {k.Total()}
  }

  /** A category's counters and total are columns of its daily table. */
  lemma CategoryColumns(k: Category)
    ensures forall c :: c in k.Counts() ==> c in DailyCols(k) && c != Date
    ensures k.Total() in DailyCols(k) && k.Other().Other() == k
    ensures OtherApart(k)
  {
    match k
    case Biometric => OtherApartHolds(k);
    case Demographic => OtherApartHolds(k);
  }

  /** The other category's columns are not in this one's daily table. */
  predicate OtherApart(k: Category) {
    && (forall c :: c in k.Other().Counts() ==> c !in DailyCols(k) && c != k.Other().Total())
    && k.Other().Total() !in DailyCols(k) && k.Other().Total() !in k.Counts()
    && k.Other().Total() != Date && Fits(k.Other().Total(), Int(0))
  }

  lemma OtherApartHolds(k: Category)
    ensures OtherApart(k)
  {
    match k
    case Biometric =>
    case Demographic =>
  }

  /** A row whose non-date cells hold, as numbers, what a daily table holds
      for the row's date holds that category's sums. */
  lemma SideFromLookup(row: Row, g: Frame, t: Frame, k: Category, day: int)
    requires DailyOf(g, t, k) && !g.Empty()
    requires forall c :: c in g.cols && c != Date ==> Val(row, c) == NumOf(Lookup(g, Date, day, c))
    ensures SideRow(row, t.rows, k.Counts(), k.Total(), day)
  {
    CategoryColumns(k);
    forall c | c in k.Counts() ensures Val(row, c) == GroupSum(t.rows, Date, day, c) {
      DailyLookup(g, t, k, day, c);
    }
    DailyLookup(g, t, k, day, k.Total());
  }

  /** The daily tables of the two categories share only the date column,
      and together they have the master timeline's columns but its total. */
  lemma DailyColsApart()
    ensures DailyCols(Biometric) * DailyCols(Demographic) == {Date}
    ensures DailyCols(Biometric) + DailyCols(Demographic) ==
      {Date, TotalBio, TotalDemo} + Biometric.CountSet() + Demographic.CountSet()
  {
  }

  /** The master timeline's columns when both categories have dates, or
      when only category `k` does. */
  lemma TimelineColsOf(b: Frame, d: Frame)
    ensures KeysIn(b.rows, Date) != {} && KeysIn(d.rows, Date) != {} ==>
      TimelineCols(b, d) - {TotalUpdates} == {Date, TotalBio, TotalDemo} + Biometric.CountSet() + Demographic.CountSet()
    ensures KeysIn(b.rows, Date) != {} && KeysIn(d.rows, Date) == {} ==>
      TimelineCols(b, d) - {TotalUpdates} == DailyCols(Biometric) + {TotalDemo}
    ensures KeysIn(b.rows, Date) == {} && KeysIn(d.rows, Date) != {} ==>
      TimelineCols(b, d) - {TotalUpdates} == DailyCols(Demographic) + {TotalBio}
  {
  }

  /** Every column of the daily tables but the date holds numbers. */
  lemma NumericCounts()
    ensures forall c :: c in DailyCols(Biometric) + DailyCols(Demographic) && c != Date ==> Fits(c, Num(0.0))
  {
  }

  /** A cell after `fillna(0)` holds, as a number, what it held before. */
  lemma FilledCell(x: Cell, y: Cell)
    requires y == if x.Missing? then Num(0.0) else x
    ensures NumOf(y) == NumOf(x)
  {
  }

  /** Row `i` of an outer merge after `fillna(0)` holds, as numbers, what
      each side holds for the row's key. */
  lemma FilledMergeRow(a: Frame, b: Frame, m: Frame, i: int)
    requires a.Valid() && b.Valid() && Date in a.cols && Date in b.cols && a.cols * b.cols == {Date}
    requires 0 <= i < |OuterMerge(a, b, Date).rows| && 0 <= i < |m.rows|
    requires var o := OuterMerge(a, b, Date);
      forall c :: c in o.cols ==> c in m.rows[i] && m.rows[i][c] == if o.rows[i][c].Missing? then Num(0.0) else o.rows[i][c]
    ensures var o := OuterMerge(a, b, Date);
      && KeyAt(o.rows[i], Date).Some? && KeyAt(m.rows[i], Date) == KeyAt(o.rows[i], Date)
      && (forall c :: c in a.cols && c != Date ==> Val(m.rows[i], c) == NumOf(Lookup(a, Date, KeyAt(o.rows[i], Date).value, c)))
      && (forall c :: c in b.cols && c != Date ==> Val(m.rows[i], c) == NumOf(Lookup(b, Date, KeyAt(o.rows[i], Date).value, c)))
  {
    var o := OuterMerge(a, b, Date);
    OuterMergeRow(a, b, Date, i);
    forall c | c in o.cols ensures Val(m.rows[i], c) == NumOf(o.rows[i][c]) {
      FilledCell(o.rows[i][c], m.rows[i][c]);
    }
    forall c | c in b.cols && c != Date ensures c !in a.cols {
      assert c !in a.cols * b.cols;
    }
  }

  /** Row `i` of the filled outer merge holds both categories' sums for
      its date. */
  lemma BothRow(bAgg: Frame, b: Frame, dAgg: Frame, d: Frame, m: Frame, i: int)
    requires DailyOf(bAgg, b, Biometric) && DailyOf(dAgg, d, Demographic) && !bAgg.Empty() && !dAgg.Empty()
    requires bAgg.cols * dAgg.cols == {Date}
    requires 0 <= i < |OuterMerge(bAgg, dAgg, Date).rows| && 0 <= i < |m.rows|
    requires var o := OuterMerge(bAgg, dAgg, Date);
      forall c :: c in o.cols ==> c in m.rows[i] && m.rows[i][c] == if o.rows[i][c].Missing? then Num(0.0) else o.rows[i][c]
    ensures var o := OuterMerge(bAgg, dAgg, Date);
      KeyAt(m.rows[i], Date) == KeyAt(o.rows[i], Date) && KeyAt(o.rows[i], Date).Some? && DayRow(m.rows[i], b, d)
  {
    var o := OuterMerge(bAgg, dAgg, Date);
    FilledMergeRow(bAgg, dAgg, m, i);
    var day := KeyAt(o.rows[i], Date).value;
    SideFromLookup(m.rows[i], bAgg, b, Biometric, day);
    SideFromLookup(m.rows[i], dAgg, d, Demographic, day);
  }

  /** `pd.merge(bio_agg, demo_agg, on='date', how='outer').fillna(0)`. */
  method MergeBoth(bAgg: Frame, dAgg: Frame, ghost b: Frame, ghost d: Frame) returns (m: Frame)
    requires DailyOf(bAgg, b, Biometric) && DailyOf(dAgg, d, Demographic) && !bAgg.Empty() && !dAgg.Empty()
    ensures MergedDays(m, b, d) && m.cols == TimelineCols(b, d) - {TotalUpdates}
  {
    DailyColsApart();
    TimelineColsOf(b, d);
    var o := OuterMerge(bAgg, dAgg, Date);
    NumericCounts();
    KeyedFillable(o, Date, Num(0.0));
    m := FillNaAll(o, Num(0.0));
    forall i | 0 <= i < |m.rows| ensures KeyAt(m.rows[i], Date) == KeyAt(o.rows[i], Date) && DayRow(m.rows[i], b, d) {
      BothRow(bAgg, b, dAgg, d, m, i);
    }
    forall i, j | 0 <= i < j < |o.rows| ensures KeyAt(o.rows[i], Date).value < KeyAt(o.rows[j], Date).value {
      OuterMergeAscending(bAgg, dAgg, Date, i, j);
    }
    SameDates(m, o);
  }

  /** A row holding one category's sums, extended with the other
      category's total set to 0, still holds them. */
  lemma OwnSideKept(row: Row, from: Row, recs: seq<Row>, counts: seq<Col>, total: Col, zero: Col, day: int)
    requires SideRow(from, recs, counts, total, day)
    requires row.Keys == from.Keys + {zero} && zero !in counts && zero != total
    requires forall c :: c in from && c != zero ==> row[c] == from[c]
    ensures SideRow(row, recs, counts, total, day)
  {
  }

  /** A row without a category's counters and with its total 0 holds that
      category's sums for a date none of its records carries. */
  lemma OtherSideZero(row: Row, other: seq<Row>, otherCounts: seq<Col>, otherTotal: Col, day: int)
    requires otherTotal in row && row[otherTotal] == Int(0)
    requires forall c :: c in otherCounts ==> c !in row
    requires day !in KeysIn(other, Date)
    ensures SideRow(row, other, otherCounts, otherTotal, day)
  {
    DaySumAbsent(other, day, otherCounts);
  }

  /** `df_master = agg; df_master['total_<other>'] = 0`: the daily table of
      the only category with dated records, the other total set to 0. */
  method OneSided(agg: Frame, k: Category, ghost own: Frame, ghost other: Frame) returns (m: Frame)
    requires DailyOf(agg, own, k) && !agg.Empty() && KeysIn(other.rows, Date) == {}
    ensures DayTable(m) && m.cols == DailyCols(k) + {k.Other().Total()}
    ensures KeysIn(m.rows, Date) == KeysIn(own.rows, Date)
    ensures SidesOf(m, own, k, other)
  {
    m := WithZeroTotal(agg, k);
    ZeroTotalSides(agg, m, k, own, other);
  }

  /** `t['total_<other>'] = 0`. */
  function WithZeroTotal(t: Frame, k: Category): (m: Frame)
    requires t.Valid()
    ensures m.Valid() && m.cols == t.cols + {k.Other().Total()} && |m.rows| == |t.rows|
    ensures forall i :: 0 <= i < |m.rows| ==> m.rows[i][k.Other().Total()] == Int(0)
    ensures forall i, d :: 0 <= i < |m.rows| && d in t.cols && d != k.Other().Total() ==> m.rows[i][d] == t.rows[i][d]
  {
    var zeros := seq(|t.rows|, i => Int(0));
    WithColumn(t, k.Other().Total(), zeros)
  }

  /** The daily table of one category, extended with the other's total as 0,
      holds both categories' sums on every day. */
  lemma ZeroTotalSides(agg: Frame, m: Frame, k: Category, own: Frame, other: Frame)
    requires DailyOf(agg, own, k) && !agg.Empty() && KeysIn(other.rows, Date) == {}
    requires m.Valid() && m.cols == agg.cols + {k.Other().Total()} && |m.rows| == |agg.rows|
    requires forall i :: 0 <= i < |m.rows| ==> m.rows[i][k.Other().Total()] == Int(0)
    requires forall i, d :: 0 <= i < |m.rows| && d in agg.cols && d != k.Other().Total() ==> m.rows[i][d] == agg.rows[i][d]
    ensures DayTable(m) && m.cols == DailyCols(k) + {k.Other().Total()}
    ensures KeysIn(m.rows, Date) == KeysIn(own.rows, Date)
    ensures SidesOf(m, own, k, other)
  {
    CategoryColumns(k);
    assert agg.cols == DailyCols(k) && DayTable(agg) && KeysIn(agg.rows, Date) == KeysIn(own.rows, Date);
    assert forall i :: 0 <= i < |agg.rows| ==> DailyRow(agg.rows[i], own, k);
    var zero := k.Other().Total();
    AddedColumnDates(agg, m, zero);
    assert forall i :: 0 <= i < |m.rows| ==> RowFits(m.rows[i], DailyCols(k) + {zero});
    forall i | 0 <= i < |m.rows|
      ensures SideRow(m.rows[i], own.rows, k.Counts(), k.Total(), KeyAt(m.rows[i], Date).value)
      ensures SideRow(m.rows[i], other.rows, k.Other().Counts(), zero, KeyAt(m.rows[i], Date).value)
    {
      OneSidedRow(m.rows[i], agg.rows[i], k, own, other);
    }
  }

  /** Every row of `m` is dated and holds the sums of category `k` over
      `own` and those of the other category over `other`. */
  predicate SidesOf(m: Frame, own: Frame, k: Category, other: Frame) {
    forall i :: 0 <= i < |m.rows| ==>
      && KeyAt(m.rows[i], Date).Some?
      && SideRow(m.rows[i], own.rows, k.Counts(), k.Total(), KeyAt(m.rows[i], Date).value)
      && SideRow(m.rows[i], other.rows, k.Other().Counts(), k.Other().Total(), KeyAt(m.rows[i], Date).value)
  }

  /** The days of biometric records alone are the merged days when no
      demographic record has a date. */
  lemma BiometricOnly(m: Frame, b: Frame, d: Frame)
    requires DayTable(m) && KeysIn(m.rows, Date) == KeysIn(b.rows, Date) && KeysIn(d.rows, Date) == {}
    requires SidesOf(m, b, Biometric, d)
    ensures MergedDays(m, b, d)
  {
  }

  /** The days of demographic records alone are the merged days when no
      biometric record has a date. */
  lemma DemographicOnly(m: Frame, b: Frame, d: Frame)
    requires DayTable(m) && KeysIn(m.rows, Date) == KeysIn(d.rows, Date) && KeysIn(b.rows, Date) == {}
    requires SidesOf(m, d, Demographic, b)
    ensures MergedDays(m, b, d)
  {
  }

  /** A daily row extended with the other category's total set to 0 holds
      both categories' sums when the other category has no dated record. */
  lemma OneSidedRow(row: Row, from: Row, k: Category, own: Frame, other: Frame)
    requires RowFits(from, DailyCols(k)) && KeyAt(from, Date).Some? && DailyRow(from, own, k)
    requires RowFits(row, DailyCols(k) + {k.Other().Total()}) && KeyAt(row, Date) == KeyAt(from, Date)
    requires forall c :: c in DailyCols(k) && c != k.Other().Total() ==> row[c] == from[c]
    requires row[k.Other().Total()] == Int(0) && KeysIn(other.rows, Date) == {}
    ensures SideRow(row, own.rows, k.Counts(), k.Total(), KeyAt(row, Date).value)
    ensures SideRow(row, other.rows, k.Other().Counts(), k.Other().Total(), KeyAt(row, Date).value)
  {
    CategoryColumns(k);
    var day := KeyAt(row, Date).value;
    OwnSideKept(row, from, own.rows, k.Counts(), k.Total(), k.Other().Total(), day);
    OtherSideZero(row, other.rows, k.Other().Counts(), k.Other().Total(), day);
  }

  /** A merged row extended with `total_updates` keeps both categories'
      sums, and its new cell is the sum of the two totals. */
  lemma UpdatesRow(row: Row, from: Row, cols: set<Col>, b: Frame, d: Frame)
    requires KeyAt(from, Date).Some? && DayRow(from, b, d)
    requires RowFits(from, cols) && RowFits(row, cols + {TotalUpdates}) && TotalUpdates !in cols
    requires forall c :: c in cols && c != TotalUpdates ==> row[c] == from[c]
    requires row[TotalUpdates] == Num(Val(from, TotalBio) + Val(from, TotalDemo))
    ensures DayRow(row, b, d) && Val(row, TotalUpdates) == Val(row, TotalBio) + Val(row, TotalDemo)
  {
    var day := KeyAt(from, Date).value;
    SideRowSame(row, from, b.rows, Biometric.Counts(), TotalBio, day);
    SideRowSame(row, from, d.rows, Demographic.Counts(), TotalDemo, day);
  }

  /** Every row of the merged days extended with `total_updates`. */
  lemma UpdatesRows(days: Frame, m: Frame, cells: seq<Cell>, b: Frame, d: Frame)
    requires days.Valid() && m.Valid() && |m.rows| == |days.rows|
    requires m.cols == days.cols + {TotalUpdates} && TotalUpdates !in days.cols
    requires DayRows(days, b, d)
    requires forall i :: 0 <= i < |m.rows| ==> KeyAt(m.rows[i], Date) == KeyAt(days.rows[i], Date)
    requires forall i, c :: 0 <= i < |m.rows| && c in days.cols && c != TotalUpdates ==> m.rows[i][c] == days.rows[i][c]
    requires UpdatesOf(days, cells)
    requires forall i :: 0 <= i < |m.rows| ==> m.rows[i][TotalUpdates] == cells[i]
    ensures DayRows(m, b, d) && UpdatesAdded(m.rows)
  {
    forall i | 0 <= i < |m.rows|
      ensures KeyAt(m.rows[i], Date).Some? && DayRow(m.rows[i], b, d)
      ensures Val(m.rows[i], TotalUpdates) == Val(m.rows[i], TotalBio) + Val(m.rows[i], TotalDemo)
    {
      UpdatesRow(m.rows[i], days.rows[i], days.cols, b, d);
    }
  }

  /** `total_updates` is a column of the timeline, and adding it back to
      the other columns gives them all. */
  lemma UpdatesTimeline(b: Frame, d: Frame)
    ensures TotalUpdates in TimelineCols(b, d) && TotalUpdates != Date
    ensures (TimelineCols(b, d) - {TotalUpdates}) + {TotalUpdates} == TimelineCols(b, d)
  {
  }

  /** The cells of `total_updates`: each row's two totals added up. */
  predicate UpdatesOf(days: Frame, cells: seq<Cell>) {
    && |cells| == |days.rows|
    && forall i :: 0 <= i < |cells| ==> cells[i] == Num(Val(days.rows[i], TotalBio) + Val(days.rows[i], TotalDemo))
  }

  function Updates(days: Frame): (cells: seq<Cell>)
    ensures UpdatesOf(days, cells) && forall i :: 0 <= i < |cells| ==> Fits(TotalUpdates, cells[i])
  {
    seq(|days.rows|, i requires 0 <= i < |days.rows| => Num(Val(days.rows[i], TotalBio) + Val(days.rows[i], TotalDemo)))
  }

  /** `df_master['total_updates'] = df_master.get('total_bio', 0) +
      df_master.get('total_demo', 0)`. */
  method AddTotalUpdates(days: Frame, ghost b: Frame, ghost d: Frame) returns (m: Frame)
    requires MergedDays(days, b, d) && days.cols == TimelineCols(b, d) - {TotalUpdates}
    ensures MasterOf(m, b, d)
  {
    UpdatesTimeline(b, d);
    var cells := Updates(days);
    m := WithColumn(days, TotalUpdates, cells);
    AddedColumnDates(days, m, TotalUpdates);
    UpdatesRows(days, m, cells, b, d);
  }

  /** The merge of the two daily tables: an outer merge with missing sums
      filled by 0 when both categories have dated records, otherwise the
      one that has them with the other's total set to 0; then
      `total_updates`. */
  method MergeDaily(bAgg: Frame, dAgg: Frame, ghost b: Frame, ghost d: Frame) returns (m: Frame)
    requires DailyOf(bAgg, b, Biometric) && DailyOf(dAgg, d, Demographic)
    requires !bAgg.Empty() || !dAgg.Empty()
    ensures MasterOf(m, b, d)
  {
    TimelineColsOf(b, d);
    var days: Frame;
    if !bAgg.Empty() && !dAgg.Empty() {
      days := MergeBoth(bAgg, dAgg, b, d);
    } else if !bAgg.Empty() {
      days := OneSided(bAgg, Biometric, b, d);
      BiometricOnly(days, b, d);
    } else {
      days := OneSided(dAgg, Demographic, d, b);
      DemographicOnly(days, b, d);
    }
    m := AddTotalUpdates(days, b, d);
  }

  // Weekly resampling.

  /** The weeks of a timeline's first and last rows. */
  function FirstWeek(m: Frame): int
    requires DayTable(m) && |m.rows| > 0
  {
    WeekOf(KeyAt(m.rows[0], Date).value)
  }

  function LastWeek(m: Frame): int
    requires DayTable(m) && |m.rows| > 0
  {
    WeekOf(KeyAt(m.rows[|m.rows| - 1], Date).value)
  }

  /** Every row of a timeline falls between its first and last weeks. */
  lemma WeeksBetween(m: Frame)
    requires DayTable(m) && |m.rows| > 0
    ensures FirstWeek(m) <= LastWeek(m)
    ensures forall i :: 0 <= i < |m.rows| ==>
      FirstWeek(m) <= WeekOf(KeyAt(m.rows[i], Date).value) <= LastWeek(m)
  {
    forall i | 0 <= i < |m.rows|
      ensures FirstWeek(m) <= WeekOf(KeyAt(m.rows[i], Date).value) <= LastWeek(m)
    {
      var last := |m.rows| - 1;
      if i > 0 {
        WeekOfMonotone(KeyAt(m.rows[0], Date).value, KeyAt(m.rows[i], Date).value);
      }
      if i < last {
        WeekOfMonotone(KeyAt(m.rows[i], Date).value, KeyAt(m.rows[last], Date).value);
      }
    }
  }

  /** One week of a timeline: dated by the week's closing Sunday, every
      other column the sum of that column over the week's rows (0 for a
      week without rows). */
  predicate IsWeekRow(row: Row, m: Frame, w: int) {
    && row.Keys == m.cols && Date in row && row[Date] == Stamp(WeekEnd(w))
    && forall c :: c in row && c != Date ==> row[c] == Num(WeekSum(m.rows, w, c))
  }

  /** Consecutive weeks of a timeline from week `first` on. */
  predicate WeekRowsOf(rows: seq<Row>, m: Frame, first: int) {
    forall j :: 0 <= j < |rows| ==> IsWeekRow(rows[j], m, first + j)
  }

  function WeekRow(m: Frame, w: int): (row: Row)
    requires Date in m.cols
    ensures IsWeekRow(row, m, w)
  {
    map c | c in m.cols :: if c == Date then Stamp(WeekEnd(w)) else Num(WeekSum(m.rows, w, c))
  }

  lemma FitsNum(c: Col, x: real, y: real)
    requires Fits(c, Num(x))
    ensures Fits(c, Num(y))
  {
  }

  lemma WeekRowFits(row: Row, m: Frame, w: int)
    requires IsWeekRow(row, m, w) && forall c :: c in m.cols && c != Date ==> Fits(c, Num(0.0))
    ensures RowFits(row, m.cols)
  {
    forall c | c in row ensures Fits(c, row[c]) {
      if c != Date {
        FitsNum(c, 0.0, WeekSum(m.rows, w, c));
      }
    }
  }

  /** The rows of `n` consecutive weeks from week `w` on. */
  function WeekRows(m: Frame, w: int, n: nat): (rows: seq<Row>)
    requires Date in m.cols && forall c :: c in m.cols && c != Date ==> Fits(c, Num(0.0))
    ensures |rows| == n
    ensures forall j :: 0 <= j < n ==> IsWeekRow(rows[j], m, w + j) && RowFits(rows[j], m.cols)
  {
    var rows := seq(n, j => WeekRow(m, w + j));
    forall j | 0 <= j < n ensures IsWeekRow(rows[j], m, w + j) && RowFits(rows[j], m.cols) {
      assert rows[j] == WeekRow(m, w + j);
      WeekRowFits(rows[j], m, w + j);
    }
    rows
  }

  /** `set_index('date').resample('W').sum()` of a timeline in date order:
      one row per week from the week of the first row to the week of the
      last, the date index kept as the date column. */
  function Resample(m: Frame): (r: Frame)
    requires DayTable(m) && |m.rows| > 0
    requires forall c :: c in m.cols && c != Date ==> Fits(c, Num(0.0))
    ensures r.Valid() && r.cols == m.cols && |r.rows| == LastWeek(m) - FirstWeek(m) + 1
    ensures WeekRowsOf(r.rows, m, FirstWeek(m))
  {
    WeeksBetween(m);
    Frame(m.cols, WeekRows(m, FirstWeek(m), LastWeek(m) - FirstWeek(m) + 1))
  }

  /** The dates of a timeline, row by row. */
  function DatesOf(m: Frame): (keys: seq<int>)
    requires DayTable(m)
    ensures |keys| == |m.rows| && forall i :: 0 <= i < |m.rows| ==> KeyAt(m.rows[i], Date) == Some(keys[i])
  {
    seq(|m.rows|, i requires 0 <= i < |m.rows| => KeyAt(m.rows[i], Date).value)
  }

  /** A timeline lists each of its dates once, and every date of records
      whose dates it covers. */
  lemma DatesListed(m: Frame, recs: seq<Row>)
    requires DayTable(m) && KeysIn(recs, Date) <= KeysIn(m.rows, Date)
    ensures Distinct(DatesOf(m))
    ensures forall i :: 0 <= i < |recs| && KeyAt(recs[i], Date).Some? ==> KeyAt(recs[i], Date).value in DatesOf(m)
  {
    var keys := DatesOf(m);
    forall i | 0 <= i < |recs| && KeyAt(recs[i], Date).Some? ensures KeyAt(recs[i], Date).value in keys {
      var x := KeyAt(recs[i], Date).value;
      KeysInAt(recs, Date, x);
      KeysInAt(m.rows, Date, x);
      var j :| 0 <= j < |m.rows| && KeyAt(m.rows[j], Date) == Some(x);
      assert keys[j] == x;
    }
  }

  /** What one category contributes to a weekly row: each of its counters
      present in the row is the week's sum over its records, and its total
      the week's sum of the three. */
  predicate WeekSide(row: Row, recs: seq<Row>, counts: seq<Col>, total: Col, w: int) {
    && (forall c :: c in counts && c in row ==> Val(row, c) == WeekSum(recs, w, c))
    && Val(row, total) == WeekSums(recs, w, counts)
  }

  lemma DaySumOne(recs: seq<Row>, day: int, c: Col)
    ensures DaySum(recs, day, [c]) == GroupSum(recs, Date, day, c)
  {
    assert [c][1..] == [];
  }

  lemma WeekSumsOne(recs: seq<Row>, w: int, c: Col)
    ensures WeekSums(recs, w, [c]) == WeekSum(recs, w, c)
  {
    assert [c][1..] == [];
  }

  /** Summing the day rows of a week regroups one category's day sums into
      its week sums. */
  lemma WeekSideOfDays(m: Frame, row: Row, recs: seq<Row>, counts: seq<Col>, total: Col, w: int)
    requires DayTable(m) && KeysIn(recs, Date) <= KeysIn(m.rows, Date)
    requires Date !in counts && total != Date && total in m.cols
    requires forall i :: 0 <= i < |m.rows| ==> SideRow(m.rows[i], recs, counts, total, KeyAt(m.rows[i], Date).value)
    requires IsWeekRow(row, m, w)
    ensures WeekSide(row, recs, counts, total, w)
  {
    var keys := DatesOf(m);
    DatesListed(m, recs);
    forall c | c in counts && c in row ensures Val(row, c) == WeekSum(recs, w, c) {
      forall i | 0 <= i < |m.rows| ensures Val(m.rows[i], c) == DaySum(recs, keys[i], [c]) {
        assert RowFits(m.rows[i], m.cols);
        DaySumOne(recs, keys[i], c);
      }
      RowsToKeys(m.rows, keys, w, c, recs, [c]);
      KeysToRecords(keys, w, recs, [c]);
      WeekSumsOne(recs, w, c);
    }
    RowsToKeys(m.rows, keys, w, total, recs, counts);
    KeysToRecords(keys, w, recs, counts);
  }

  /** A weekly row of the timeline of `b` and `d`: dated by the week's
      closing Sunday, holding both categories' week sums, and
      `total_updates` the sum of the two totals. */
  predicate WeekRecordsRow(row: Row, w: int, b: Frame, d: Frame) {
    && Date in row && row[Date] == Stamp(WeekEnd(w))
    && WeekSide(row, b.rows, Biometric.Counts(), TotalBio, w)
    && WeekSide(row, d.rows, Demographic.Counts(), TotalDemo, w)
    && Val(row, TotalUpdates) == Val(row, TotalBio) + Val(row, TotalDemo)
  }

  /** The weekly timeline of the records `b` and `d`: one row per week from
      the week of the earliest date to the week of the latest, each holding
      that week's sums over the records. */
  ghost predicate WeeklyOf(r: Frame, b: Frame, d: Frame)
    requires Dates(b, d) != {}
  {
    var first := WeekOf(MinOf(Dates(b, d)));
    && r.Valid() && r.cols == TimelineCols(b, d)
    && |r.rows| == WeekOf(MaxOf(Dates(b, d))) - first + 1
    && WeeksFrom(r.rows, first, b, d)
  }

  /** Consecutive weekly rows from week `first` on. */
  predicate WeeksFrom(rows: seq<Row>, first: int, b: Frame, d: Frame) {
    forall j :: 0 <= j < |rows| ==> WeekRecordsRow(rows[j], first + j, b, d)
  }

  /** The first and last rows of a table in date order carry its earliest
      and latest dates. */
  lemma EndsOfDays(m: Frame, dates: set<int>)
    requires DayTable(m) && KeysIn(m.rows, Date) == dates && |m.rows| > 0
    ensures dates != {}
    ensures KeyAt(m.rows[0], Date).value == MinOf(dates)
    ensures KeyAt(m.rows[|m.rows| - 1], Date).value == MaxOf(dates)
  {
    var last := |m.rows| - 1;
    var lo := KeyAt(m.rows[0], Date).value;
    var hi := KeyAt(m.rows[last], Date).value;
    KeysInAt(m.rows, Date, lo);
    KeysInAt(m.rows, Date, hi);
    var mn := MinOf(dates);
    var mx := MaxOf(dates);
    KeysInAt(m.rows, Date, mn);
    KeysInAt(m.rows, Date, mx);
    var i :| 0 <= i < |m.rows| && KeyAt(m.rows[i], Date) == Some(mn);
    var j :| 0 <= j < |m.rows| && KeyAt(m.rows[j], Date) == Some(mx);
    assert i == 0 || lo < mn;
    assert j == last || mx < hi;
  }

  /** The columns of the timeline are those of the two daily tables and
      `total_updates`. */
  lemma TimelineWithin(b: Frame, d: Frame)
    ensures TimelineCols(b, d) <= DailyCols(Biometric) + DailyCols(Demographic) + {TotalUpdates}
  {
  }

  /** Every column of the timeline but the date holds numbers. */
  lemma NumericTimeline(b: Frame, d: Frame)
    ensures forall c :: c in TimelineCols(b, d) && c != Date ==> Fits(c, Num(0.0))
  {
    NumericCounts();
    TimelineWithin(b, d);
  }

  /** Each week of the resampled master timeline holds the week's sums
      over the records. */
  lemma WeeklyRow(m: Frame, row: Row, w: int, b: Frame, d: Frame)
    requires DayTable(m) && Dates(b, d) <= KeysIn(m.rows, Date) && {TotalBio, TotalDemo, TotalUpdates} <= m.cols
    requires DayRows(m, b, d) && UpdatesAdded(m.rows)
    requires IsWeekRow(row, m, w)
    ensures WeekRecordsRow(row, w, b, d)
  {
    assert Date !in Biometric.Counts() && Date !in Demographic.Counts();
    WeekSideOfDays(m, row, b.rows, Biometric.Counts(), TotalBio, w);
    WeekSideOfDays(m, row, d.rows, Demographic.Counts(), TotalDemo, w);
    WeekSumAdd(m.rows, w, TotalUpdates, TotalBio, TotalDemo);
  }

  /** `sort_values('date').set_index('date').resample('W').sum()` of the
      master timeline; the sort leaves it as it is, its dates being in
      ascending order already. */
  method Weekly(m: Frame, ghost b: Frame, ghost d: Frame) returns (r: Frame)
    requires MasterOf(m, b, d) && |m.rows| > 0
    ensures Dates(b, d) != {} && WeeklyOf(r, b, d)
    ensures forall c :: c in m.cols && c != Date ==> ColumnSum(r.rows, c) == ColumnSum(m.rows, c)
  {
    NumericTimeline(b, d);
    r := Resample(m);
    EndsOfDays(m, Dates(b, d));
    assert WeekOf(MinOf(Dates(b, d))) == FirstWeek(m);
    WeeklyRows(m, r.rows, FirstWeek(m), b, d);
    forall c | c in m.cols && c != Date ensures ColumnSum(r.rows, c) == ColumnSum(m.rows, c) {
      ResampleKeepsTotals(m, c);
    }
  }

  /** Every week of the resampled master timeline holds the week's sums
      over the records. */
  lemma WeeklyRows(m: Frame, rows: seq<Row>, first: int, b: Frame, d: Frame)
    requires DayTable(m) && Dates(b, d) <= KeysIn(m.rows, Date) && {TotalBio, TotalDemo, TotalUpdates} <= m.cols
    requires DayRows(m, b, d) && UpdatesAdded(m.rows)
    requires WeekRowsOf(rows, m, first)
    ensures WeeksFrom(rows, first, b, d)
  {
    WeeklyRowsAll(m, b, d);
    forall j | 0 <= j < |rows| ensures WeekRecordsRow(rows[j], first + j, b, d) {
      WeekRowOf(rows, m, first, j);
    }
  }

  lemma WeeklyRowsAll(m: Frame, b: Frame, d: Frame)
    requires DayTable(m) && Dates(b, d) <= KeysIn(m.rows, Date) && {TotalBio, TotalDemo, TotalUpdates} <= m.cols
    requires DayRows(m, b, d) && UpdatesAdded(m.rows)
    ensures forall row, w :: IsWeekRow(row, m, w) ==> WeekRecordsRow(row, w, b, d)
  {
    forall row, w | IsWeekRow(row, m, w) ensures WeekRecordsRow(row, w, b, d) {
      WeeklyRow(m, row, w, b, d);
    }
  }

  lemma WeekRowOf(rows: seq<Row>, m: Frame, first: int, j: int)
    requires WeekRowsOf(rows, m, first) && 0 <= j < |rows|
    ensures IsWeekRow(rows[j], m, first + j)
  {
  }

  // The whole aggregation.

  /** `aggregate_time_series(df_bio, df_demo)`: parses the date column of
      both tables in place, sums each category per day, merges the two
      daily tables into the master timeline and resamples it into weeks.
      With no dated record of either category the result is the empty
      table. */
  method AggregateTimeSeries(bio: DataFrame, demo: DataFrame, parse: string -> Option<Day>) returns (weekly: Frame)
    requires Dated(bio.Value(), Biometric) && Dated(demo.Value(), Demographic)
    modifies bio, demo
    ensures bio.Value() == WithParsedDates(old(bio.Value()), parse)
    ensures demo.Value() == WithParsedDates(old(demo.Value()), parse)
    ensures weekly.Empty() <==> Dates(bio.Value(), demo.Value()) == {}
    ensures Dates(bio.Value(), demo.Value()) != {} ==> WeeklyOf(weekly, bio.Value(), demo.Value())
  {
    ParseInPlace(bio, parse);
    ghost var mid := demo.Value();
    ParseInPlace(demo, parse);
    if bio == demo {
      ParseTwice(old(bio.Value()), parse);
    }
    weekly := Timeline(bio.Value(), demo.Value());
  }

  /** The computation after the dates are parsed: daily sums of each
      category, the master timeline, and its weeks; the empty table when no
      record has a date. */
  method Timeline(b: Frame, d: Frame) returns (weekly: Frame)
    requires Dated(b, Biometric) && Dated(d, Demographic)
    ensures weekly.Empty() <==> Dates(b, d) == {}
    ensures Dates(b, d) != {} ==> WeeklyOf(weekly, b, d)
  {
    var bAgg := DailyTotals(b, Biometric);
    var dAgg := DailyTotals(d, Demographic);
    if bAgg.Empty() && dAgg.Empty() {
      weekly := Frame({}, []);
      return;
    }
    var master := MergeDaily(bAgg, dAgg, b, d);
    weekly := Weekly(master, b, d);
    WeeklyNotEmpty(weekly, b, d);
  }

  /** The weeks of a timeline with dates are a table with rows and columns. */
  lemma WeeklyNotEmpty(r: Frame, b: Frame, d: Frame)
    requires Dates(b, d) != {} && WeeklyOf(r, b, d)
    ensures !r.Empty()
  {
    WeekOfMonotone(MinOf(Dates(b, d)), MaxOf(Dates(b, d)));
    assert Date in r.cols;
  }

  /** The sum of a column over the rows of a table. */
  function ColumnSum(rows: seq<Row>, c: Col): real {
    if |rows| == 0 then 0.0 else ColumnSum(rows[..|rows| - 1], c) + Val(rows[|rows| - 1], c)
  }

  /** Rows holding consecutive week sums add up to the sum over those
      weeks. */
  lemma {:induction false} ColumnRange(rows: seq<Row>, recs: seq<Row>, a: int, c: Col)
    requires forall j :: 0 <= j < |rows| ==> Val(rows[j], c) == WeekSum(recs, a + j, c)
    ensures ColumnSum(rows, c) == RangeSum(recs, a, |rows|, c)
  {
    if |rows| > 0 {
      var init := rows[..|rows| - 1];
      assert forall j :: 0 <= j < |init| ==> init[j] == rows[j];
      ColumnRange(init, recs, a, c);
    }
  }

  /** Weeks that run from the week of the earliest date to that of the
      latest keep every dated record of a category. */
  lemma WeeksKeepRecords(r: Frame, recs: seq<Row>, counts: seq<Col>, total: Col, first: int, c: Col, dates: set<int>)
    requires r.Valid() && c in r.cols && c in counts
    requires WeekSides(r.rows, recs, counts, total, first)
    requires KeysIn(recs, Date) <= dates && dates != {}
    requires first == WeekOf(MinOf(dates)) && |r.rows| == WeekOf(MaxOf(dates)) - first + 1
    ensures ColumnSum(r.rows, c) == DatedTotal(recs, c)
  {
    forall j | 0 <= j < |r.rows| ensures Val(r.rows[j], c) == WeekSum(recs, first + j, c) {
      assert RowFits(r.rows[j], r.cols);
    }
    ColumnRange(r.rows, recs, first, c);
    forall i | 0 <= i < |recs| && KeyAt(recs[i], Date).Some?
      ensures first <= WeekOf(KeyAt(recs[i], Date).value) < first + |r.rows|
    {
      var x := KeyAt(recs[i], Date).value;
      KeysInAt(recs, Date, x);
      WeekOfMonotone(MinOf(dates), x);
      WeekOfMonotone(x, MaxOf(dates));
    }
    RangeCovers(recs, first, |r.rows|, c);
  }

  /** A category with dated records has its counters in the timeline. */
  lemma CountsInTimeline(b: Frame, d: Frame, c: Col)
    ensures KeysIn(b.rows, Date) != {} && c in Biometric.Counts() ==> c in TimelineCols(b, d)
    ensures KeysIn(d.rows, Date) != {} && c in Demographic.Counts() ==> c in TimelineCols(b, d)
  {
  }

  /** One category's week sums on consecutive weekly rows from week
      `first` on. */
  predicate WeekSides(rows: seq<Row>, recs: seq<Row>, counts: seq<Col>, total: Col, first: int) {
    forall j :: 0 <= j < |rows| ==> WeekSide(rows[j], recs, counts, total, first + j)
  }

  lemma SidesFrom(rows: seq<Row>, first: int, b: Frame, d: Frame)
    requires WeeksFrom(rows, first, b, d)
    ensures WeekSides(rows, b.rows, Biometric.Counts(), TotalBio, first)
    ensures WeekSides(rows, d.rows, Demographic.Counts(), TotalDemo, first)
  {
  }

  /** Over all the weeks, each biometric counter adds up to its total over
      every biometric record that has a date: resampling neither loses nor
      double-counts a record. */
  lemma WeeklyKeepsBiometric(r: Frame, b: Frame, d: Frame, c: Col)
    requires Dates(b, d) != {} && WeeklyOf(r, b, d)
    requires c in Biometric.Counts() && KeysIn(b.rows, Date) != {}
    ensures ColumnSum(r.rows, c) == DatedTotal(b.rows, c)
  {
    SidesFrom(r.rows, WeekOf(MinOf(Dates(b, d))), b, d);
    CountsInTimeline(b, d, c);
    WeeksKeepRecords(r, b.rows, Biometric.Counts(), TotalBio, WeekOf(MinOf(Dates(b, d))), c, Dates(b, d));
  }

  /** The same for each demographic counter. */
  lemma WeeklyKeepsDemographic(r: Frame, b: Frame, d: Frame, c: Col)
    requires Dates(b, d) != {} && WeeklyOf(r, b, d)
    requires c in Demographic.Counts() && KeysIn(d.rows, Date) != {}
    ensures ColumnSum(r.rows, c) == DatedTotal(d.rows, c)
  {
    SidesFrom(r.rows, WeekOf(MinOf(Dates(b, d))), b, d);
    CountsInTimeline(b, d, c);
    WeeksKeepRecords(r, d.rows, Demographic.Counts(), TotalDemo, WeekOf(MinOf(Dates(b, d))), c, Dates(b, d));
  }

  /** The column sum of a table read from its first row. */
  lemma {:induction false} ColumnSumHead(rows: seq<Row>, c: Col)
    requires |rows| > 0
    ensures ColumnSum(rows, c) == Val(rows[0], c) + ColumnSum(rows[1..], c)
  {
    if |rows| == 1 {
      assert rows[..0] == [] && rows[1..] == [];
    } else {
      var init := rows[..|rows| - 1];
      ColumnSumHead(init, c);
      assert init[1..] == rows[1..][..|rows| - 2];
    }
  }

  /** When every row has a date, the dated total is the whole column's sum. */
  lemma {:induction false} DatedTotalAll(rows: seq<Row>, c: Col)
    requires forall i :: 0 <= i < |rows| ==> KeyAt(rows[i], Date).Some?
    ensures DatedTotal(rows, c) == ColumnSum(rows, c)
  {
    if |rows| > 0 {
      DatedTotalAll(rows[1..], c);
      ColumnSumHead(rows, c);
    }
  }

  /** Weekly resampling keeps the grand total of every column of the
      timeline, `total_updates` among them. */
  lemma ResampleKeepsTotals(m: Frame, c: Col)
    requires DayTable(m) && |m.rows| > 0
    requires forall c :: c in m.cols && c != Date ==> Fits(c, Num(0.0))
    requires c in m.cols && c != Date
    ensures ColumnSum(Resample(m).rows, c) == ColumnSum(m.rows, c)
  {
    WeekRowsKeepTotal(m, Resample(m), c);
  }

  /** Consecutive week rows spanning a timeline keep a column's grand total. */
  lemma WeekRowsKeepTotal(m: Frame, r: Frame, c: Col)
    requires DayTable(m) && |m.rows| > 0 && c in m.cols && c != Date
    requires WeekRowsOf(r.rows, m, FirstWeek(m)) && |r.rows| == LastWeek(m) - FirstWeek(m) + 1
    ensures ColumnSum(r.rows, c) == ColumnSum(m.rows, c)
  {
    ResampledValues(m, r, c);
    DatedWithinWeeks(m);
    WeeksCoverRows(r.rows, m.rows, FirstWeek(m), c);
  }

  /** Every row of a timeline is dated within the weeks it spans. */
  lemma DatedWithinWeeks(m: Frame)
    requires DayTable(m) && |m.rows| > 0
    ensures forall i :: 0 <= i < |m.rows| ==>
      KeyAt(m.rows[i], Date).Some? &&
      FirstWeek(m) <= WeekOf(KeyAt(m.rows[i], Date).value) < FirstWeek(m) + (LastWeek(m) - FirstWeek(m) + 1)
  {
    WeeksBetween(m);
  }

  /** Weeks that hold the week sums of records all dated within them keep
      the records' grand total. */
  lemma WeeksCoverRows(rows: seq<Row>, recs: seq<Row>, a: int, c: Col)
    requires forall j :: 0 <= j < |rows| ==> Val(rows[j], c) == WeekSum(recs, a + j, c)
    requires forall i :: 0 <= i < |recs| ==>
      KeyAt(recs[i], Date).Some? && a <= WeekOf(KeyAt(recs[i], Date).value) < a + |rows|
    ensures ColumnSum(rows, c) == ColumnSum(recs, c)
  {
    ColumnRange(rows, recs, a, c);
    RangeCovers(recs, a, |rows|, c);
    DatedTotalAll(recs, c);
  }

  /** Each resampled row holds its week's sum of the column. */
  lemma ResampledValues(m: Frame, r: Frame, c: Col)
    requires DayTable(m) && |m.rows| > 0 && c in m.cols && c != Date
    requires WeekRowsOf(r.rows, m, FirstWeek(m))
    ensures forall j :: 0 <= j < |r.rows| ==> Val(r.rows[j], c) == WeekSum(m.rows, FirstWeek(m) + j, c)
  {
    forall j | 0 <= j < |r.rows| ensures Val(r.rows[j], c) == WeekSum(m.rows, FirstWeek(m) + j, c) {
      assert IsWeekRow(r.rows[j], m, FirstWeek(m) + j);
    }
  }
}
