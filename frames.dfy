/** Tables as the pipeline sees them: a set of named columns and a sequence
    of rows, each row mapping every column of the table to one cell. A
    missing cell stands for pandas' NaN (or NaT for dates). The module also
    holds the generic table operations the pipeline is built from: group-by
    sums, outer and left merges on a key column, and fills. */
module Frames {

  datatype Option<T> = None | Some(value: T)

  /** A parsed calendar date, as a day number counted from 1970-01-01. */
  type Day = int

  /** The risk tiers written into `risk_category`. */
  datatype RiskLabel = LowLoad | MediumLoad | HighLoad | Normal | HighRisk {
    function Name(): string {
      match this
      case LowLoad => "Low Load"
      case MediumLoad => "Medium Load"
      case HighLoad => "High Load"
      case Normal => "Normal"
      case HighRisk => "High Risk"
    }
  }

  /** The three strategy tiers, most urgent first. */
  datatype Urgency = InPerson | Targeted | Routine {
    /** 0 for the most urgent tier, 2 for the least urgent one. */
    function Rank(): nat {
      match this
      case InPerson => 0
      case Targeted => 1
      case Routine => 2
    }
  }

  datatype Col =
    | Pincode | Date | State | District | Month
    | BioAge0To4 | BioAge5To17 | BioAge18Above | BioAge17Plus
    | DemoAge0To4 | DemoAge5To17 | DemoAge18Above | DemoAge17Plus
    | Age0To5 | Age5To17 | Age18Above | Age18Greater
    | TotalBio | TotalDemo | TotalUpdates
    | BiometricUpdates | DemographicUpdates | TotalEnrollment | TotalUpdateLoad
    | MbuRate | DemoRate | RiskCategory | IhsScore | Strategy
    | MbuDemand | ImpactFactor
  {
    /** The column's name in the tables of the original program. */
    function Name(): string {
      match this
      case Pincode => "pincode"
      case Date => "date"
      case State => "state"
      case District => "district"
      case Month => "month"
      case BioAge0To4 => "bio_age_0_4"
      case BioAge5To17 => "bio_age_5_17"
      case BioAge18Above => "bio_age_18_above"
      case BioAge17Plus => "bio_age_17_"
      case DemoAge0To4 => "demo_age_0_4"
      case DemoAge5To17 => "demo_age_5_17"
      case DemoAge18Above => "demo_age_18_above"
      case DemoAge17Plus => "demo_age_17_"
      case Age0To5 => "age_0_5"
      case Age5To17 => "age_5_17"
      case Age18Above => "age_18_above"
      case Age18Greater => "age_18_greater"
      case TotalBio => "total_bio"
      case TotalDemo => "total_demo"
      case TotalUpdates => "total_updates"
      case BiometricUpdates => "biometric_updates"
      case DemographicUpdates => "demographic_updates"
      case TotalEnrollment => "total_enrollment"
      case TotalUpdateLoad => "total_update_load"
      case MbuRate => "mbu_rate"
      case DemoRate => "demo_rate"
      case RiskCategory => "risk_category"
      case IhsScore => "ihs_score"
      case Strategy => "strategy"
      case MbuDemand => "mbu_demand"
      case ImpactFactor => "impact_factor"
    }
  }

  datatype Cell =
    | Missing
    | Num(v: real)
    | Int(i: int)
    | Text(s: string)
    | Stamp(day: Day)
    | Label(tier: RiskLabel)
    | Advice(urgency: Urgency)

  /** Which cells a column may hold; every column may hold a missing cell. */
  predicate Fits(c: Col, x: Cell) {
    x.Missing? ||
    match c
    case Pincode => x.Int?
    case Date => x.Text? || x.Stamp?
    case State | District | Month => x.Text?
    case RiskCategory => x.Label?
    case Strategy => x.Advice?
    case _ => x.Num? || x.Int?
  }

  type Row = map<Col, Cell>

  predicate RowFits(row: Row, cols: set<Col>) {
    row.Keys == cols && forall c :: c in row ==> Fits(c, row[c])
  }

  datatype Frame = Frame(cols: set<Col>, rows: seq<Row>) {
    /** Every row has exactly the table's columns, each holding a cell of its kind. */
    predicate Valid() {
      forall i :: 0 <= i < |rows| ==> RowFits(rows[i], cols)
    }

    /** pandas' `DataFrame.empty`: no rows or no columns. */
    predicate Empty() {
      |rows| == 0 || cols == {}
    }
  }

  /** A cell that holds a number (pandas would not see NaN there). */
  predicate IsNumber(x: Cell) {
    x.Num? || x.Int?
  }

  /** The value a numeric cell contributes to a sum; pandas skips NaN, so a
      missing cell contributes 0. */
  function NumOf(x: Cell): real {
    match x
    case Num(v) => v
    case Int(i) => i as real
    case _ => 0.0
  }

  /** The grouping key of a cell: a pincode or a parsed date. */
  function KeyOf(x: Cell): Option<int> {
    match x
    case Int(i) => Some(i)
    case Stamp(d) => Some(d)
    case _ => None
  }

  function KeyAt(row: Row, kc: Col): Option<int> {
    if kc in row then KeyOf(row[kc]) else None
  }

  /** The cell that holds key `k` in key column `kc`. */
  function KeyCell(kc: Col, k: int): (x: Cell)
    ensures KeyOf(x) == Some(k)
  {
    if kc == Date then Stamp(k) else Int(k)
  }

  predicate KeyColumn(kc: Col) {
    kc == Pincode || kc == Date
  }

  lemma KeyCellFits(kc: Col, k: int)
    requires KeyColumn(kc)
    ensures Fits(kc, KeyCell(kc, k))
  {
  }

  /** The keys that occur in column `kc`; rows whose key is missing are
      dropped, as pandas' group-by drops NaN keys. */
  function KeysIn(rows: seq<Row>, kc: Col): set<int> {
    if |rows| == 0 then {}
    else (match KeyAt(rows[0], kc) case Some(k) => {k} case None => {}) + KeysIn(rows[1..], kc)
  }

  lemma {:induction false} KeysInAt(rows: seq<Row>, kc: Col, k: int)
    ensures k in KeysIn(rows, kc) <==> exists i :: 0 <= i < |rows| && KeyAt(rows[i], kc) == Some(k)
  {
    if |rows| > 0 {
      KeysInAt(rows[1..], kc, k);
      if k in KeysIn(rows[1..], kc) {
        var i :| 0 <= i < |rows[1..]| && KeyAt(rows[1..][i], kc) == Some(k);
        assert KeyAt(rows[i + 1], kc) == Some(k);
      }
      if exists i :: 0 <= i < |rows| && KeyAt(rows[i], kc) == Some(k) {
        var i :| 0 <= i < |rows| && KeyAt(rows[i], kc) == Some(k);
        if i > 0 {
          assert KeyAt(rows[1..][i - 1], kc) == Some(k);
        }
      }
    }
  }

  /** Rows that carry the same keys, row by row, have the same key set. */
  lemma {:induction false} KeysInSame(xs: seq<Row>, ys: seq<Row>, kc: Col)
    requires |xs| == |ys| && forall i :: 0 <= i < |xs| ==> KeyAt(xs[i], kc) == KeyAt(ys[i], kc)
    ensures KeysIn(xs, kc) == KeysIn(ys, kc)
  {
    if |xs| > 0 {
      KeysInSame(xs[1..], ys[1..], kc);
    }
  }

  /** Sum of column `c` over the rows whose key is `k`. */
  function GroupSum(rows: seq<Row>, kc: Col, k: int, c: Col): real {
    if |rows| == 0 then 0.0
    else (if KeyAt(rows[0], kc) == Some(k) && c in rows[0] then NumOf(rows[0][c]) else 0.0)
         + GroupSum(rows[1..], kc, k, c)
  }

  /** A key that no row carries sums to 0. */
  lemma {:induction false} GroupSumAbsent(rows: seq<Row>, kc: Col, k: int, c: Col)
    requires k !in KeysIn(rows, kc)
    ensures GroupSum(rows, kc, k, c) == 0.0
  {
    if |rows| > 0 {
      GroupSumAbsent(rows[1..], kc, k, c);
    }
  }

  /** Group sums split over a concatenation of row sequences. */
  lemma {:induction false} GroupSumAppend(xs: seq<Row>, ys: seq<Row>, kc: Col, k: int, c: Col)
    ensures GroupSum(xs + ys, kc, k, c) == GroupSum(xs, kc, k, c) + GroupSum(ys, kc, k, c)
  {
    if |xs| > 0 {
      assert (xs + ys)[1..] == xs[1..] + ys;
      GroupSumAppend(xs[1..], ys, kc, k, c);
    } else {
      assert xs + ys == ys;
    }
  }

  /** pandas' `first` aggregation: the first non-missing cell of column `c`
      among the rows whose key is `k`, or a missing cell when there is none. */
  function GroupFirst(rows: seq<Row>, kc: Col, k: int, c: Col): (x: Cell)
    ensures x.Missing? || exists i :: 0 <= i < |rows| && KeyAt(rows[i], kc) == Some(k) && c in rows[i] && rows[i][c] == x
  {
    if |rows| == 0 then Missing
    else if KeyAt(rows[0], kc) == Some(k) && c in rows[0] && !rows[0][c].Missing? then rows[0][c]
    else
      var x := GroupFirst(rows[1..], kc, k, c);
      assert x.Missing? || exists i :: 0 <= i < |rows| && KeyAt(rows[i], kc) == Some(k) && c in rows[i] && rows[i][c] == x by {
        if !x.Missing? {
          var i :| 0 <= i < |rows[1..]| && KeyAt(rows[1..][i], kc) == Some(k) && c in rows[1..][i] && rows[1..][i][c] == x;
          assert rows[i + 1] == rows[1..][i];
        }
      }
      x
  }

  /** A non-missing cell of column `c` in a row with key `k`. */
  predicate HasValue(row: Row, kc: Col, k: int, c: Col) {
    KeyAt(row, kc) == Some(k) && c in row && !row[c].Missing?
  }

  /** `first` is NaN exactly when no row with key `k` has a value in `c`. */
  lemma GroupFirstMissing(rows: seq<Row>, kc: Col, k: int, c: Col)
    ensures GroupFirst(rows, kc, k, c).Missing? <==> forall i :: 0 <= i < |rows| ==> !HasValue(rows[i], kc, k, c)
  {
    if i :| 0 <= i < |rows| && HasValue(rows[i], kc, k, c) {
      GroupFirstFound(rows, kc, k, c, i);
    } else {
      GroupFirstNone(rows, kc, k, c);
    }
  }

  lemma {:induction false} GroupFirstNone(rows: seq<Row>, kc: Col, k: int, c: Col)
    requires forall i :: 0 <= i < |rows| ==> !HasValue(rows[i], kc, k, c)
    ensures GroupFirst(rows, kc, k, c).Missing?
  {
    if |rows| > 0 {
      var tail := rows[1..];
      forall i | 0 <= i < |tail| ensures !HasValue(tail[i], kc, k, c) {
        assert tail[i] == rows[i + 1];
      }
      GroupFirstNone(tail, kc, k, c);
    }
  }

  lemma {:induction false} GroupFirstFound(rows: seq<Row>, kc: Col, k: int, c: Col, i: int)
    requires 0 <= i < |rows| && HasValue(rows[i], kc, k, c)
    ensures !GroupFirst(rows, kc, k, c).Missing?
  {
    if i > 0 && !HasValue(rows[0], kc, k, c) {
      assert rows[1..][i - 1] == rows[i];
      GroupFirstFound(rows[1..], kc, k, c, i - 1);
    }
  }

  /** Otherwise it is the cell of the first row with key `k` that has one. */
  lemma {:induction false} GroupFirstAt(rows: seq<Row>, kc: Col, k: int, c: Col, i: int)
    requires 0 <= i < |rows| && HasValue(rows[i], kc, k, c)
    requires forall j :: 0 <= j < i ==> !HasValue(rows[j], kc, k, c)
    ensures GroupFirst(rows, kc, k, c) == rows[i][c]
  {
    if i > 0 {
      assert rows[1..][i - 1] == rows[i];
      GroupFirstAt(rows[1..], kc, k, c, i - 1);
    }
  }

  predicate Ascending(s: seq<int>) {
    forall i, j :: 0 <= i < j < |s| ==> s[i] < s[j]
  }

  /** A set that is not empty has an element. */
  lemma NonEmptyHasElement(s: set<int>)
    requires s != {}
    ensures exists y :: y in s
  {
    if forall y :: y !in s {
      assert false;
    }
  }

  lemma MinExists(s: set<int>)
    requires s != {}
    ensures exists m :: m in s && forall x :: x in s ==> m <= x
    decreases |s|
  {
    NonEmptyHasElement(s);
    var y :| y in s;
    if s != {y} {
      MinExists(s - {y});
      var m' :| m' in s - {y} && forall x :: x in s - {y} ==> m' <= x;
      var m := if y < m' then y else m';
      forall x | x in s ensures m <= x {
        if x != y {
          assert x in s - {y};
        }
      }
    }
  }

  /** The smallest element of a non-empty set. */
  function MinOf(s: set<int>): (m: int)
    requires s != {}
    ensures m in s && forall x :: x in s ==> m <= x
  {
    MinExists(s);
    var m :| m in s && forall x :: x in s ==> m <= x;
    m
  }

  lemma MaxExists(s: set<int>)
    requires s != {}
    ensures exists m :: m in s && forall x :: x in s ==> x <= m
  {
    NonEmptyHasElement(s);
    var y :| y in s;
    var neg := set x | x in s :: -x;
    assert -y in neg;
    var n := MinOf(neg);
    forall x | x in s ensures x <= -n {
      assert -x in neg;
    }
    assert -n in s;
  }

  /** The largest element of a non-empty set. */
  function MaxOf(s: set<int>): (m: int)
    requires s != {}
    ensures m in s && forall x :: x in s ==> x <= m
  {
    MaxExists(s);
    var m :| m in s && forall x :: x in s ==> x <= m;
    m
  }

  lemma ConsSorted(s: set<int>, m: int, rest: seq<int>)
    requires m in s && (forall x :: x in s ==> m <= x)
    requires Ascending(rest) && |rest| == |s - {m}| && forall x :: x in rest <==> x in s - {m}
    ensures Ascending([m] + rest) && |[m] + rest| == |s|
    ensures forall x :: x in [m] + rest <==> x in s
  {
    var r := [m] + rest;
    forall i, j | 0 <= i < j < |r| ensures r[i] < r[j] {
      assert r[j] == rest[j - 1] && r[j] in s - {m};
      if i > 0 {
        assert r[i] == rest[i - 1];
      }
    }
    assert forall x :: x in r <==> x == m || x in rest;
  }

  /** The elements of a finite set of keys in ascending order, as pandas
      sorts group-by and outer-merge keys. */
  function SortedList(s: set<int>): (r: seq<int>)
    ensures Ascending(r) && |r| == |s|
    ensures forall x :: x in r <==> x in s
    decreases |s|
  {
    if s == {} then []
    else
      var m := MinOf(s);
      var rest := SortedList(s - {m});
      ConsSorted(s, m, rest);
      [m] + rest
  }

  /** Each key occurs in exactly one row, and no key is missing. */
  predicate KeyedBy(t: Frame, kc: Col) {
    && (forall i :: 0 <= i < |t.rows| ==> KeyAt(t.rows[i], kc).Some?)
    && (forall i, j :: 0 <= i < j < |t.rows| ==> KeyAt(t.rows[i], kc) != KeyAt(t.rows[j], kc))
  }

  /** The row index holding key `k` in a table keyed by `kc`. */
  function IndexOfKey(rows: seq<Row>, kc: Col, k: int): (i: nat)
    requires k in KeysIn(rows, kc)
    ensures i < |rows| && KeyAt(rows[i], kc) == Some(k)
  {
    if KeyAt(rows[0], kc) == Some(k) then 0 else 1 + IndexOfKey(rows[1..], kc, k)
  }

  predicate Distinct(s: seq<int>) {
    forall i, j :: 0 <= i < j < |s| ==> s[i] != s[j]
  }

  /** A table whose i-th row carries the i-th key of a list without
      repetitions has exactly that list's keys, each in one row. */
  lemma KeysOfListed(r: Frame, kc: Col, keys: seq<int>)
    requires |r.rows| == |keys| && Distinct(keys)
    requires forall i :: 0 <= i < |keys| ==> KeyAt(r.rows[i], kc) == Some(keys[i])
    ensures KeysIn(r.rows, kc) == set x | x in keys
    ensures KeyedBy(r, kc)
  {
    forall k ensures k in KeysIn(r.rows, kc) <==> k in keys {
      KeysInAt(r.rows, kc, k);
    }
  }

  /** The row `t.groupby(kc)` produces for key `k`: the key, a sum for each
      column of `sums` and a `first` for each column of `firsts`. */
  function GroupRow(rows: seq<Row>, kc: Col, k: int, sums: set<Col>, firsts: set<Col>): Row {
    map c | c in {kc} + sums + firsts ::
      if c == kc then KeyCell(kc, k)
      else if c in sums then Num(GroupSum(rows, kc, k, c))
      else GroupFirst(rows, kc, k, c)
  }

  lemma GroupRowFits(t: Frame, kc: Col, k: int, sums: set<Col>, firsts: set<Col>)
    requires t.Valid() && KeyColumn(kc) && kc !in firsts
    requires forall c :: c in sums ==> Fits(c, Num(0.0))
    ensures RowFits(GroupRow(t.rows, kc, k, sums, firsts), {kc} + sums + firsts)
    ensures KeyAt(GroupRow(t.rows, kc, k, sums, firsts), kc) == Some(k)
  {
    var row := GroupRow(t.rows, kc, k, sums, firsts);
    KeyCellFits(kc, k);
    forall c | c in row ensures Fits(c, row[c]) {
      if c != kc && c !in sums {
        var x := GroupFirst(t.rows, kc, k, c);
        if !x.Missing? {
          var j :| 0 <= j < |t.rows| && KeyAt(t.rows[j], kc) == Some(k) && c in t.rows[j] && t.rows[j][c] == x;
          assert RowFits(t.rows[j], t.cols);
        }
      }
    }
  }

  /** What `t.groupby(kc)` needs: a key column of the table, and summed and
      first-taken columns of the table, apart from each other and from the
      key, the summed ones numeric. */
  predicate CanGroup(t: Frame, kc: Col, sums: set<Col>, firsts: set<Col>) {
    && t.Valid() && KeyColumn(kc) && kc in t.cols
    && kc !in sums && kc !in firsts && sums !! firsts
    && sums + firsts <= t.cols
    && forall c :: c in sums ==> Fits(c, Num(0.0))
  }

  /** The rows `t.groupby(kc)` produces for the given keys, in their order. */
  function GroupRows(rows: seq<Row>, kc: Col, keys: seq<int>, sums: set<Col>, firsts: set<Col>): (r: seq<Row>)
    ensures |r| == |keys|
  {
    seq(|keys|, i requires 0 <= i < |keys| => GroupRow(rows, kc, keys[i], sums, firsts))
  }

  /** Grouped rows built from a list of keys without repetitions carry
      exactly those keys, one row each, every row of the table's shape. */
  lemma GroupRowsKeyed(t: Frame, kc: Col, keys: seq<int>, sums: set<Col>, firsts: set<Col>)
    requires t.Valid() && KeyColumn(kc) && kc !in firsts && Distinct(keys)
    requires forall c :: c in sums ==> Fits(c, Num(0.0))
    ensures var r := Frame({kc} + sums + firsts, GroupRows(t.rows, kc, keys, sums, firsts));
      && r.Valid() && KeyedBy(r, kc) && KeysIn(r.rows, kc) == set x | x in keys
      && forall i :: 0 <= i < |keys| ==> KeyAt(r.rows[i], kc) == Some(keys[i])
  {
    var r := Frame({kc} + sums + firsts, GroupRows(t.rows, kc, keys, sums, firsts));
    forall i | 0 <= i < |r.rows|
      ensures RowFits(r.rows[i], r.cols) && KeyAt(r.rows[i], kc) == Some(keys[i])
    {
      GroupRowFits(t, kc, keys[i], sums, firsts);
    }
    KeysOfListed(r, kc, keys);
  }

  /** `t.groupby(kc).agg(...).reset_index()`: one row per key of column
      `kc`, keys ascending. */
  function GroupBy(t: Frame, kc: Col, sums: set<Col>, firsts: set<Col>): (r: Frame)
    requires CanGroup(t, kc, sums, firsts)
    ensures r.Valid() && r.cols == {kc} + sums + firsts && KeyedBy(r, kc)
    ensures KeysIn(r.rows, kc) == KeysIn(t.rows, kc)
  {
    var keys := SortedList(KeysIn(t.rows, kc));
    GroupRowsKeyed(t, kc, keys, sums, firsts);
    Frame({kc} + sums + firsts, GroupRows(t.rows, kc, keys, sums, firsts))
  }

  /** Each grouped row holds, for its key, the sums and firsts over the
      rows of `t` with that key. */
  lemma GroupByRow(t: Frame, kc: Col, sums: set<Col>, firsts: set<Col>, i: int)
    requires CanGroup(t, kc, sums, firsts)
    requires 0 <= i < |GroupBy(t, kc, sums, firsts).rows|
    ensures var r := GroupBy(t, kc, sums, firsts);
      r.rows[i] == GroupRow(t.rows, kc, KeyAt(r.rows[i], kc).value, sums, firsts)
  {
    var keys := SortedList(KeysIn(t.rows, kc));
    GroupRowsKeyed(t, kc, keys, sums, firsts);
    assert KeyAt(GroupBy(t, kc, sums, firsts).rows[i], kc).value == keys[i];
  }

  /** Looking up a key of `t` in its table of group sums gives the sum over
      the rows with that key. */
  lemma GroupByLookup(t: Frame, kc: Col, sums: set<Col>, k: int, c: Col)
    requires CanGroup(t, kc, sums, {}) && c in sums && k in KeysIn(t.rows, kc)
    ensures Lookup(GroupBy(t, kc, sums, {}), kc, k, c) == Num(GroupSum(t.rows, kc, k, c))
  {
    var g := GroupBy(t, kc, sums, {});
    GroupByRow(t, kc, sums, {}, IndexOfKey(g.rows, kc, k));
  }

  /** A key no row of `t` carries is missing from its table of group sums,
      and its sum is 0. */
  lemma GroupByLookupAbsent(t: Frame, kc: Col, sums: set<Col>, k: int, c: Col)
    requires CanGroup(t, kc, sums, {}) && k !in KeysIn(t.rows, kc)
    ensures Lookup(GroupBy(t, kc, sums, {}), kc, k, c) == Missing && GroupSum(t.rows, kc, k, c) == 0.0
  {
    GroupSumAbsent(t.rows, kc, k, c);
  }

  /** The grouped rows come in ascending order of their keys. */
  lemma GroupByAscending(t: Frame, kc: Col, sums: set<Col>, firsts: set<Col>, i: int, j: int)
    requires CanGroup(t, kc, sums, firsts)
    requires 0 <= i < j < |GroupBy(t, kc, sums, firsts).rows|
    ensures var r := GroupBy(t, kc, sums, firsts);
      KeyAt(r.rows[i], kc).value < KeyAt(r.rows[j], kc).value
  {
    var keys := SortedList(KeysIn(t.rows, kc));
    GroupRowsKeyed(t, kc, keys, sums, firsts);
  }

  /** The cell of column `c` in the row of keyed table `t` holding key `k`,
      or a missing cell when no row holds `k`. */
  function Lookup(t: Frame, kc: Col, k: int, c: Col): Cell
    requires t.Valid()
  {
    if k in KeysIn(t.rows, kc) && c in t.cols then t.rows[IndexOfKey(t.rows, kc, k)][c] else Missing
  }

  lemma LookupFits(t: Frame, kc: Col, k: int, c: Col)
    requires t.Valid()
    ensures Fits(c, Lookup(t, kc, k, c))
  {
    if k in KeysIn(t.rows, kc) && c in t.cols {
      assert RowFits(t.rows[IndexOfKey(t.rows, kc, k)], t.cols);
    }
  }

  function MergedRow(a: Frame, b: Frame, kc: Col, k: int): Row
    requires a.Valid() && b.Valid()
  {
    map c | c in a.cols + b.cols ::
      if c == kc then KeyCell(kc, k)
      else if c in a.cols then Lookup(a, kc, k, c)
      else Lookup(b, kc, k, c)
  }

  lemma MergedRowFits(a: Frame, b: Frame, kc: Col, k: int)
    requires a.Valid() && b.Valid() && KeyColumn(kc) && kc in a.cols
    ensures RowFits(MergedRow(a, b, kc, k), a.cols + b.cols)
    ensures KeyAt(MergedRow(a, b, kc, k), kc) == Some(k)
  {
    var row := MergedRow(a, b, kc, k);
    KeyCellFits(kc, k);
    forall c | c in row ensures Fits(c, row[c]) {
      LookupFits(a, kc, k, c);
      LookupFits(b, kc, k, c);
    }
  }

  /** The rows of an outer merge for the given keys, in their order. */
  function MergedRows(a: Frame, b: Frame, kc: Col, keys: seq<int>): (r: seq<Row>)
    requires a.Valid() && b.Valid()
    ensures |r| == |keys|
  {
    seq(|keys|, i requires 0 <= i < |keys| => MergedRow(a, b, kc, keys[i]))
  }

  /** Merged rows built from a list of keys without repetitions carry
      exactly those keys, one row each, every row of the table's shape. */
  lemma MergedRowsKeyed(a: Frame, b: Frame, kc: Col, keys: seq<int>)
    requires a.Valid() && b.Valid() && KeyColumn(kc) && kc in a.cols && Distinct(keys)
    ensures var r := Frame(a.cols + b.cols, MergedRows(a, b, kc, keys));
      && r.Valid() && KeyedBy(r, kc) && KeysIn(r.rows, kc) == set x | x in keys
      && forall i :: 0 <= i < |keys| ==> KeyAt(r.rows[i], kc) == Some(keys[i])
  {
    var r := Frame(a.cols + b.cols, MergedRows(a, b, kc, keys));
    forall i | 0 <= i < |r.rows|
      ensures RowFits(r.rows[i], r.cols) && KeyAt(r.rows[i], kc) == Some(keys[i])
    {
      MergedRowFits(a, b, kc, keys[i]);
    }
    KeysOfListed(r, kc, keys);
  }

  /** `pd.merge(a, b, on=kc, how='outer')`: the union of both tables' keys,
      ascending, one row each; a column of the side that lacks the key is
      missing in that row. */
  function OuterMerge(a: Frame, b: Frame, kc: Col): (r: Frame)
    requires a.Valid() && b.Valid() && KeyColumn(kc)
    requires kc in a.cols && kc in b.cols && a.cols * b.cols == {kc}
    ensures r.Valid() && r.cols == a.cols + b.cols && KeyedBy(r, kc)
    ensures KeysIn(r.rows, kc) == KeysIn(a.rows, kc) + KeysIn(b.rows, kc)
  {
    var keys := SortedList(KeysIn(a.rows, kc) + KeysIn(b.rows, kc));
    MergedRowsKeyed(a, b, kc, keys);
    Frame(a.cols + b.cols, MergedRows(a, b, kc, keys))
  }

  /** Each merged row holds, for its key, the cells of both sides' rows
      with that key, missing where a side lacks it. */
  lemma OuterMergeRow(a: Frame, b: Frame, kc: Col, i: int)
    requires a.Valid() && b.Valid() && KeyColumn(kc)
    requires kc in a.cols && kc in b.cols && a.cols * b.cols == {kc}
    requires 0 <= i < |OuterMerge(a, b, kc).rows|
    ensures var r := OuterMerge(a, b, kc);
      r.rows[i] == MergedRow(a, b, kc, KeyAt(r.rows[i], kc).value)
  {
    var keys := SortedList(KeysIn(a.rows, kc) + KeysIn(b.rows, kc));
    MergedRowsKeyed(a, b, kc, keys);
    assert KeyAt(OuterMerge(a, b, kc).rows[i], kc).value == keys[i];
  }

  /** The merged rows come in ascending order of their keys. */
  lemma OuterMergeAscending(a: Frame, b: Frame, kc: Col, i: int, j: int)
    requires a.Valid() && b.Valid() && KeyColumn(kc)
    requires kc in a.cols && kc in b.cols && a.cols * b.cols == {kc}
    requires 0 <= i < j < |OuterMerge(a, b, kc).rows|
    ensures var r := OuterMerge(a, b, kc);
      KeyAt(r.rows[i], kc).value < KeyAt(r.rows[j], kc).value
  {
    var keys := SortedList(KeysIn(a.rows, kc) + KeysIn(b.rows, kc));
    MergedRowsKeyed(a, b, kc, keys);
  }

  /** `pd.merge(l, g, on=kc, how='left')`: the rows of `l` in their order,
      each extended with the columns of `g` from the row with the same key. */
  function LeftMerge(l: Frame, g: Frame, kc: Col): (r: Frame)
    requires l.Valid() && g.Valid() && kc in l.cols && kc in g.cols && l.cols * g.cols == {kc}
    ensures r.Valid() && r.cols == l.cols + g.cols && |r.rows| == |l.rows|
    ensures forall i, c :: 0 <= i < |r.rows| && c in l.cols ==> r.rows[i][c] == l.rows[i][c]
    ensures forall i, c :: 0 <= i < |r.rows| && c in g.cols - {kc} && KeyAt(l.rows[i], kc).Some? ==>
      r.rows[i][c] == Lookup(g, kc, KeyAt(l.rows[i], kc).value, c)
  {
    var r := Frame(l.cols + g.cols, seq(|l.rows|, i requires 0 <= i < |l.rows| =>
      map c | c in l.cols + g.cols ::
        if c in l.cols then l.rows[i][c]
        else match KeyAt(l.rows[i], kc) case Some(k) => Lookup(g, kc, k, c) case None => Missing));
    forall i | 0 <= i < |r.rows| ensures RowFits(r.rows[i], r.cols) {
      assert RowFits(l.rows[i], l.cols);
      forall c | c in r.cols ensures Fits(c, r.rows[i][c]) {
        if c !in l.cols && KeyAt(l.rows[i], kc).Some? {
          LookupFits(g, kc, KeyAt(l.rows[i], kc).value, c);
        }
      }
    }
    r
  }

  /** `t.fillna(x)` over every column: each missing cell becomes `x`. */
  function FillNaAll(t: Frame, x: Cell): (r: Frame)
    requires t.Valid()
    requires forall i, c :: 0 <= i < |t.rows| && c in t.cols && t.rows[i][c].Missing? ==> Fits(c, x)
    ensures r.Valid() && r.cols == t.cols && |r.rows| == |t.rows|
    ensures forall i, c :: 0 <= i < |r.rows| && c in r.cols ==>
      r.rows[i][c] == if t.rows[i][c].Missing? then x else t.rows[i][c]
  {
    Frame(t.cols, seq(|t.rows|, i requires 0 <= i < |t.rows| =>
      map c | c in t.cols :: if t.rows[i][c].Missing? then x else t.rows[i][c]))
  }

  /** In a keyed table only the non-key columns can hold missing cells. */
  lemma KeyedFillable(t: Frame, kc: Col, x: Cell)
    requires t.Valid() && KeyedBy(t, kc)
    requires forall c :: c in t.cols && c != kc ==> Fits(c, x)
    ensures forall i, c :: 0 <= i < |t.rows| && c in t.cols && t.rows[i][c].Missing? ==> Fits(c, x)
  {
    forall i, c | 0 <= i < |t.rows| && c in t.cols && t.rows[i][c].Missing? ensures Fits(c, x) {
      assert KeyAt(t.rows[i], kc).Some?;
    }
  }

  /** `t[c] = t[c].fillna(x)`: missing cells of column `c` become `x`. */
  function FillNa(t: Frame, c: Col, x: Cell): (r: Frame)
    requires t.Valid() && c in t.cols && Fits(c, x)
    ensures r.Valid() && r.cols == t.cols && |r.rows| == |t.rows|
    ensures forall i :: 0 <= i < |r.rows| ==> r.rows[i][c] == if t.rows[i][c].Missing? then x else t.rows[i][c]
    ensures forall i, d :: 0 <= i < |r.rows| && d in r.cols && d != c ==> r.rows[i][d] == t.rows[i][d]
  {
    Frame(t.cols, seq(|t.rows|, i requires 0 <= i < |t.rows| =>
      if t.rows[i][c].Missing? then t.rows[i][c := x] else t.rows[i]))
  }

  /** `t[c] = cells`: sets (or adds) column `c`, one cell per row. */
  function WithColumn(t: Frame, c: Col, cells: seq<Cell>): (r: Frame)
    requires t.Valid() && |cells| == |t.rows| && forall i :: 0 <= i < |cells| ==> Fits(c, cells[i])
    ensures r.Valid() && r.cols == t.cols + {c} && |r.rows| == |t.rows|
    ensures forall i :: 0 <= i < |r.rows| ==> r.rows[i][c] == cells[i]
    ensures forall i, d :: 0 <= i < |r.rows| && d in t.cols && d != c ==> r.rows[i][d] == t.rows[i][d]
  {
    Frame(t.cols + {c}, seq(|t.rows|, i requires 0 <= i < |t.rows| => t.rows[i][c := cells[i]]))
  }

  /** `t[cols]`: keeps only the listed columns. */
  function Project(t: Frame, cols: set<Col>): (r: Frame)
    requires t.Valid() && cols <= t.cols
    ensures r.Valid() && r.cols == cols && |r.rows| == |t.rows|
    ensures forall i, c :: 0 <= i < |r.rows| && c in cols ==> r.rows[i][c] == t.rows[i][c]
  {
    Frame(cols, seq(|t.rows|, i requires 0 <= i < |t.rows| => map c | c in cols :: t.rows[i][c]))
  }

  /** The non-missing numbers of column `c`, in row order; pandas' statistics skip NaN. */
  function Present(rows: seq<Row>, c: Col): (s: seq<real>)
    ensures |s| <= |rows|
  {
    if |rows| == 0 then []
    else (if c in rows[0] && IsNumber(rows[0][c]) then [NumOf(rows[0][c])] else []) + Present(rows[1..], c)
  }

  lemma {:induction false} PresentHas(rows: seq<Row>, c: Col, i: int)
    requires 0 <= i < |rows| && c in rows[i] && IsNumber(rows[i][c])
    ensures NumOf(rows[i][c]) in Present(rows, c)
  {
    if i > 0 {
      PresentHas(rows[1..], c, i - 1);
    }
  }

  /** Every value in the list comes from a row holding it in column `c`. */
  lemma {:induction false} PresentMember(rows: seq<Row>, c: Col, x: real)
    requires x in Present(rows, c)
    ensures exists j :: 0 <= j < |rows| && c in rows[j] && IsNumber(rows[j][c]) && NumOf(rows[j][c]) == x
  {
    if !(c in rows[0] && IsNumber(rows[0][c]) && NumOf(rows[0][c]) == x) {
      assert x in Present(rows[1..], c);
      PresentMember(rows[1..], c, x);
      var j :| 0 <= j < |rows[1..]| && c in rows[1..][j] && IsNumber(rows[1..][j][c]) && NumOf(rows[1..][j][c]) == x;
      assert rows[j + 1] == rows[1..][j];
    }
  }

  /** A pandas DataFrame that a caller hands over and the callee changes in place. */
  class DataFrame {
    var cols: set<Col>
    var rows: seq<Row>

    constructor (t: Frame)
      ensures Value() == t
    {
      cols := t.cols;
      rows := t.rows;
    }

    function Value(): Frame
      reads this
    {
      Frame(cols, rows)
    }
  }
}
