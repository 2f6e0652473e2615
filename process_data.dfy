/** `process_data` of dashboard/scripts/process_data.py: each record
    category is summed per pincode, the three aggregates are outer-merged on
    the pincode, the gaps are filled with defaults, and the merged table gains
    the update load, a 95th-percentile risk flag, the two update rates, an
    integer Identity Health Score and its strategy. A second pass stamps the
    biometric records with their month and sums the 5-17 biometric counter
    per (month, pincode, state, district). */
module DashboardMetrics {
  import opened Frames
  import opened Quantiles
  import opened IhsScoring
  import TimeSeries

  // Per-pincode aggregates of the three record categories.

  /** The columns each category's aggregation reads; pandas raises KeyError
      when a table that is not empty lacks one of them. */
  const BiometricCols: set<Col> := {Pincode, BioAge5To17, BioAge17Plus, State, District}
  const DemographicCols: set<Col> := {Pincode, DemoAge5To17, DemoAge17Plus}
  const EnrolmentCols: set<Col> := {Pincode, Age0To5, Age5To17, Age18Greater}

  predicate Readable(t: Frame, cols: set<Col>) {
    t.Valid() && (!t.Empty() ==> cols <= t.cols)
  }

  /** The pincodes of one category's aggregate; an empty table is replaced by
      an aggregate without rows. */
  function Pincodes(t: Frame): set<int> {
    if t.Empty() then {} else KeysIn(t.rows, Pincode)
  }

  /** All pincodes the two outer merges keep. */
  function AllPincodes(bio: Frame, demo: Frame, enrol: Frame): set<int> {
    Pincodes(bio) + Pincodes(demo) + Pincodes(enrol)
  }

  /** `biometric_updates`: both biometric counters summed over the pincode's records. */
  function BiometricUpdates(bio: Frame, k: int): real {
    GroupSum(bio.rows, Pincode, k, BioAge5To17) + GroupSum(bio.rows, Pincode, k, BioAge17Plus)
  }

  /** `demographic_updates`: both demographic counters summed over the pincode's records. */
  function DemographicUpdates(demo: Frame, k: int): real {
    GroupSum(demo.rows, Pincode, k, DemoAge5To17) + GroupSum(demo.rows, Pincode, k, DemoAge17Plus)
  }

  /** `total_enrollment`: the three enrolment counters summed over the pincode's records. */
  function TotalEnrollment(enrol: Frame, k: int): real {
    GroupSum(enrol.rows, Pincode, k, Age0To5) + GroupSum(enrol.rows, Pincode, k, Age5To17)
      + GroupSum(enrol.rows, Pincode, k, Age18Greater)
  }

  /** pandas' `first` of a text column among the pincode's records, None
      when every such cell is NaN. */
  function FirstText(t: Frame, k: int, c: Col): Option<string> {
    match GroupFirst(t.rows, Pincode, k, c)
    case Text(s) => Some(s)
    case _ => None
  }

  // The merged table.

  /** One row of `merged_df` right after the outer merges; None is a NaN
      left where a category lacks the pincode. */
  datatype Merged = Merged(pincode: int, state: Option<string>, district: Option<string>,
                           biometric: Option<real>, demographic: Option<real>, enrolment: Option<real>)

  function MergeAt(bio: Frame, demo: Frame, enrol: Frame, k: int): Merged {
    Merged(k,
           if k in Pincodes(bio) then FirstText(bio, k, State) else None,
           if k in Pincodes(bio) then FirstText(bio, k, District) else None,
           if k in Pincodes(bio) then Some(BiometricUpdates(bio, k)) else None,
           if k in Pincodes(demo) then Some(DemographicUpdates(demo, k)) else None,
           if k in Pincodes(enrol) then Some(TotalEnrollment(enrol, k)) else None)
  }

  /** The merged rows of a list of pincodes. */
  function MergeAll(bio: Frame, demo: Frame, enrol: Frame, keys: seq<int>): (m: seq<Merged>)
    ensures |m| == |keys| && forall i :: 0 <= i < |keys| ==> m[i] == MergeAt(bio, demo, enrol, keys[i])
  {
    seq(|keys|, i requires 0 <= i < |keys| => MergeAt(bio, demo, enrol, keys[i]))
  }

  /** `fillna(d)` on one cell. */
  function Fill<T>(x: Option<T>, d: T): T {
    if x.Some? then x.value else d
  }

  /** numpy's `round` to an integer: the nearest integer, ties to the even one. */
  function RoundHalfEven(x: real): (r: int)
    ensures x - 0.5 <= r as real <= x + 0.5
    ensures (r as real - x == 0.5 || x - r as real == 0.5) ==> r % 2 == 0
  {
    var f := x.Floor;
    var d := x - f as real;
    if d < 0.5 then f
    else if d > 0.5 then f + 1
    else if f % 2 == 0 then f
    else f + 1
  }

  /** One row of `merged_df` once the strategy column is in place. */
  datatype PincodeMetrics = PincodeMetrics(
    pincode: int, state: string, district: string,
    biometric: real, demographic: real, enrolment: real, load: real, risk: RiskLabel,
    mbuRate: real, demoRate: real, ihs: int, strategy: Urgency)

  function PincodeList(ms: seq<PincodeMetrics>): (ks: seq<int>)
    ensures |ks| == |ms|
  {
    seq(|ms|, i requires 0 <= i < |ms| => ms[i].pincode)
  }

  /** The `total_update_load` column. */
  function Loads(ms: seq<PincodeMetrics>): (ls: seq<real>)
    ensures |ls| == |ms|
  {
    seq(|ms|, i requires 0 <= i < |ms| => ms[i].load)
  }

  /** `quantile(0.95)` of the load column. */
  function Threshold(ms: seq<PincodeMetrics>): real
    requires |ms| > 0
  {
    Quantile(Loads(ms), 0.95).value
  }

  /** The divisor of both rates: 100 for a pincode without enrolment
      records, 1 for one whose enrolment sums to 0, the sum otherwise. */
  function Divisor(enrol: Frame, k: int): real {
    if k !in Pincodes(enrol) then 100.0
    else if TotalEnrollment(enrol, k) == 0.0 then 1.0
    else TotalEnrollment(enrol, k)
  }

  /** What the row of pincode `m.pincode` holds, in terms of the three input
      tables and the batch's load threshold: state and district of the
      pincode's first biometric record that has one, else 'Unknown'; update
      sums, 0 where a category lacks the pincode; load; risk flag; rates over
      the divisor; the rounded score and its strategy. */
  predicate Describes(m: PincodeMetrics, bio: Frame, demo: Frame, enrol: Frame, threshold: real) {
    var k := m.pincode;
    && (if k in Pincodes(bio) && FirstText(bio, k, State).Some? then m.state == FirstText(bio, k, State).value
        else m.state == "Unknown")
    && (if k in Pincodes(bio) && FirstText(bio, k, District).Some? then m.district == FirstText(bio, k, District).value
        else m.district == "Unknown")
    && m.biometric == (if k in Pincodes(bio) then BiometricUpdates(bio, k) else 0.0)
    && m.demographic == (if k in Pincodes(demo) then DemographicUpdates(demo, k) else 0.0)
    && m.enrolment == Divisor(enrol, k)
    && m.load == m.biometric + m.demographic
    && (m.risk == HighRisk || m.risk == Normal)
    && (m.risk == HighRisk <==> m.load >= threshold)
    && m.enrolment != 0.0
    && m.mbuRate == m.biometric / m.enrolment
    && m.demoRate == m.demographic / m.enrolment
    && m.ihs == RoundHalfEven(Score(Dashboard, m.mbuRate, m.demoRate))
    && m.strategy == GetStrategy(m.ihs)
  }

  /** Every row is described against the threshold of the whole batch. */
  predicate MetricsOf(ms: seq<PincodeMetrics>, bio: Frame, demo: Frame, enrol: Frame) {
    |ms| > 0 ==> forall i :: 0 <= i < |ms| ==> Describes(ms[i], bio, demo, enrol, Threshold(ms))
  }

  /** What lines 79-122 make of one merged row, given the batch's load
      threshold: the NaNs filled with 0, 100 and 'Unknown', a zero
      enrolment raised to 1, then load, risk flag, rates, rounded score and
      strategy. */
  predicate Enriched(m: PincodeMetrics, g: Merged, threshold: real) {
    && m.pincode == g.pincode
    && m.state == Fill(g.state, "Unknown")
    && m.district == Fill(g.district, "Unknown")
    && m.biometric == Fill(g.biometric, 0.0)
    && m.demographic == Fill(g.demographic, 0.0)
    && m.enrolment == (if Fill(g.enrolment, 100.0) == 0.0 then 1.0 else Fill(g.enrolment, 100.0))
    && m.load == m.biometric + m.demographic
    && m.risk == (if m.load >= threshold then HighRisk else Normal)
    && m.enrolment != 0.0
    && m.mbuRate == m.biometric / m.enrolment
    && m.demoRate == m.demographic / m.enrolment
    && m.ihs == RoundHalfEven(Score(Dashboard, m.mbuRate, m.demoRate))
    && m.strategy == GetStrategy(m.ihs)
  }

  /** A row of `merged_df` after the fills and the zero-enrolment guard. */
  datatype Filled = Filled(pincode: int, state: string, district: string,
                           biometric: real, demographic: real, enrolment: real)

  /** Lines 79-83: the NaNs the merges left become 0, 100 and 'Unknown'. */
  function FillRow(g: Merged): Filled {
    Filled(g.pincode, Fill(g.state, "Unknown"), Fill(g.district, "Unknown"),
           Fill(g.biometric, 0.0), Fill(g.demographic, 0.0), Fill(g.enrolment, 100.0))
  }

  /** Line 86: a zero enrolment becomes 1. */
  function GuardRow(f: Filled): (r: Filled)
    ensures r.enrolment != 0.0
  {
    if f.enrolment == 0.0 then f.(enrolment := 1.0) else f
  }

  /** Lines 92-122 on one row, given the batch's 95th-percentile load. */
  function Measured(f: Filled, threshold: Option<real>): PincodeMetrics
    requires f.enrolment != 0.0
  {
    var load := f.biometric + f.demographic;
    var mbuRate := f.biometric / f.enrolment;
    var demoRate := f.demographic / f.enrolment;
    var ihs := RoundHalfEven(Score(Dashboard, mbuRate, demoRate));
    PincodeMetrics(f.pincode, f.state, f.district, f.biometric, f.demographic, f.enrolment, load,
                   if threshold.Some? && load >= threshold.value then HighRisk else Normal,
                   mbuRate, demoRate, ihs, GetStrategy(ihs))
  }

  function FillAll(merged: seq<Merged>): (r: seq<Filled>)
    ensures |r| == |merged| && forall i :: 0 <= i < |r| ==> r[i] == FillRow(merged[i])
  {
    seq(|merged|, i requires 0 <= i < |merged| => FillRow(merged[i]))
  }

  function GuardAll(rows: seq<Filled>): (r: seq<Filled>)
    ensures |r| == |rows| && forall i :: 0 <= i < |r| ==> r[i] == GuardRow(rows[i])
  {
    seq(|rows|, i requires 0 <= i < |rows| => GuardRow(rows[i]))
  }

  /** Line 92: `total_update_load`. */
  function LoadColumn(rows: seq<Filled>): (r: seq<real>)
    ensures |r| == |rows| && forall i :: 0 <= i < |r| ==> r[i] == rows[i].biometric + rows[i].demographic
  {
    seq(|rows|, i requires 0 <= i < |rows| => rows[i].biometric + rows[i].demographic)
  }

  function MeasureAll(rows: seq<Filled>, threshold: Option<real>): (r: seq<PincodeMetrics>)
    requires forall i :: 0 <= i < |rows| ==> rows[i].enrolment != 0.0
    ensures |r| == |rows| && forall i :: 0 <= i < |r| ==> r[i] == Measured(rows[i], threshold)
  {
    seq(|rows|, i requires 0 <= i < |rows| => Measured(rows[i], threshold))
  }

  /** Lines 79-122 of `process_data` on the merged rows: the fills, the
      zero-enrolment guard, the load and its 95th percentile, then the risk,
      rate, score and strategy columns. */
  method Enrich(merged: seq<Merged>) returns (metrics: seq<PincodeMetrics>)
    ensures |metrics| == |merged|
    ensures |merged| > 0 ==> forall i :: 0 <= i < |merged| ==> Enriched(metrics[i], merged[i], Threshold(metrics))
  {
    var rows := FillAll(merged);
    rows := GuardAll(rows);
    var load := LoadColumn(rows);
    var threshold := Quantile(load, 0.95);
    metrics := MeasureAll(rows, threshold);
    MeasuredLoads(rows, threshold, metrics, load);
    if |merged| > 0 {
      forall i | 0 <= i < |merged| ensures Enriched(metrics[i], merged[i], Threshold(metrics)) {
        MeasuredEnriched(merged[i], rows[i], metrics[i], Threshold(metrics));
      }
    }
  }

  /** The measured rows carry the load column they were measured against. */
  lemma MeasuredLoads(rows: seq<Filled>, threshold: Option<real>, ms: seq<PincodeMetrics>, load: seq<real>)
    requires forall i :: 0 <= i < |rows| ==> rows[i].enrolment != 0.0
    requires ms == MeasureAll(rows, threshold) && load == LoadColumn(rows)
    ensures Loads(ms) == load
  {
    forall i | 0 <= i < |ms| ensures Loads(ms)[i] == load[i] {
      assert ms[i] == Measured(rows[i], threshold);
    }
  }

  /** A merged row filled, guarded and measured against the threshold is enriched. */
  lemma MeasuredEnriched(g: Merged, f: Filled, m: PincodeMetrics, threshold: real)
    requires f == GuardRow(FillRow(g)) && m == Measured(f, Some(threshold))
    ensures Enriched(m, g, threshold)
  {
  }

  /** A merged row of pincode k, enriched, is what `Describes` asks of k. */
  lemma MergedDescribes(m: PincodeMetrics, g: Merged, bio: Frame, demo: Frame, enrol: Frame, threshold: real)
    requires g == MergeAt(bio, demo, enrol, m.pincode) && Enriched(m, g, threshold)
    ensures Describes(m, bio, demo, enrol, threshold)
  {
  }

  /** Lines 41-122 of `process_data`: the three aggregates, their outer
      merges on the pincode (pandas sorts the merged keys), and the columns
      `Enrich` adds. */
  method ComputeMetrics(bio: Frame, demo: Frame, enrol: Frame) returns (metrics: seq<PincodeMetrics>)
    requires Readable(bio, BiometricCols) && Readable(demo, DemographicCols) && Readable(enrol, EnrolmentCols)
    ensures |metrics| == |AllPincodes(bio, demo, enrol)|
    ensures Ascending(PincodeList(metrics))
    ensures forall k :: k in PincodeList(metrics) <==> k in AllPincodes(bio, demo, enrol)
    ensures MetricsOf(metrics, bio, demo, enrol)
  {
    var keys := SortedList(AllPincodes(bio, demo, enrol));
    var merged := MergeAll(bio, demo, enrol, keys);
    metrics := Enrich(merged);
    AllDescribed(metrics, merged, keys, bio, demo, enrol);
  }

  /** Enriching the merged rows of a key list describes every key of the list. */
  lemma AllDescribed(ms: seq<PincodeMetrics>, merged: seq<Merged>, keys: seq<int>, bio: Frame, demo: Frame, enrol: Frame)
    requires |ms| == |merged| == |keys|
    requires forall i :: 0 <= i < |keys| ==> merged[i] == MergeAt(bio, demo, enrol, keys[i])
    requires |merged| > 0 ==> forall i :: 0 <= i < |merged| ==> Enriched(ms[i], merged[i], Threshold(ms))
    ensures PincodeList(ms) == keys && MetricsOf(ms, bio, demo, enrol)
  {
    forall i | 0 <= i < |ms|
      ensures ms[i].pincode == keys[i] && Describes(ms[i], bio, demo, enrol, Threshold(ms))
    {
      MergedDescribes(ms[i], merged[i], bio, demo, enrol, Threshold(ms));
    }
    assert PincodeList(ms) == keys;
  }

  // What the rows promise.

  /** The rounding is the only integer within one half of `x`, the even one
      on a tie. */
  lemma RoundUnique(x: real, n: int)
    requires x - 0.5 <= n as real <= x + 0.5
    requires (n as real - x == 0.5 || x - n as real == 0.5) ==> n % 2 == 0
    ensures n == RoundHalfEven(x)
  {
  }

  /** Rounding a value between two integers stays between them. */
  lemma RoundWithin(x: real, lo: int, hi: int)
    requires lo as real <= x <= hi as real
    ensures lo <= RoundHalfEven(x) <= hi
  {
  }

  /** Every score is an integer in [600, 900], and every strategy is the one
      the staircase gives that score. */
  lemma ScoreRange(m: PincodeMetrics, bio: Frame, demo: Frame, enrol: Frame, threshold: real)
    requires Describes(m, bio, demo, enrol, threshold)
    ensures 600 <= m.ihs <= 900
    ensures m.strategy == Routine <==> m.ihs >= 800
    ensures m.strategy == Targeted <==> 700 <= m.ihs < 800
  {
    RoundWithin(Score(Dashboard, m.mbuRate, m.demoRate), 600, 900);
  }

  /** The rows with the largest load are High Risk, so a batch that is not
      empty has at least one High Risk pincode. */
  lemma PeakLoadIsHighRisk(ms: seq<PincodeMetrics>, bio: Frame, demo: Frame, enrol: Frame)
    requires |ms| > 0 && MetricsOf(ms, bio, demo, enrol)
    ensures forall i :: 0 <= i < |ms| && ms[i].load == Max(Loads(ms)) ==> ms[i].risk == HighRisk
    ensures exists i :: 0 <= i < |ms| && ms[i].risk == HighRisk
  {
    QuantileBounds(Loads(ms), 0.95);
    var top := Max(Loads(ms));
    var i :| 0 <= i < |ms| && Loads(ms)[i] == top;
    assert Describes(ms[i], bio, demo, enrol, Threshold(ms));
  }

  /** A load at or above a High Risk load is High Risk too. */
  lemma RiskMonotone(ms: seq<PincodeMetrics>, bio: Frame, demo: Frame, enrol: Frame, i: int, j: int)
    requires MetricsOf(ms, bio, demo, enrol)
    requires 0 <= i < |ms| && 0 <= j < |ms| && ms[i].risk == HighRisk && ms[i].load <= ms[j].load
    ensures ms[j].risk == HighRisk
  {
    assert Describes(ms[i], bio, demo, enrol, Threshold(ms));
    assert Describes(ms[j], bio, demo, enrol, Threshold(ms));
  }

  /** A column whose every number is non-negative. */
  predicate NonNegative(rows: seq<Row>, c: Col) {
    forall i :: 0 <= i < |rows| && c in rows[i] ==> NumOf(rows[i][c]) >= 0.0
  }

  lemma {:induction false} GroupSumNonNegative(rows: seq<Row>, k: int, c: Col)
    requires NonNegative(rows, c)
    ensures GroupSum(rows, Pincode, k, c) >= 0.0
  {
    if |rows| > 0 {
      assert NonNegative(rows[1..], c) by {
        forall i | 0 <= i < |rows[1..]| && c in rows[1..][i] ensures NumOf(rows[1..][i][c]) >= 0.0 {
          assert rows[1..][i] == rows[i + 1];
        }
      }
      GroupSumNonNegative(rows[1..], k, c);
    }
  }

  /** With non-negative enrolment counters the divisor is positive. */
  lemma DivisorPositive(enrol: Frame, k: int)
    requires NonNegative(enrol.rows, Age0To5) && NonNegative(enrol.rows, Age5To17) && NonNegative(enrol.rows, Age18Greater)
    ensures Divisor(enrol, k) > 0.0
  {
    GroupSumNonNegative(enrol.rows, k, Age0To5);
    GroupSumNonNegative(enrol.rows, k, Age5To17);
    GroupSumNonNegative(enrol.rows, k, Age18Greater);
  }

  // Monthly demand.

  /** The group-by key of the monthly demand; pandas drops a record whose
      key holds a NaN. */
  datatype DemandKey = DemandKey(month: string, pincode: int, state: string, district: string)

  /** The key of a raw biometric record: the month of its parsed date, its
      pincode, state and district; None when the date does not parse or a
      key cell is NaN. The month of a date is a parameter. */
  function RecordKey(row: Row, parse: string -> Option<Day>, monthOf: Day -> string): Option<DemandKey> {
    if Date in row && Pincode in row && State in row && District in row then
      match (TimeSeries.ParsedDate(row[Date], parse), row[Pincode], row[State], row[District])
      case (Stamp(d), Int(p), Text(s), Text(t)) => Some(DemandKey(monthOf(d), p, s, t))
      case _ => None
    else None
  }

  /** The 5-17 biometric counter of a record (NaN counts as 0). */
  function Counter(row: Row): real {
    if BioAge5To17 in row then NumOf(row[BioAge5To17]) else 0.0
  }

  /** The keys of the records that have one. */
  function RecordKeys(rows: seq<Row>, parse: string -> Option<Day>, monthOf: Day -> string): set<DemandKey> {
    if |rows| == 0 then {}
    else (match RecordKey(rows[0], parse, monthOf) case Some(key) => {key} case None => {})
         + RecordKeys(rows[1..], parse, monthOf)
  }

  /** The counters of the records with key `key`, summed. */
  function RecordDemand(rows: seq<Row>, key: DemandKey, parse: string -> Option<Day>, monthOf: Day -> string): real {
    if |rows| == 0 then 0.0
    else (if RecordKey(rows[0], parse, monthOf) == Some(key) then Counter(rows[0]) else 0.0)
         + RecordDemand(rows[1..], key, parse, monthOf)
  }

  /** The expected `mbu_demand` table: one entry per key that some record
      carries, holding the sum of the counters of the records carrying it. */
  predicate DemandOf(g: map<DemandKey, real>, rows: seq<Row>, parse: string -> Option<Day>, monthOf: Day -> string) {
    && g.Keys == RecordKeys(rows, parse, monthOf)
    && forall key :: key in g ==> g[key] == RecordDemand(rows, key, parse, monthOf)
  }

  /** The key the group-by reads from a row of the month-stamped table. */
  function MonthKey(row: Row): Option<DemandKey> {
    if Month in row && Pincode in row && State in row && District in row then
      match (row[Month], row[Pincode], row[State], row[District])
      case (Text(m), Int(p), Text(s), Text(t)) => Some(DemandKey(m, p, s, t))
      case _ => None
    else None
  }

  function MonthKeys(rows: seq<Row>): set<DemandKey> {
    if |rows| == 0 then {}
    else (match MonthKey(rows[0]) case Some(key) => {key} case None => {}) + MonthKeys(rows[1..])
  }

  function MonthSum(rows: seq<Row>, key: DemandKey): real {
    if |rows| == 0 then 0.0
    else (if MonthKey(rows[0]) == Some(key) then Counter(rows[0]) else 0.0) + MonthSum(rows[1..], key)
  }

  /** `groupby(['month', 'pincode', 'state', 'district'])['bio_age_5_17'].sum()`. */
  function GroupDemand(rows: seq<Row>): map<DemandKey, real> {
    map key | key in MonthKeys(rows) :: MonthSum(rows, key)
  }

  /** Every record has a parsed date. */
  predicate AllDated(rows: seq<Row>) {
    forall i :: 0 <= i < |rows| ==> Date in rows[i] && rows[i][Date].Stamp?
  }

  /** `dropna(subset=['date'])`: keeps the records whose date parsed, in order
      (`DropUndatedAppend`, `DropUndatedOne`, `DropUndatedKeepsDated`). */
  function DropUndated(rows: seq<Row>): (r: seq<Row>)
    ensures AllDated(r)
    ensures forall i :: 0 <= i < |r| ==> r[i] in rows
  {
    if |rows| == 0 then []
    else
      var rest := DropUndated(rows[1..]);
      assert forall i :: 0 <= i < |rest| ==> rest[i] in rows;
      if Date in rows[0] && rows[0][Date].Stamp? then [rows[0]] + rest else rest
  }

  /** The filter works record by record and keeps their order: dropping
      from two blocks of records is dropping from each block in turn. */
  lemma {:induction false} DropUndatedAppend(a: seq<Row>, b: seq<Row>)
    ensures DropUndated(a + b) == DropUndated(a) + DropUndated(b)
  {
    if |a| == 0 {
      assert a + b == b;
    } else {
      assert (a + b)[0] == a[0] && (a + b)[1..] == a[1..] + b;
      DropUndatedAppend(a[1..], b);
    }
  }

  /** A single record is kept exactly when its date parsed. */
  lemma DropUndatedOne(x: Row)
    ensures DropUndated([x]) == if Date in x && x[Date].Stamp? then [x] else []
  {
    assert [x][1..] == [];
  }

  /** Every record with a parsed date is kept. */
  lemma {:induction false} DropUndatedKeepsDated(rows: seq<Row>, x: Row)
    requires x in rows && Date in x && x[Date].Stamp?
    ensures x in DropUndated(rows)
  {
    if rows[0] != x {
      assert x in rows[1..];
      DropUndatedKeepsDated(rows[1..], x);
    }
  }

  function DropUndatedFrame(t: Frame): (r: Frame)
    requires t.Valid()
    ensures r.Valid() && r.cols == t.cols && r.rows == DropUndated(t.rows)
  {
    var r := Frame(t.cols, DropUndated(t.rows));
    assert forall i :: 0 <= i < |r.rows| ==> exists j :: 0 <= j < |t.rows| && r.rows[i] == t.rows[j];
    r
  }

  /** `df['month'] = df['date'].dt.to_period('M').astype(str)` on dated records. */
  function WithMonth(t: Frame, monthOf: Day -> string): (r: Frame)
    requires t.Valid() && AllDated(t.rows)
    ensures r.Valid() && |r.rows| == |t.rows|
    ensures forall i :: 0 <= i < |r.rows| ==> r.rows[i] == t.rows[i][Month := Text(monthOf(t.rows[i][Date].day))]
  {
    WithColumn(t, Month, seq(|t.rows|, i requires 0 <= i < |t.rows| => Text(monthOf(t.rows[i][Date].day))))
  }

  /** Records with the same keys and counters, position by position, give
      the same demand. */
  lemma {:induction false} SameRecords(xs: seq<Row>, ys: seq<Row>, parse: string -> Option<Day>, monthOf: Day -> string)
    requires |xs| == |ys|
    requires forall i :: 0 <= i < |xs| ==>
      RecordKey(xs[i], parse, monthOf) == RecordKey(ys[i], parse, monthOf) && Counter(xs[i]) == Counter(ys[i])
    ensures RecordKeys(xs, parse, monthOf) == RecordKeys(ys, parse, monthOf)
    ensures forall key :: RecordDemand(xs, key, parse, monthOf) == RecordDemand(ys, key, parse, monthOf)
  {
    if |xs| > 0 {
      assert forall i :: 0 <= i < |xs[1..]| ==> xs[1..][i] == xs[i + 1] && ys[1..][i] == ys[i + 1];
      SameRecords(xs[1..], ys[1..], parse, monthOf);
    }
  }

  /** Month-stamped rows whose keys and counters match the records'
      position by position group to the records' demand. */
  lemma {:induction false} MonthMatches(ms: seq<Row>, rs: seq<Row>, parse: string -> Option<Day>, monthOf: Day -> string)
    requires |ms| == |rs|
    requires forall i :: 0 <= i < |ms| ==> MonthKey(ms[i]) == RecordKey(rs[i], parse, monthOf) && Counter(ms[i]) == Counter(rs[i])
    ensures MonthKeys(ms) == RecordKeys(rs, parse, monthOf)
    ensures forall key :: MonthSum(ms, key) == RecordDemand(rs, key, parse, monthOf)
  {
    if |ms| > 0 {
      assert forall i :: 0 <= i < |ms[1..]| ==> ms[1..][i] == ms[i + 1] && rs[1..][i] == rs[i + 1];
      MonthMatches(ms[1..], rs[1..], parse, monthOf);
    }
  }

  /** Dropping records whose date is NaT changes no key and no sum. */
  lemma {:induction false} DropKeepsDemand(rows: seq<Row>, parse: string -> Option<Day>, monthOf: Day -> string)
    requires forall i :: 0 <= i < |rows| && Date in rows[i] ==> rows[i][Date].Stamp? || rows[i][Date].Missing?
    ensures RecordKeys(DropUndated(rows), parse, monthOf) == RecordKeys(rows, parse, monthOf)
    ensures forall key :: RecordDemand(DropUndated(rows), key, parse, monthOf) == RecordDemand(rows, key, parse, monthOf)
  {
    if |rows| > 0 {
      assert forall i :: 0 <= i < |rows[1..]| ==> rows[1..][i] == rows[i + 1];
      DropKeepsDemand(rows[1..], parse, monthOf);
      var rest := DropUndated(rows[1..]);
      if Date in rows[0] && rows[0][Date].Stamp? {
        assert DropUndated(rows) == [rows[0]] + rest;
        assert ([rows[0]] + rest)[1..] == rest;
      } else {
        assert RecordKey(rows[0], parse, monthOf).None?;
      }
    }
  }

  /** Demand splits over a concatenation of record sequences. */
  lemma {:induction false} DemandAppend(xs: seq<Row>, ys: seq<Row>, parse: string -> Option<Day>, monthOf: Day -> string)
    ensures RecordKeys(xs + ys, parse, monthOf) == RecordKeys(xs, parse, monthOf) + RecordKeys(ys, parse, monthOf)
    ensures forall key :: RecordDemand(xs + ys, key, parse, monthOf)
                          == RecordDemand(xs, key, parse, monthOf) + RecordDemand(ys, key, parse, monthOf)
  {
    if |xs| > 0 {
      assert (xs + ys)[1..] == xs[1..] + ys;
      DemandAppend(xs[1..], ys, parse, monthOf);
    } else {
      assert xs + ys == ys;
    }
  }

  /** A record whose date does not parse adds no key and no demand. */
  lemma UndatedIgnored(rows: seq<Row>, row: Row, parse: string -> Option<Day>, monthOf: Day -> string)
    requires Date in row && TimeSeries.ParsedDate(row[Date], parse).Missing?
    ensures RecordKeys(rows + [row], parse, monthOf) == RecordKeys(rows, parse, monthOf)
    ensures forall key :: RecordDemand(rows + [row], key, parse, monthOf) == RecordDemand(rows, key, parse, monthOf)
  {
    DemandAppend(rows, [row], parse, monthOf);
    assert [row][1..] == [];
    assert RecordKey(row, parse, monthOf).None?;
    assert RecordKeys([row], parse, monthOf) == {};
    forall key ensures RecordDemand([row], key, parse, monthOf) == 0.0 {
    }
  }

  /** Parsing a record's date a second time changes neither its key nor its counter. */
  lemma ParsedRowKey(x: Row, y: Row, parse: string -> Option<Day>, monthOf: Day -> string)
    requires Date in x && x.Keys == y.Keys && y[Date] == TimeSeries.ParsedDate(x[Date], parse)
    requires forall c :: c in x && c != Date ==> y[c] == x[c]
    ensures RecordKey(y, parse, monthOf) == RecordKey(x, parse, monthOf) && Counter(y) == Counter(x)
    ensures y[Date].Stamp? || y[Date].Missing?
  {
    assert TimeSeries.ParsedDate(y[Date], parse) == y[Date];
  }

  /** Parsing the date column keeps every record's key and counter, and
      leaves only dates and NaTs in it. */
  lemma ParsedDemand(t: Frame, parse: string -> Option<Day>, monthOf: Day -> string)
    requires t.Valid() && Date in t.cols
    ensures RecordKeys(TimeSeries.ParseDates(t, parse).rows, parse, monthOf) == RecordKeys(t.rows, parse, monthOf)
    ensures forall key :: RecordDemand(TimeSeries.ParseDates(t, parse).rows, key, parse, monthOf)
                          == RecordDemand(t.rows, key, parse, monthOf)
    ensures forall i :: 0 <= i < |t.rows| ==>
      TimeSeries.ParseDates(t, parse).rows[i][Date].Stamp? || TimeSeries.ParseDates(t, parse).rows[i][Date].Missing?
  {
    var p := TimeSeries.ParseDates(t, parse);
    forall i | 0 <= i < |t.rows|
      ensures RecordKey(p.rows[i], parse, monthOf) == RecordKey(t.rows[i], parse, monthOf)
      ensures Counter(p.rows[i]) == Counter(t.rows[i])
      ensures p.rows[i][Date].Stamp? || p.rows[i][Date].Missing?
    {
      ParsedRowKey(t.rows[i], p.rows[i], parse, monthOf);
    }
    SameRecords(p.rows, t.rows, parse, monthOf);
  }

  /** Stamping a dated record with its month gives the group-by the record's key. */
  lemma MonthRowKey(row: Row, parse: string -> Option<Day>, monthOf: Day -> string)
    requires Date in row && row[Date].Stamp?
    ensures MonthKey(row[Month := Text(monthOf(row[Date].day))]) == RecordKey(row, parse, monthOf)
    ensures Counter(row[Month := Text(monthOf(row[Date].day))]) == Counter(row)
  {
  }

  /** The month-stamped table groups to the dated records' demand. */
  lemma StampedDemand(t: Frame, parse: string -> Option<Day>, monthOf: Day -> string)
    requires t.Valid() && AllDated(t.rows)
    ensures MonthKeys(WithMonth(t, monthOf).rows) == RecordKeys(t.rows, parse, monthOf)
    ensures forall key :: MonthSum(WithMonth(t, monthOf).rows, key) == RecordDemand(t.rows, key, parse, monthOf)
  {
    var r := WithMonth(t, monthOf);
    forall i | 0 <= i < |t.rows|
      ensures MonthKey(r.rows[i]) == RecordKey(t.rows[i], parse, monthOf) && Counter(r.rows[i]) == Counter(t.rows[i])
    {
      MonthRowKey(t.rows[i], parse, monthOf);
    }
    MonthMatches(r.rows, t.rows, parse, monthOf);
  }

  /** A non-empty biometric table holds the columns the monthly group-by reads. */
  predicate DemandReadable(t: Frame) {
    !t.Empty() ==> Pincode in t.cols && State in t.cols && District in t.cols && BioAge5To17 in t.cols
  }

  /** Lines 139-150 of `process_data`: when the biometric table is not
      empty its dates are parsed in place, the undated records dropped, each
      record stamped with its month, and the 5-17 counter summed per
      (month, pincode, state, district). A non-empty table must hold the
      columns the group-by reads, as pandas raises a key error otherwise. */
  method MonthlyDemand(bio: DataFrame, parse: string -> Option<Day>, monthOf: Day -> string)
    returns (demand: Option<map<DemandKey, real>>)
    requires TimeSeries.HasDates(bio.Value()) && DemandReadable(bio.Value())
    modifies bio
    ensures bio.Value() == TimeSeries.WithParsedDates(old(bio.Value()), parse)
    ensures demand.None? <==> old(bio.Value()).Empty()
    ensures demand.Some? ==> DemandOf(demand.value, old(bio.Value()).rows, parse, monthOf)
  {
    if bio.Value().Empty() {
      return None;
    }
    ghost var raw := bio.Value();
    TimeSeries.ParseInPlace(bio, parse);
    var g := DemandOfParsed(bio.Value(), raw, parse, monthOf);
    demand := Some(g);
  }

  /** Lines 142-149 on the parsed table: drop the undated records, stamp
      each with its month and sum the counter per key; the result is the
      demand of the raw records. */
  method DemandOfParsed(parsed: Frame, ghost raw: Frame, parse: string -> Option<Day>, monthOf: Day -> string)
    returns (g: map<DemandKey, real>)
    requires raw.Valid() && Date in raw.cols && parsed == TimeSeries.ParseDates(raw, parse)
    ensures DemandOf(g, raw.rows, parse, monthOf)
  {
    ParsedDemand(raw, parse, monthOf);
    DropKeepsDemand(parsed.rows, parse, monthOf);
    var dated := DropUndatedFrame(parsed);
    var stamped := WithMonth(dated, monthOf);
    StampedDemand(dated, parse, monthOf);
    g := GroupDemand(stamped.rows);
  }
}
