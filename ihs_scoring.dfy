/** The Identity Health Score (IHS): a base of 600 plus a capped bonus for
    the biometric update rate and a capped bonus for the demographic update
    rate, and the strategy staircase over that score. The program computes
    it in two places with different constants (src/ihs_scoring.py and the
    dashboard script); one scorer parameterised by a Profile covers both. */
module IhsScoring {
  import opened Frames
  import opened RealArith

  /** Coefficients and caps of the two bonuses, and whether a score equal
      to a strategy threshold reaches it. */
  datatype Profile = Profile(coeffBio: real, capBio: real, coeffDemo: real, capDemo: real, inclusive: bool) {
    predicate Valid() {
      0.0 <= coeffBio && 0.0 <= capBio && 0.0 <= coeffDemo && 0.0 <= capDemo
    }
  }

  const BaseScore: real := 600.0
  const HighThreshold: real := 800.0
  const MiddleThreshold: real := 700.0

  /** The profile of src/ihs_scoring.py: biometric rate times 200, strict thresholds. */
  const Notebook: Profile := Profile(200.0, 200.0, 100.0, 100.0, false)

  /** The profile of the dashboard script: biometric rate times 150, inclusive thresholds. */
  const Dashboard: Profile := Profile(150.0, 200.0, 100.0, 100.0, true)

  /** numpy's `clip(x, lo, hi)` for `lo <= hi`. */
  function Clip(x: real, lo: real, hi: real): (r: real)
    requires lo <= hi
    ensures lo <= r <= hi
  {
    if x < lo then lo else if x > hi then hi else x
  }

  function BioBonus(p: Profile, mbuRate: real): real
    requires p.Valid()
  {
    Clip(mbuRate * p.coeffBio, 0.0, p.capBio)
  }

  function DemoBonus(p: Profile, demoRate: real): real
    requires p.Valid()
  {
    Clip(demoRate * p.coeffDemo, 0.0, p.capDemo)
  }

  /** The score of one pair of rates under a profile. */
  function Score(p: Profile, mbuRate: real, demoRate: real): (s: real)
    requires p.Valid()
    ensures BaseScore <= s <= BaseScore + p.capBio + p.capDemo
  {
    BaseScore + BioBonus(p, mbuRate) + DemoBonus(p, demoRate)
  }

  /** `calculate_ihs`: the notebook profile's score, always within [600, 900]. */
  function CalculateIhs(mbuRate: real, demoRate: real): (s: real)
    ensures 600.0 <= s <= 900.0
  {
    Score(Notebook, mbuRate, demoRate)
  }

  predicate Reaches(p: Profile, score: real, threshold: real) {
    if p.inclusive then score >= threshold else score > threshold
  }

  /** The strategy staircase: the high threshold gives the least urgent
      tier, the middle one the moderate tier, anything lower the most
      urgent tier. */
  function StrategyFor(p: Profile, score: real): Urgency {
    if Reaches(p, score, HighThreshold) then Routine
    else if Reaches(p, score, MiddleThreshold) then Targeted
    else InPerson
  }

  /** `assign_ihs_strategy`: strict comparisons, so 800 is Awareness and 700 is Intervention. */
  function AssignIhsStrategy(score: real): (u: Urgency)
    ensures u == Routine <==> score > 800.0
    ensures u == Targeted <==> 700.0 < score <= 800.0
    ensures u == InPerson <==> score <= 700.0
  {
    StrategyFor(Notebook, score)
  }

  /** `get_strategy` in the dashboard script: inclusive comparisons on the rounded score. */
  function GetStrategy(score: int): (u: Urgency)
    ensures u == Routine <==> score >= 800
    ensures u == Targeted <==> 700 <= score < 800
    ensures u == InPerson <==> score < 700
  {
    StrategyFor(Dashboard, score as real)
  }

  /** The strings `assign_ihs_strategy` returns. */
  function NotebookStrategyName(u: Urgency): string {
    match u
    case Routine => "Maintain (Digital Nudges)"
    case Targeted => "Awareness (SMS Campaigns)"
    case InPerson => "Intervention (Mobile Vans/Camps)"
  }

  /** The strings `get_strategy` returns. */
  function DashboardStrategyName(u: Urgency): string {
    match u
    case Routine => "Healthy: Routine Digital Nudges"
    case Targeted => "Warning: Targeted SMS Campaigns"
    case InPerson => "Critical: Mobile Van & Camp Deployment"
  }

  /** Zero rates give exactly the base score. */
  lemma ScoreOfZeroRates(p: Profile)
    requires p.Valid()
    ensures Score(p, 0.0, 0.0) == BaseScore
  {
  }

  /** A rate whose scaled value reaches the cap earns the whole cap. */
  lemma BonusSaturates(p: Profile, mbuRate: real, demoRate: real)
    requires p.Valid()
    ensures mbuRate * p.coeffBio >= p.capBio ==> BioBonus(p, mbuRate) == p.capBio
    ensures demoRate * p.coeffDemo >= p.capDemo ==> DemoBonus(p, demoRate) == p.capDemo
  {
    assert BioBonus(p, mbuRate) == Clip(mbuRate * p.coeffBio, 0.0, p.capBio);
    assert DemoBonus(p, demoRate) == Clip(demoRate * p.coeffDemo, 0.0, p.capDemo);
  }

  /** Under the notebook profile a rate of 1 or more saturates its bonus. */
  lemma NotebookSaturation(mbuRate: real, demoRate: real)
    ensures mbuRate >= 1.0 ==> BioBonus(Notebook, mbuRate) == 200.0
    ensures demoRate >= 1.0 ==> DemoBonus(Notebook, demoRate) == 100.0
  {
    if mbuRate >= 1.0 {
      MulMonotone(1.0, mbuRate, 200.0);
    }
    if demoRate >= 1.0 {
      MulMonotone(1.0, demoRate, 100.0);
    }
  }

  lemma ClipMonotone(x: real, y: real, lo: real, hi: real)
    requires lo <= hi && x <= y
    ensures Clip(x, lo, hi) <= Clip(y, lo, hi)
  {
  }

  /** The score never decreases when either rate grows. */
  lemma ScoreMonotone(p: Profile, m1: real, m2: real, d1: real, d2: real)
    requires p.Valid() && m1 <= m2 && d1 <= d2
    ensures Score(p, m1, d1) <= Score(p, m2, d2)
  {
    MulMonotone(m1, m2, p.coeffBio);
    MulMonotone(d1, d2, p.coeffDemo);
    ClipMonotone(m1 * p.coeffBio, m2 * p.coeffBio, 0.0, p.capBio);
    ClipMonotone(d1 * p.coeffDemo, d2 * p.coeffDemo, 0.0, p.capDemo);
    assert BioBonus(p, m1) <= BioBonus(p, m2);
    assert DemoBonus(p, d1) <= DemoBonus(p, d2);
  }

  /** A higher score never yields a more urgent strategy. */
  lemma StrategyMonotone(p: Profile, s1: real, s2: real)
    requires s1 <= s2
    ensures StrategyFor(p, s1).Rank() <= StrategyFor(p, s2).Rank()
  {
  }

  /** The two profiles' staircases agree on every score except the two thresholds... */
  lemma ProfilesAgreeAwayFromThresholds(score: real)
    requires score != HighThreshold && score != MiddleThreshold
    ensures StrategyFor(Notebook, score) == StrategyFor(Dashboard, score)
  {
  }

  /** ...where the dashboard's inclusive rule is one tier less urgent. */
  lemma ProfilesDisagreeAtThresholds()
    ensures StrategyFor(Notebook, 800.0) == Targeted && StrategyFor(Dashboard, 800.0) == Routine
    ensures StrategyFor(Notebook, 700.0) == InPerson && StrategyFor(Dashboard, 700.0) == Targeted
  {
  }

  /** For equal scores the dashboard rule is never more urgent than the notebook rule. */
  lemma DashboardNeverMoreUrgent(score: real)
    ensures StrategyFor(Notebook, score).Rank() <= StrategyFor(Dashboard, score).Rank()
  {
  }

  /** With its smaller biometric coefficient the dashboard profile never scores higher. */
  lemma DashboardScoresNoHigher(mbuRate: real, demoRate: real)
    ensures Score(Dashboard, mbuRate, demoRate) <= Score(Notebook, mbuRate, demoRate)
  {
    if mbuRate >= 0.0 {
      MulMonotone(150.0, 200.0, mbuRate);
      assert mbuRate * 150.0 <= mbuRate * 200.0;
    }
  }

  /** The score cell `calculate_pincode_ihs` writes for one row; a NaN rate
      gives a NaN score. */
  function ScoreCell(row: Row): Cell {
    if MbuRate in row && DemoRate in row && (row[MbuRate].Num? || row[MbuRate].Int?) && (row[DemoRate].Num? || row[DemoRate].Int?)
    then Num(CalculateIhs(NumOf(row[MbuRate]), NumOf(row[DemoRate])))
    else Missing
  }

  /** The strategy cell for a score cell; a NaN score fails both comparisons
      and lands in the last branch. */
  function StrategyCell(score: Cell): Cell {
    if score.Missing? then Advice(InPerson) else Advice(AssignIhsStrategy(NumOf(score)))
  }

  function ScoreColumn(t: Frame): (cells: seq<Cell>)
    ensures |cells| == |t.rows| && forall i :: 0 <= i < |cells| ==> Fits(IhsScore, cells[i])
  {
    seq(|t.rows|, i requires 0 <= i < |t.rows| => ScoreCell(t.rows[i]))
  }

  function StrategyColumn(t: Frame): (cells: seq<Cell>)
    requires t.Valid() && IhsScore in t.cols
    ensures |cells| == |t.rows| && forall i :: 0 <= i < |cells| ==> Fits(Strategy, cells[i])
  {
    seq(|t.rows|, i requires 0 <= i < |t.rows| => StrategyCell(t.rows[i][IhsScore]))
  }

  /** What `calculate_pincode_ihs` leaves in the table: unchanged when a rate
      column is absent; otherwise every row gains its score and strategy and
      keeps every other cell. */
  function PincodeIhs(t: Frame): (r: Frame)
    requires t.Valid()
    ensures r.Valid() && |r.rows| == |t.rows|
    ensures MbuRate !in t.cols || DemoRate !in t.cols ==> r == t
    ensures MbuRate in t.cols && DemoRate in t.cols ==>
      && r.cols == t.cols + {IhsScore, Strategy}
      && forall i :: 0 <= i < |r.rows| ==>
        && r.rows[i][IhsScore] == ScoreCell(t.rows[i])
        && r.rows[i][Strategy] == StrategyCell(ScoreCell(t.rows[i]))
        && forall c :: c in t.cols && c != IhsScore && c != Strategy ==> r.rows[i][c] == t.rows[i][c]
  {
    if MbuRate !in t.cols || DemoRate !in t.cols then t
    else
      var scored := WithColumn(t, IhsScore, ScoreColumn(t));
      WithColumn(scored, Strategy, StrategyColumn(scored))
  }

  /** Every row whose two rates are present gets a score in [600, 900] and
      the strategy the staircase assigns to it; a row with a NaN rate gets
      no score and the most urgent strategy. */
  lemma PincodeIhsRows(t: Frame, i: int)
    requires t.Valid() && MbuRate in t.cols && DemoRate in t.cols && 0 <= i < |t.rows|
    ensures var row := PincodeIhs(t).rows[i];
      var present := (t.rows[i][MbuRate].Num? || t.rows[i][MbuRate].Int?) && (t.rows[i][DemoRate].Num? || t.rows[i][DemoRate].Int?);
      && (present ==> row[IhsScore].Num? && 600.0 <= row[IhsScore].v <= 900.0
                      && row[Strategy] == Advice(AssignIhsStrategy(row[IhsScore].v)))
      && (!present ==> row[IhsScore] == Missing && row[Strategy] == Advice(InPerson))
  {
  }

  /** `calculate_pincode_ihs(df)`: adds the `ihs_score` and `strategy`
      columns to the caller's table in place, one row at a time. */
  method CalculatePincodeIhs(df: DataFrame)
    requires df.Value().Valid()
    modifies df
    ensures df.Value() == PincodeIhs(old(df.Value()))
  {
    if MbuRate !in df.cols || DemoRate !in df.cols {
      return;
    }
    var t := df.Value();
    var scores := ScoresOf(t);
    var scored := WithColumn(t, IhsScore, scores);
    df.cols, df.rows := scored.cols, scored.rows;
    var strategies := StrategiesOf(scored);
    var labelled := WithColumn(scored, Strategy, strategies);
    df.cols, df.rows := labelled.cols, labelled.rows;
  }

  /** `df.apply(lambda row: calculate_ihs(...), axis=1)`, one row at a time. */
  method ScoresOf(t: Frame) returns (scores: seq<Cell>)
    ensures scores == ScoreColumn(t)
  {
    scores := [];
    for i := 0 to |t.rows|
      invariant |scores| == i
      invariant forall j :: 0 <= j < i ==> scores[j] == ScoreCell(t.rows[j])
    {
      scores := scores + [ScoreCell(t.rows[i])];
    }
  }

  /** `df['ihs_score'].apply(assign_ihs_strategy)`, one row at a time. */
  method StrategiesOf(t: Frame) returns (strategies: seq<Cell>)
    requires t.Valid() && IhsScore in t.cols
    ensures strategies == StrategyColumn(t)
  {
    strategies := [];
    for i := 0 to |t.rows|
      invariant |strategies| == i
      invariant forall j :: 0 <= j < i ==> strategies[j] == StrategyCell(t.rows[j][IhsScore])
    {
      strategies := strategies + [StrategyCell(t.rows[i][IhsScore])];
    }
  }

  /** The case the two call sites disagree on: 1000 biometric and 500
      demographic updates over 2000 enrolments score exactly 700 under the
      dashboard profile, which its inclusive rule calls Warning (Targeted)
      and the notebook's strict rule would call Intervention (InPerson). */
  lemma ScoreExactlyAtMiddleThreshold()
    ensures Score(Dashboard, 1000.0 / 2000.0, 500.0 / 2000.0) == 700.0
    ensures GetStrategy(700) == Targeted && AssignIhsStrategy(700.0) == InPerson
  {
  }
}
