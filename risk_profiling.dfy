/** Update rates per pincode and the three-tier load classification over
    the batch (src/risk_profiling.py). Both operations work on a copy of
    the caller's table, so they are functions from table to table. */
module RiskProfiling {
  import opened Frames
  import opened Quantiles

  /** `num / den` with the infinities and NaN of a zero or missing operand
      replaced by 0. */
  function Rate(num: Cell, den: Cell): (r: real)
    ensures !IsNumber(num) || !IsNumber(den) || NumOf(den) == 0.0 ==> r == 0.0
    ensures IsNumber(num) && IsNumber(den) && NumOf(den) != 0.0 ==> r * NumOf(den) == NumOf(num)
  {
    if !IsNumber(num) || !IsNumber(den) || NumOf(den) == 0.0 then 0.0
    else NumOf(num) / NumOf(den)
  }

  /** Non-negative counts give a non-negative rate. */
  lemma RateNonNegative(num: Cell, den: Cell)
    requires NumOf(num) >= 0.0 && NumOf(den) >= 0.0
    ensures Rate(num, den) >= 0.0
  {
  }

  /** The rate column `num / den` for every row of the table. */
  function RateColumn(t: Frame, num: Col, den: Col): (cells: seq<Cell>)
    requires t.Valid() && num in t.cols && den in t.cols
    ensures |cells| == |t.rows|
    ensures forall i :: 0 <= i < |cells| ==> cells[i].Num? && cells[i].v == Rate(t.rows[i][num], t.rows[i][den])
  {
    seq(|t.rows|, i requires 0 <= i < |t.rows| => Num(Rate(t.rows[i][num], t.rows[i][den])))
  }

  /** `t[rc] = (t[num] / t[den]).replace([np.inf, -np.inf], 0).fillna(0)`. */
  function AddRate(t: Frame, rc: Col, num: Col, den: Col): (r: Frame)
    requires t.Valid() && num in t.cols && den in t.cols && Fits(rc, Num(0.0))
    ensures r.Valid() && r.cols == t.cols + {rc} && |r.rows| == |t.rows|
    ensures forall i :: 0 <= i < |r.rows| ==> r.rows[i][rc] == Num(Rate(t.rows[i][num], t.rows[i][den]))
    ensures forall i, c :: 0 <= i < |r.rows| && c in t.cols && c != rc ==> r.rows[i][c] == t.rows[i][c]
  {
    WithColumn(t, rc, RateColumn(t, num, den))
  }

  predicate HasMbuSources(t: Frame) {
    BioAge5To17 in t.cols && Age5To17 in t.cols
  }

  predicate HasDemoSources(t: Frame) {
    DemoAge5To17 in t.cols && Age5To17 in t.cols
  }

  /** `calculate_update_rates`: a copy of the table with `mbu_rate` added when
      both of its source columns exist and `demo_rate` added when both of its
      source columns exist. */
  function CalculateUpdateRates(t: Frame): (r: Frame)
    requires t.Valid()
    ensures r.Valid() && |r.rows| == |t.rows|
    ensures r.cols == t.cols + (if HasMbuSources(t) then {MbuRate} else {}) + (if HasDemoSources(t) then {DemoRate} else {})
    ensures HasMbuSources(t) ==> forall i :: 0 <= i < |r.rows| ==>
      r.rows[i][MbuRate] == Num(Rate(t.rows[i][BioAge5To17], t.rows[i][Age5To17]))
    ensures HasDemoSources(t) ==> forall i :: 0 <= i < |r.rows| ==>
      r.rows[i][DemoRate] == Num(Rate(t.rows[i][DemoAge5To17], t.rows[i][Age5To17]))
    ensures forall i, c ::
      (0 <= i < |r.rows| && c in t.cols && (c != MbuRate || !HasMbuSources(t)) && (c != DemoRate || !HasDemoSources(t)))
      ==> r.rows[i][c] == t.rows[i][c]
    ensures !HasMbuSources(t) && !HasDemoSources(t) ==> r == t
  {
    var withMbu := if HasMbuSources(t) then AddRate(t, MbuRate, BioAge5To17, Age5To17) else t;
    if HasDemoSources(t) then AddRate(withMbu, DemoRate, DemoAge5To17, Age5To17) else withMbu
  }

  /** A row with a zero (or missing) child enrolment gets rate 0, and any
      other row gets a rate that times the enrolment gives the update count. */
  lemma UpdateRateRow(t: Frame, i: int)
    requires t.Valid() && HasMbuSources(t) && 0 <= i < |t.rows|
    requires IsNumber(t.rows[i][BioAge5To17])
    ensures var rate := CalculateUpdateRates(t).rows[i][MbuRate].v;
      && (NumOf(t.rows[i][Age5To17]) == 0.0 ==> rate == 0.0)
      && (IsNumber(t.rows[i][Age5To17]) && NumOf(t.rows[i][Age5To17]) != 0.0 ==>
            rate * NumOf(t.rows[i][Age5To17]) == NumOf(t.rows[i][BioAge5To17]))
  {
    var r := CalculateUpdateRates(t);
    assert r.rows[i][MbuRate] == Num(Rate(t.rows[i][BioAge5To17], t.rows[i][Age5To17]));
  }

  /** The tier of one rate: at or above the 75th percentile is High, at or
      above the 25th is Medium, anything else (a lower rate, a NaN rate, or
      NaN thresholds, which every comparison fails) is Low. */
  function RiskLabelOf(rate: Cell, q25: Option<real>, q75: Option<real>): (l: RiskLabel)
    ensures l == HighLoad || l == MediumLoad || l == LowLoad
    ensures l == HighLoad <==> IsNumber(rate) && q75.Some? && NumOf(rate) >= q75.value
    ensures l == MediumLoad <==> IsNumber(rate) && !(q75.Some? && NumOf(rate) >= q75.value) && q25.Some? && NumOf(rate) >= q25.value
  {
    if IsNumber(rate) && q75.Some? && NumOf(rate) >= q75.value then HighLoad
    else if IsNumber(rate) && q25.Some? && NumOf(rate) >= q25.value then MediumLoad
    else LowLoad
  }

  /** 0 for Low Load, 1 for Medium Load, 2 for High Load. */
  function LoadRank(l: RiskLabel): nat {
    match l
    case HighLoad => 2
    case MediumLoad => 1
    case _ => 0
  }

  /** The batch's 25th and 75th percentiles of the non-missing `mbu_rate` values. */
  function Q25(t: Frame): Option<real> {
    Quantile(Present(t.rows, MbuRate), 0.25)
  }

  function Q75(t: Frame): Option<real> {
    Quantile(Present(t.rows, MbuRate), 0.75)
  }

  function LabelColumn(t: Frame, q25: Option<real>, q75: Option<real>): (cells: seq<Cell>)
    requires t.Valid() && MbuRate in t.cols
    ensures |cells| == |t.rows|
    ensures forall i :: 0 <= i < |cells| ==> Fits(RiskCategory, cells[i]) && cells[i] == Label(RiskLabelOf(t.rows[i][MbuRate], q25, q75))
  {
    seq(|t.rows|, i requires 0 <= i < |t.rows| => Label(RiskLabelOf(t.rows[i][MbuRate], q25, q75)))
  }

  /** `categorize_risk`: a copy of the table, unchanged when it has no
      `mbu_rate`; otherwise every row keeps its cells and gains the tier of
      its rate against the batch's quartiles. */
  function CategorizeRisk(t: Frame): (r: Frame)
    requires t.Valid()
    ensures r.Valid() && |r.rows| == |t.rows|
    ensures MbuRate !in t.cols ==> r == t
    ensures MbuRate in t.cols ==>
      && r.cols == t.cols + {RiskCategory}
      && (forall i :: 0 <= i < |r.rows| ==> r.rows[i][RiskCategory] == Label(RiskLabelOf(t.rows[i][MbuRate], Q25(t), Q75(t))))
      && (forall i, c :: 0 <= i < |r.rows| && c in t.cols && c != RiskCategory ==> r.rows[i][c] == t.rows[i][c])
  {
    if MbuRate !in t.cols then t
    else
      var q25, q75 := Q25(t), Q75(t);
      WithColumn(t, RiskCategory, LabelColumn(t, q25, q75))
  }

  /** When some rate is present, the lower quartile does not exceed the upper
      one and both lie between the smallest and the largest rate. */
  lemma ThresholdsOrdered(t: Frame)
    requires |Present(t.rows, MbuRate)| > 0
    ensures Q25(t).Some? && Q75(t).Some?
    ensures var rates := Present(t.rows, MbuRate);
      Min(rates) <= Q25(t).value <= Q75(t).value <= Max(rates)
  {
    var rates := Present(t.rows, MbuRate);
    QuantileBounds(rates, 0.25);
    QuantileBounds(rates, 0.75);
    QuantileMonotone(rates, 0.25, 0.75);
  }

  /** A row holding the largest rate of the batch is always High Load. */
  lemma MaxRateIsHighLoad(t: Frame, i: int)
    requires t.Valid() && MbuRate in t.cols && 0 <= i < |t.rows| && IsNumber(t.rows[i][MbuRate])
    requires forall j :: 0 <= j < |t.rows| && IsNumber(t.rows[j][MbuRate]) ==> NumOf(t.rows[j][MbuRate]) <= NumOf(t.rows[i][MbuRate])
    ensures CategorizeRisk(t).rows[i][RiskCategory] == Label(HighLoad)
  {
    var rates := Present(t.rows, MbuRate);
    var v := NumOf(t.rows[i][MbuRate]);
    PresentHas(t.rows, MbuRate, i);
    ThresholdsOrdered(t);
    var m := Max(rates);
    PresentMember(t.rows, MbuRate, m);
    assert m <= v;
    assert RiskLabelOf(t.rows[i][MbuRate], Q25(t), Q75(t)) == HighLoad;
  }

  /** A higher rate never gets a lower tier. */
  lemma LabelMonotone(a: Cell, b: Cell, q25: Option<real>, q75: Option<real>)
    requires IsNumber(a) && IsNumber(b) && NumOf(a) <= NumOf(b)
    ensures LoadRank(RiskLabelOf(a, q25, q75)) <= LoadRank(RiskLabelOf(b, q25, q75))
  {
  }

  /** Within one batch the tiers follow the rates: a row with a rate at most
      another row's rate never gets the higher tier. */
  lemma CategorizeMonotone(t: Frame, i: int, j: int)
    requires t.Valid() && MbuRate in t.cols && 0 <= i < |t.rows| && 0 <= j < |t.rows|
    requires IsNumber(t.rows[i][MbuRate]) && IsNumber(t.rows[j][MbuRate])
    requires NumOf(t.rows[i][MbuRate]) <= NumOf(t.rows[j][MbuRate])
    ensures LoadRank(CategorizeRisk(t).rows[i][RiskCategory].tier) <= LoadRank(CategorizeRisk(t).rows[j][RiskCategory].tier)
  {
    LabelMonotone(t.rows[i][MbuRate], t.rows[j][MbuRate], Q25(t), Q75(t));
  }

  /** A rate equal to the lower quartile is Medium Load, not Low Load, when
      the quartiles differ. */
  lemma RateAtLowerQuartile(q25: real, q75: real)
    requires q25 < q75
    ensures RiskLabelOf(Num(q25), Some(q25), Some(q75)) == MediumLoad
  {
  }

  /** After `calculate_update_rates` every `mbu_rate` is a number, so every
      row is ranked by its rate and the quartiles exist whenever there are rows. */
  lemma RatesAllPresent(t: Frame)
    requires t.Valid() && HasMbuSources(t)
    ensures |Present(CalculateUpdateRates(t).rows, MbuRate)| == |t.rows|
  {
    var r := CalculateUpdateRates(t);
    PresentAll(r.rows, MbuRate);
  }

  lemma {:induction false} PresentAll(rows: seq<Row>, c: Col)
    requires forall i :: 0 <= i < |rows| ==> c in rows[i] && IsNumber(rows[i][c])
    ensures |Present(rows, c)| == |rows|
  {
    if |rows| > 0 {
      PresentAll(rows[1..], c);
    }
  }
}
