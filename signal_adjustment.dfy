/** src/signal_adjustment.py: a forecast is rescaled by exogenous signals.
    Each forecast period is multiplied by the factors of the signal rows
    dated exactly that period; `get_festival_impact` is a fixed month
    staircase. A NaN factor makes its period NaN, as pandas' arithmetic
    does. */
module SignalAdjustment {
  import opened Frames
  import TimeSeries

  /** A float as pandas computes with it: a number, or NaN. */
  datatype Value = NaN | Real(r: real)

  /** A pandas Series of forecast values on a date index. */
  datatype Series = Series(index: seq<Day>, values: seq<Value>) {
    predicate Valid() {
      |index| == |values|
    }
  }

  /** Multiplication where NaN absorbs. */
  function Times(a: Value, b: Value): Value {
    if a.Real? && b.Real? then Real(a.r * b.r) else NaN
  }

  /** `row.get('impact_factor', 1.0)`: 1.0 when the table has no factor
      column, NaN for a missing cell. */
  function FactorOf(row: Row): Value {
    if ImpactFactor !in row then Real(1.0)
    else if IsNumber(row[ImpactFactor]) then Real(NumOf(row[ImpactFactor]))
    else NaN
  }

  /** The parsed date of a signal row; NaT matches no period. */
  function SignalDate(row: Row): Option<Day> {
    if Date in row && row[Date].Stamp? then Some(row[Date].day) else None
  }

  /** The product, in row order, of the factors of the signal rows dated `d`;
      1.0 when none is. */
  function FactorProduct(rows: seq<Row>, d: Day): Value {
    if |rows| == 0 then Real(1.0)
    else
      var last := rows[|rows| - 1];
      Times(FactorProduct(rows[..|rows| - 1], d), if SignalDate(last) == Some(d) then FactorOf(last) else Real(1.0))
  }

  /** The forecast with every period scaled by the product of its matching factors. */
  function Adjust(f: Series, rows: seq<Row>): (r: Series)
    requires f.Valid()
    ensures r.Valid() && r.index == f.index
  {
    Series(f.index, seq(|f.values|, j requires 0 <= j < |f.values| => Times(f.values[j], FactorProduct(rows, f.index[j]))))
  }

  /** `pd.to_datetime` without `errors='coerce'` raises on text it cannot
      parse, so every date text of a signal table must parse. */
  predicate Parsable(t: Frame, parse: string -> Option<Day>) {
    forall i :: 0 <= i < |t.rows| && Date in t.rows[i] && t.rows[i][Date].Text? ==> parse(t.rows[i][Date].s).Some?
  }

  lemma TimesOne(a: Value)
    ensures Times(a, Real(1.0)) == a
  {
  }

  /** `adjustment_factor.loc[d] *= factor`: every period equal to `d` is
      multiplied by the factor, every other period keeps its value. */
  function ScaleAt(adjustment: seq<Value>, index: seq<Day>, d: Day, factor: Value): (r: seq<Value>)
    requires |adjustment| == |index|
    ensures |r| == |index|
    ensures forall j :: 0 <= j < |index| ==> r[j] == if index[j] == d then Times(adjustment[j], factor) else adjustment[j]
  {
    seq(|index|, j requires 0 <= j < |index| => if index[j] == d then Times(adjustment[j], factor) else adjustment[j])
  }

  /** Lines 36-46: the factor series starts at 1.0 on the forecast's index
      and is multiplied, signal row by signal row, at the row's date. */
  method Adjustment(index: seq<Day>, rows: seq<Row>) returns (adjustment: seq<Value>)
    ensures |adjustment| == |index|
    ensures forall j :: 0 <= j < |index| ==> adjustment[j] == FactorProduct(rows, index[j])
  {
    adjustment := seq(|index|, _ => Real(1.0));
    var i := 0;
    while i < |rows|
      invariant 0 <= i <= |rows| && |adjustment| == |index|
      invariant forall j :: 0 <= j < |index| ==> adjustment[j] == FactorProduct(rows[..i], index[j])
    {
      var date := SignalDate(rows[i]);
      var factor := FactorOf(rows[i]);
      if date.Some? && date.value in index {
        adjustment := ScaleAt(adjustment, index, date.value, factor);
      }
      assert rows[..i + 1][..i] == rows[..i];
      i := i + 1;
    }
    assert rows[..i] == rows;
  }

  /** `adjust_forecast_with_signals`: an empty signal table returns the
      forecast as it is; otherwise the signals' date column is parsed in
      place, the factor series is built, and the forecast is multiplied by
      it. The forecast is a value and is never changed. */
  method AdjustForecastWithSignals(forecast: Series, signals: DataFrame, parse: string -> Option<Day>)
    returns (adjusted: Series)
    requires forecast.Valid()
    requires TimeSeries.HasDates(signals.Value()) && Parsable(signals.Value(), parse)
    modifies signals
    ensures signals.Value() == TimeSeries.WithParsedDates(old(signals.Value()), parse)
    ensures old(signals.Value()).Empty() ==> adjusted == forecast
    ensures adjusted == Adjust(forecast, signals.Value().rows)
  {
    if signals.Value().Empty() {
      assert forall i :: 0 <= i < |signals.rows| ==> Date !in signals.rows[i];
      forall j | 0 <= j < |forecast.index| ensures FactorProduct(signals.rows, forecast.index[j]) == Real(1.0) {
        NoMatchNoFactor(signals.rows, forecast.index[j]);
      }
      assert Adjust(forecast, signals.rows).values == forecast.values;
      return forecast;
    }
    TimeSeries.ParseInPlace(signals, parse);
    var adjustment := Adjustment(forecast.index, signals.rows);
    adjusted := Series(forecast.index, Scaled(forecast.values, adjustment));
  }

  /** `forecast_series * adjustment_factor`, period by period. */
  function Scaled(values: seq<Value>, factors: seq<Value>): (r: seq<Value>)
    requires |values| == |factors|
    ensures |r| == |values| && forall j :: 0 <= j < |values| ==> r[j] == Times(values[j], factors[j])
  {
    seq(|values|, j requires 0 <= j < |values| => Times(values[j], factors[j]))
  }

  // What the adjustment promises.

  /** Signal rows not dated `d` leave the factor of period `d` at 1.0. */
  lemma {:induction false} NoMatchNoFactor(rows: seq<Row>, d: Day)
    requires forall i :: 0 <= i < |rows| ==> SignalDate(rows[i]) != Some(d)
    ensures FactorProduct(rows, d) == Real(1.0)
  {
    if |rows| > 0 {
      NoMatchNoFactor(rows[..|rows| - 1], d);
    }
  }

  /** A signal row dated outside the forecast's index changes nothing. */
  lemma UnmatchedIgnored(f: Series, rows: seq<Row>, row: Row)
    requires f.Valid()
    requires SignalDate(row).None? || SignalDate(row).value !in f.index
    ensures Adjust(f, rows + [row]) == Adjust(f, rows)
  {
    assert (rows + [row])[..|rows|] == rows;
    forall j | 0 <= j < |f.index| ensures FactorProduct(rows + [row], f.index[j]) == FactorProduct(rows, f.index[j]) {
      TimesOne(FactorProduct(rows, f.index[j]));
    }
  }

  /** Without signal rows the forecast comes back unchanged. */
  lemma NoSignalsIdentity(f: Series)
    requires f.Valid()
    ensures Adjust(f, []) == f
  {
    forall j | 0 <= j < |f.values| ensures Times(f.values[j], FactorProduct([], f.index[j])) == f.values[j] {
      TimesOne(f.values[j]);
    }
  }

  /** Factors that are all 1.0, which includes a table without the factor
      column, leave the forecast unchanged. */
  lemma {:induction false} AllOnesProduct(rows: seq<Row>, d: Day)
    requires forall i :: 0 <= i < |rows| ==> FactorOf(rows[i]) == Real(1.0)
    ensures FactorProduct(rows, d) == Real(1.0)
  {
    if |rows| > 0 {
      AllOnesProduct(rows[..|rows| - 1], d);
    }
  }

  lemma AllOnesIdentity(f: Series, rows: seq<Row>)
    requires f.Valid()
    requires forall i :: 0 <= i < |rows| ==> FactorOf(rows[i]) == Real(1.0)
    ensures Adjust(f, rows) == f
  {
    forall j | 0 <= j < |f.values| ensures Times(f.values[j], FactorProduct(rows, f.index[j])) == f.values[j] {
      AllOnesProduct(rows, f.index[j]);
      TimesOne(f.values[j]);
    }
  }

  lemma TimesAssociative(a: Value, b: Value, c: Value)
    ensures Times(Times(a, b), c) == Times(a, Times(b, c))
  {
    if a.Real? && b.Real? && c.Real? {
      assert (a.r * b.r) * c.r == a.r * (b.r * c.r);
    }
  }

  /** The factor of a period splits over a split of the signal rows. */
  lemma {:induction false} ProductAppend(xs: seq<Row>, ys: seq<Row>, d: Day)
    ensures FactorProduct(xs + ys, d) == Times(FactorProduct(xs, d), FactorProduct(ys, d))
  {
    if |ys| == 0 {
      assert xs + ys == xs;
      TimesOne(FactorProduct(xs, d));
    } else {
      var last := ys[|ys| - 1];
      var f := if SignalDate(last) == Some(d) then FactorOf(last) else Real(1.0);
      assert (xs + ys)[..|xs + ys| - 1] == xs + ys[..|ys| - 1];
      ProductAppend(xs, ys[..|ys| - 1], d);
      TimesAssociative(FactorProduct(xs, d), FactorProduct(ys[..|ys| - 1], d), f);
    }
  }

  /** The order of the signal rows does not matter. */
  lemma SignalOrderIrrelevant(f: Series, xs: seq<Row>, ys: seq<Row>)
    requires f.Valid()
    ensures Adjust(f, xs + ys) == Adjust(f, ys + xs)
  {
    forall j | 0 <= j < |f.index| ensures FactorProduct(xs + ys, f.index[j]) == FactorProduct(ys + xs, f.index[j]) {
      ProductAppend(xs, ys, f.index[j]);
      ProductAppend(ys, xs, f.index[j]);
    }
  }

  // The festival staircase.

  type MonthNumber = m: int | 1 <= m <= 12 witness 1

  /** `get_festival_impact` on the month of a date: 1.1 in May and June,
      0.9 in October and November, 1.0 otherwise. */
  function FestivalImpact(month: MonthNumber): (r: real)
    ensures 0.9 <= r <= 1.1
  {
    if month == 5 || month == 6 then 1.1
    else if month == 10 || month == 11 then 0.9
    else 1.0
  }

  /** Exactly four months carry an impact, two raising and two lowering demand. */
  lemma FestivalMonths()
    ensures forall m: MonthNumber :: FestivalImpact(m) > 1.0 <==> m in {5, 6}
    ensures forall m: MonthNumber :: FestivalImpact(m) < 1.0 <==> m in {10, 11}
    ensures forall m: MonthNumber :: FestivalImpact(m) == 1.0 <==> m !in {5, 6, 10, 11}
  {
  }
}
