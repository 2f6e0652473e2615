/** The two aggregations of src/data_processing.py: the per-pincode table
    the risk profile is built on (`aggregate_by_pincode`) and the weekly
    timeline of update counts (`aggregate_time_series`). */
module DataProcessing {
  import opened Frames

  /** The counters each record category contributes to the pincode table. */
  const BioListed: set<Col> := {BioAge5To17, BioAge18Above}
  const DemoListed: set<Col> := {DemoAge5To17, DemoAge18Above}
  const EnrolListed: set<Col> := {Age5To17, Age18Above}

  /** The three categories' counters are summable and pairwise apart. */
  lemma ListedApart()
    ensures Summable(BioListed) && Summable(DemoListed) && Summable(EnrolListed)
    ensures BioListed !! DemoListed && BioListed !! EnrolListed && DemoListed !! EnrolListed
  {
  }

  /** Columns that can be summed: numeric columns other than the key. */
  predicate Summable(listed: set<Col>) {
    Pincode !in listed && forall c :: c in listed ==> Fits(c, Num(0.0))
  }

  /** What the source needs of an input table: when it is non-empty and has
      one of the listed counters, it has a pincode column to group by
      (pandas raises a key error otherwise). */
  predicate Groupable(t: Frame, listed: set<Col>) {
    t.Valid() && (!t.Empty() && listed * t.cols != {} ==> Pincode in t.cols)
  }

  /** The category yields a non-empty grouped table: it has rows, one of the
      listed counters, and at least one row with a pincode. */
  predicate Contributes(t: Frame, listed: set<Col>) {
    !t.Empty() && listed * t.cols != {} && KeysIn(t.rows, Pincode) != {}
  }

  /** The counters the category adds to the pincode table. */
  function Summed(t: Frame, listed: set<Col>): set<Col> {
    if Contributes(t, listed) then listed * t.cols else {}
  }

  /** The pincodes the category adds to the pincode table. */
  function Contributed(t: Frame, listed: set<Col>): set<int> {
    if Contributes(t, listed) then KeysIn(t.rows, Pincode) else {}
  }

  /** What the category's grouped table holds: nothing when the category
      does not contribute; otherwise the pincode and the listed counters
      present, the category's pincodes, and for every pincode the sums of
      its counters (a missing row reads as 0 once filled). */
  ghost predicate GroupedSums(g: Frame, t: Frame, listed: set<Col>) {
    && g.Valid() && (g.Empty() <==> !Contributes(t, listed))
    && (!g.Empty() ==>
         && g.cols == {Pincode} + listed * t.cols
         && KeysIn(g.rows, Pincode) == KeysIn(t.rows, Pincode)
         && SumsOf(g, t, listed * t.cols))
  }

  /** The grouped table's cells, read through a left merge filled with 0,
      are the category's sums for any pincode. */
  ghost predicate SumsOf(g: Frame, t: Frame, cols: set<Col>) {
    g.Valid() &&
    forall k, c :: c in cols ==>
      var x := ZeroIfMissing(Lookup(g, Pincode, k, c));
      IsNumber(x) && NumOf(x) == GroupSum(t.rows, Pincode, k, c)
  }

  /** `t.groupby('pincode')[cols].sum().reset_index()` over the listed
      counters present, or an empty table when the category is empty or
      has none of them. */
  method GroupCategory(t: Frame, listed: set<Col>) returns (g: Frame)
    requires Groupable(t, listed) && Summable(listed)
    ensures GroupedSums(g, t, listed)
  {
    if t.Empty() || listed * t.cols == {} {
      g := Frame({}, []);
    } else {
      var cols := listed * t.cols;
      g := GroupBy(t, Pincode, cols, {});
      assert |g.rows| == 0 <==> KeysIn(t.rows, Pincode) == {};
      forall k, c | c in cols
        ensures var x := ZeroIfMissing(Lookup(g, Pincode, k, c));
          IsNumber(x) && NumOf(x) == GroupSum(t.rows, Pincode, k, c)
      {
        if k in KeysIn(t.rows, Pincode) {
          GroupByLookup(t, Pincode, cols, k, c);
        } else {
          GroupByLookupAbsent(t, Pincode, cols, k, c);
        }
      }
    }
  }

  /** The elements of a set in some order, each once: Python's `list(s)`. */
  method ListOf(s: set<int>) returns (r: seq<int>)
    ensures |r| == |s| && Distinct(r)
    ensures (set x | x in r) == s
  {
    r := [];
    var rest := s;
    while rest != {}
      invariant rest <= s && |r| + |rest| == |s| && Distinct(r)
      invariant forall x :: x in r <==> x in s && x !in rest
      decreases |rest|
    {
      NonEmptyHasElement(rest);
      var x :| x in rest;
      r := r + [x];
      rest := rest - {x};
    }
    assert forall x :: x in (set y | y in r) <==> x in s;
  }

  /** The table has one row per listed key, in the list's order, and every
      cell besides the key holds a number. */
  predicate Listed(risk: Frame, keys: seq<int>) {
    && risk.Valid() && Pincode in risk.cols && |risk.rows| == |keys|
    && (forall i :: 0 <= i < |keys| ==> KeyAt(risk.rows[i], Pincode) == Some(keys[i]))
    && (forall i, c :: 0 <= i < |risk.rows| && c in risk.cols && c != Pincode ==> IsNumber(risk.rows[i][c]))
  }

  /** Each row's cell in every column of `cols` is the sum of that column
      over the rows of `t` with the row's pincode. */
  predicate SumsHold(risk: Frame, t: Frame, cols: set<Col>) {
    forall i, c :: 0 <= i < |risk.rows| && c in cols ==>
      && c in risk.rows[i] && IsNumber(risk.rows[i][c]) && KeyAt(risk.rows[i], Pincode).Some?
      && NumOf(risk.rows[i][c]) == GroupSum(t.rows, Pincode, KeyAt(risk.rows[i], Pincode).value, c)
  }

  /** pandas' `fillna(0)` on one cell. */
  function ZeroIfMissing(x: Cell): Cell {
    if x.Missing? then Num(0.0) else x
  }

  /** What `pd.merge(risk, g, on='pincode', how='left').fillna(0)` yields:
      the rows of `risk` in their order, their cells kept, each extended
      with the cells of `g` in the row with the same pincode, 0 where `g`
      lacks the pincode. */
  predicate MergedFrom(r: Frame, risk: Frame, g: Frame)
    requires g.Valid()
  {
    && r.Valid() && r.cols == risk.cols + g.cols && |r.rows| == |risk.rows|
    && (forall i :: 0 <= i < |risk.rows| ==> KeyAt(risk.rows[i], Pincode).Some?)
    && (forall i, c :: 0 <= i < |r.rows| && c in risk.cols ==> c in risk.rows[i] && r.rows[i][c] == risk.rows[i][c])
    && (forall i, c :: 0 <= i < |r.rows| && c in g.cols && c != Pincode ==>
         r.rows[i][c] == ZeroIfMissing(Lookup(g, Pincode, KeyAt(risk.rows[i], Pincode).value, c)))
  }

  /** One `df_risk = pd.merge(df_risk, g, on='pincode', how='left').fillna(0)`
      step, for a table whose every row has a pincode. */
  method MergeStep(risk: Frame, g: Frame) returns (r: Frame)
    requires risk.Valid() && g.Valid() && Pincode in risk.cols && Pincode in g.cols && risk.cols * g.cols == {Pincode}
    requires forall c :: c in g.cols && c != Pincode ==> Fits(c, Num(0.0))
    requires forall i :: 0 <= i < |risk.rows| ==> KeyAt(risk.rows[i], Pincode).Some?
    requires forall i, c :: 0 <= i < |risk.rows| && c in risk.cols && c != Pincode ==> IsNumber(risk.rows[i][c])
    ensures MergedFrom(r, risk, g)
  {
    var m := LeftMerge(risk, g, Pincode);
    forall i, c | 0 <= i < |m.rows| && c in risk.cols
      ensures m.rows[i][c] == risk.rows[i][c] && !m.rows[i][c].Missing?
    {
      assert m.rows[i][c] == risk.rows[i][c];
      if c == Pincode {
        assert KeyAt(risk.rows[i], Pincode).Some?;
        assert KeyOf(risk.rows[i][c]).Some?;
      } else {
        assert IsNumber(risk.rows[i][c]);
      }
    }
    r := FillNaAll(m, Num(0.0));
    forall i, c | 0 <= i < |r.rows| && c in g.cols && c != Pincode
      ensures r.rows[i][c] == ZeroIfMissing(Lookup(g, Pincode, KeyAt(risk.rows[i], Pincode).value, c))
    {
      assert c !in risk.cols * g.cols;
      assert m.rows[i][c] == Lookup(g, Pincode, KeyAt(risk.rows[i], Pincode).value, c);
    }
    forall i, c | 0 <= i < |r.rows| && c in risk.cols
      ensures c in risk.rows[i] && r.rows[i][c] == risk.rows[i][c]
    {
      assert RowFits(risk.rows[i], risk.cols);
    }
  }

  /** One row of a merge with a grouped table of sums: the row keeps its
      pincode, every cell besides it is a number, and the new cells are
      the sums for the row's pincode. */
  lemma MergeRow(risk: Frame, g: Frame, r: Frame, t: Frame, cols: set<Col>, keys: seq<int>, i: int)
    requires Listed(risk, keys) && SumsOf(g, t, cols) && g.cols == {Pincode} + cols && risk.cols !! cols
    requires MergedFrom(r, risk, g) && 0 <= i < |r.rows|
    ensures KeyAt(r.rows[i], Pincode) == Some(keys[i])
    ensures forall c :: c in r.cols && c != Pincode ==> IsNumber(r.rows[i][c])
    ensures forall c :: c in cols ==> NumOf(r.rows[i][c]) == GroupSum(t.rows, Pincode, keys[i], c)
  {
    assert r.rows[i][Pincode] == risk.rows[i][Pincode];
    forall c | c in r.cols && c != Pincode
      ensures IsNumber(r.rows[i][c])
    {
      if c !in risk.cols {
        assert IsNumber(ZeroIfMissing(Lookup(g, Pincode, keys[i], c)));
      }
    }
    forall c | c in cols
      ensures NumOf(r.rows[i][c]) == GroupSum(t.rows, Pincode, keys[i], c)
    {
      assert c !in risk.cols && c != Pincode;
    }
  }

  /** Merging a grouped table of sums into the table keeps its rows and
      their cells, and adds the category's counters as sums by pincode,
      0 for a pincode the category lacks. */
  lemma MergeCategory(risk: Frame, g: Frame, r: Frame, t: Frame, cols: set<Col>, keys: seq<int>)
    requires Listed(risk, keys) && SumsOf(g, t, cols) && g.cols == {Pincode} + cols && risk.cols !! cols
    requires MergedFrom(r, risk, g)
    ensures Listed(r, keys) && SumsHold(r, t, cols)
  {
    forall i | 0 <= i < |r.rows|
      ensures KeyAt(r.rows[i], Pincode) == Some(keys[i])
      ensures forall c :: c in r.cols && c != Pincode ==> IsNumber(r.rows[i][c])
      ensures forall c :: c in cols ==> NumOf(r.rows[i][c]) == GroupSum(t.rows, Pincode, keys[i], c)
    {
      MergeRow(risk, g, r, t, cols, keys, i);
    }
  }

  /** Cells a later merge leaves alone keep the sums they hold. */
  lemma SumsKept(before: Frame, after: Frame, t: Frame, cols: set<Col>)
    requires SumsHold(before, t, cols) && |after.rows| == |before.rows| && cols <= before.cols
    requires forall i :: 0 <= i < |before.rows| ==> KeyAt(after.rows[i], Pincode) == KeyAt(before.rows[i], Pincode)
    requires forall i, c :: 0 <= i < |after.rows| && c in before.cols ==> c in after.rows[i] && c in before.rows[i] && after.rows[i][c] == before.rows[i][c]
    ensures SumsHold(after, t, cols)
  {
  }

  /** One `if not g.empty: df_risk = pd.merge(df_risk, g, ...).fillna(0)`
      step, where `g` is the grouped table of category `t`. */
  method MergeInto(risk: Frame, g: Frame, ghost t: Frame, ghost listed: set<Col>, ghost keys: seq<int>) returns (r: Frame)
    requires Listed(risk, keys) && GroupedSums(g, t, listed) && Summable(listed) && risk.cols * listed == {}
    ensures Listed(r, keys) && r.cols == risk.cols + Summed(t, listed)
    ensures SumsHold(r, t, Summed(t, listed))
    ensures forall i, c :: 0 <= i < |r.rows| && c in risk.cols ==> c in r.rows[i] && r.rows[i][c] == risk.rows[i][c]
  {
    r := risk;
    if !g.Empty() {
      r := MergeStep(risk, g);
      MergeCategory(risk, g, r, t, listed * t.cols, keys);
    }
  }

  /** The table of pincodes alone, one row per listed pincode. */
  function KeyTable(keys: seq<int>): (r: Frame)
    ensures Listed(r, keys) && r.cols == {Pincode}
  {
    Frame({Pincode}, seq(|keys|, i requires 0 <= i < |keys| => map[Pincode := Int(keys[i])]))
  }

  /** `aggregate_by_pincode(df_bio, df_demo, df_enrol)`: one row per pincode
      of any contributing category, each exactly once, holding per category
      the sums of its counters over that pincode's records. */
  method AggregateByPincode(bio: Frame, demo: Frame, enrol: Frame) returns (risk: Frame)
    requires Groupable(bio, BioListed) && Groupable(demo, DemoListed) && Groupable(enrol, EnrolListed)
    ensures risk.Valid() && KeyedBy(risk, Pincode)
    ensures KeysIn(risk.rows, Pincode) == Contributed(bio, BioListed) + Contributed(demo, DemoListed) + Contributed(enrol, EnrolListed)
    ensures |risk.rows| == |Contributed(bio, BioListed) + Contributed(demo, DemoListed) + Contributed(enrol, EnrolListed)|
    ensures risk.cols == {Pincode} + Summed(bio, BioListed) + Summed(demo, DemoListed) + Summed(enrol, EnrolListed)
    ensures SumsHold(risk, bio, Summed(bio, BioListed))
    ensures SumsHold(risk, demo, Summed(demo, DemoListed))
    ensures SumsHold(risk, enrol, Summed(enrol, EnrolListed))
  {
    ListedApart();
    var stats := GroupCategory(bio, BioListed);
    var demoStats := GroupCategory(demo, DemoListed);
    var pop := GroupCategory(enrol, EnrolListed);
    risk := PincodeTable(stats, demoStats, pop, bio, demo, enrol);
  }

  /** The second half of `aggregate_by_pincode`, from the three grouped
      tables: the union of their pincodes as a list, merged in turn with
      each non-empty grouped table. */
  method PincodeTable(stats: Frame, demoStats: Frame, pop: Frame, ghost bio: Frame, ghost demo: Frame, ghost enrol: Frame)
    returns (risk: Frame)
    requires GroupedSums(stats, bio, BioListed) && GroupedSums(demoStats, demo, DemoListed) && GroupedSums(pop, enrol, EnrolListed)
    ensures risk.Valid() && KeyedBy(risk, Pincode)
    ensures KeysIn(risk.rows, Pincode) == Contributed(bio, BioListed) + Contributed(demo, DemoListed) + Contributed(enrol, EnrolListed)
    ensures |risk.rows| == |Contributed(bio, BioListed) + Contributed(demo, DemoListed) + Contributed(enrol, EnrolListed)|
    ensures risk.cols == {Pincode} + Summed(bio, BioListed) + Summed(demo, DemoListed) + Summed(enrol, EnrolListed)
    ensures SumsHold(risk, bio, Summed(bio, BioListed))
    ensures SumsHold(risk, demo, Summed(demo, DemoListed))
    ensures SumsHold(risk, enrol, Summed(enrol, EnrolListed))
  {
    var pincodes := AllPincodes(stats, demoStats, pop, bio, demo, enrol);
    var keys := ListOf(pincodes);
    risk := MergeCategories(keys, stats, demoStats, pop, bio, demo, enrol);
    KeysOfListed(risk, Pincode, keys);
  }

  /** A non-empty grouped table holds exactly the category's pincodes. */
  lemma GroupedKeys(g: Frame, t: Frame, listed: set<Col>)
    requires GroupedSums(g, t, listed)
    ensures (if g.Empty() then {} else KeysIn(g.rows, Pincode)) == Contributed(t, listed)
  {
  }

  /** The pincode set of `aggregate_by_pincode`: the union of the pincodes
      of every non-empty grouped table. */
  method AllPincodes(stats: Frame, demoStats: Frame, pop: Frame, ghost bio: Frame, ghost demo: Frame, ghost enrol: Frame)
    returns (pincodes: set<int>)
    requires GroupedSums(stats, bio, BioListed) && GroupedSums(demoStats, demo, DemoListed) && GroupedSums(pop, enrol, EnrolListed)
    ensures pincodes == Contributed(bio, BioListed) + Contributed(demo, DemoListed) + Contributed(enrol, EnrolListed)
  {
    GroupedKeys(stats, bio, BioListed);
    GroupedKeys(demoStats, demo, DemoListed);
    GroupedKeys(pop, enrol, EnrolListed);
    pincodes := {};
    if !stats.Empty() {
      pincodes := pincodes + KeysIn(stats.rows, Pincode);
    }
    if !demoStats.Empty() {
      pincodes := pincodes + KeysIn(demoStats.rows, Pincode);
    }
    if !pop.Empty() {
      pincodes := pincodes + KeysIn(pop.rows, Pincode);
    }
  }

  /** The merges of `aggregate_by_pincode`: the pincode list, left-merged in
      turn with each non-empty grouped table, missing sums filled with 0. */
  method MergeCategories(keys: seq<int>, stats: Frame, demoStats: Frame, pop: Frame, ghost bio: Frame, ghost demo: Frame, ghost enrol: Frame)
    returns (risk: Frame)
    requires GroupedSums(stats, bio, BioListed) && GroupedSums(demoStats, demo, DemoListed) && GroupedSums(pop, enrol, EnrolListed)
    ensures Listed(risk, keys)
    ensures risk.cols == {Pincode} + Summed(bio, BioListed) + Summed(demo, DemoListed) + Summed(enrol, EnrolListed)
    ensures SumsHold(risk, bio, Summed(bio, BioListed))
    ensures SumsHold(risk, demo, Summed(demo, DemoListed))
    ensures SumsHold(risk, enrol, Summed(enrol, EnrolListed))
  {
    ListedApart();
    var r0 := KeyTable(keys);
    var r1 := MergeInto(r0, stats, bio, BioListed, keys);
    var r2 := MergeInto(r1, demoStats, demo, DemoListed, keys);
    SumsKept(r1, r2, bio, Summed(bio, BioListed));
    risk := MergeInto(r2, pop, enrol, EnrolListed, keys);
    SumsKept(r2, risk, bio, Summed(bio, BioListed));
    SumsKept(r2, risk, demo, Summed(demo, DemoListed));
  }
}
