/** The per-level re-aggregation of `region_data` rows
    (`aggregate_and_add_to_db` and its helpers in
    zoomin/database/db_access_with_calculations.py): grouping, the
    aggregation of each group, and the parent-code cut of each NUTS level. */
module Calculations {
  import opened Wrappers
  import opened Text
  import opened DbAccess
  import Disaggregation

  // ---------------------------------------------------------------------------
  // Rows
  // ---------------------------------------------------------------------------

  /** One `region_data` row (zoomin/api/v1_api/models.py, `RegionData`);
      a nullable column is an `Option`. */
  datatype Record = Record(
    regionId: Option<int>,
    varDetailId: int,
    pathwayId: Option<int>,
    originalResolutionId: int,
    climateExperimentId: Option<int>,
    disaggregationMethodId: Option<int>,
    citationId: int,
    year: Option<int>,
    value: real,
    confidenceInterval: Option<real>,
    qualityRating: Option<string>,
    chosen: int)

  /** A row of the table handed to the aggregation: a record plus the
      `parent_region_code` it is grouped by. */
  datatype Row = Row(rec: Record, parentRegionCode: Option<string>)

  /** The optional columns a table may or may not carry. */
  datatype Column =
    | Year
    | ClimateExperimentId
    | DisaggregationMethodId
    | PathwayId
    | ConfidenceInterval
    | QualityRating

  /** A table: the optional columns it has, and its rows. A row's field for a
      column the table lacks is never read. */
  datatype Frame = Frame(columns: set<Column>, rows: seq<Row>)

  function ValueOf(r: Row): real { r.rec.value }
  function VarDetailOf(r: Row): int { r.rec.varDetailId }
  function CitationOf(r: Row): int { r.rec.citationId }
  function OriginalResolutionOf(r: Row): int { r.rec.originalResolutionId }
  function ChosenOf(r: Row): int { r.rec.chosen }
  function ParentOf(r: Row): Option<string> { r.parentRegionCode }
  function QualityOf(r: Row): Option<string> { r.rec.qualityRating }
  function YearOf(r: Row): Option<int> { r.rec.year }
  function ClimateOf(r: Row): Option<int> { r.rec.climateExperimentId }
  function DisaggregationMethodOf(r: Row): Option<int> { r.rec.disaggregationMethodId }
  function PathwayOf(r: Row): Option<int> { r.rec.pathwayId }
  function ConfidenceOf(r: Row): Option<real> { r.rec.confidenceInterval }

  /** One column of a group, as `data_group[column]`. */
  function Project<U>(g: seq<Row>, f: Row -> U): (xs: seq<U>)
    ensures |xs| == |g| && forall i :: 0 <= i < |g| ==> xs[i] == f(g[i])
  {
    seq(|g|, i requires 0 <= i < |g| => f(g[i]))
  }

  /** Sum of the `value` column. */
  function SumValues(rows: seq<Row>): real
    decreases |rows|
  {
    if rows == [] then 0.0 else SumValues(rows[..|rows| - 1]) + rows[|rows| - 1].rec.value
  }

  /** Two tables whose `value` columns agree have the same sum. */
  lemma {:induction false} SumValuesPointwise(a: seq<Row>, b: seq<Row>)
    requires |a| == |b|
    requires forall i :: 0 <= i < |a| ==> a[i].rec.value == b[i].rec.value
    ensures SumValues(a) == SumValues(b)
    decreases |a|
  {
    if a != [] {
      SumValuesPointwise(a[..|a| - 1], b[..|b| - 1]);
    }
  }

  lemma SumValuesAppend(a: seq<Row>, x: Row)
    ensures SumValues(a + [x]) == SumValues(a) + x.rec.value
  {
    assert (a + [x])[..|a|] == a;
  }

  // ---------------------------------------------------------------------------
  // `unique().item()` and `value_counts().idxmax()`
  // ---------------------------------------------------------------------------

  /** Every entry equals the first one and there is at least one. */
  predicate SingleValued<T(==)>(xs: seq<T>) {
    xs != [] && forall i :: 0 <= i < |xs| ==> xs[i] == xs[0]
  }

  /** The message of `item()` on a column without exactly one value. */
  const NotScalarMessage: string := "can only convert an array of size 1 to a Python scalar"

  /** pandas' `series.unique().item()`: the column's only distinct value, or
      ValueError when it has none or several. A missing value counts as one
      value of its own. */
  function UniqueItem<T(==)>(xs: seq<T>): (r: Result<T>)
    ensures r.Ok? <==> SingleValued(xs)
    ensures r.Ok? ==> r.value == xs[0]
    ensures r.Err? ==> r.error.ValueError?
  {
    if xs == [] then Err(ValueError(NotScalarMessage))
    else
      OneElementAllEqual(xs);
      if |Elements(xs)| == 1 then Ok(xs[0])
      else Err(ValueError(NotScalarMessage))
  }

  /** The values actually present, in order; pandas' `value_counts` skips NaN. */
  function Present<T(!new)>(xs: seq<Option<T>>): (vs: seq<T>)
    ensures forall v :: v in vs <==> Some(v) in xs
    ensures forall v :: multiset(vs)[v] == multiset(xs)[Some(v)]
    decreases |xs|
  {
    if xs == [] then []
    else
      assert xs == xs[..|xs| - 1] + [xs[|xs| - 1]];
      var init := Present(xs[..|xs| - 1]);
      match xs[|xs| - 1]
      case None => init
      case Some(v) => init + [v]
  }

  /** `m` is one of the most frequent entries of `xs`. */
  predicate IsMode<T(==)>(xs: seq<T>, m: T) {
    m in xs && forall j :: 0 <= j < |xs| ==> multiset(xs)[xs[j]] <= multiset(xs)[m]
  }

  /** The first of the most frequent entries of `xs[i..]`. */
  function MostFrequentFrom<T(==)>(xs: seq<T>, i: nat): (m: T)
    requires i < |xs|
    ensures m in xs[i..]
    ensures forall j :: i <= j < |xs| ==> multiset(xs)[xs[j]] <= multiset(xs)[m]
    decreases |xs| - i
  {
    if i == |xs| - 1 then xs[i]
    else
      var b := MostFrequentFrom(xs, i + 1);
      assert b in xs[i..] by {
        assert xs[i + 1..] == xs[i..][1..];
      }
      if multiset(xs)[xs[i]] >= multiset(xs)[b] then xs[i] else b
  }

  /** pandas' `value_counts().idxmax()`: a most frequent value, or ValueError
      when there is none. Which of several tied values pandas picks depends on
      the order `value_counts` happens to list them in, so only "one of the
      most frequent" is promised. */
  function Mode<T(==)>(xs: seq<T>): (r: Result<T>)
    ensures r.Ok? <==> xs != []
    ensures r.Ok? ==> IsMode(xs, r.value)
    ensures r.Err? ==> r.error.ValueError?
  {
    if xs == [] then Err(ValueError("attempt to get argmax of an empty sequence"))
    else Ok(MostFrequentFrom(xs, 0))
  }

  lemma ModeExample()
    ensures Mode(["good", "bad", "good"]) == Ok("good")
  {
    var xs := ["good", "bad", "good"];
    assert multiset(xs)["good"] == 2;
    assert multiset(xs)["bad"] == 1;
  }

  // ---------------------------------------------------------------------------
  // `_perform_aggregation`
  // ---------------------------------------------------------------------------

  /** The `var_aggregation_method` of a variable. */
  datatype AggMethod = SumMethod | MeanMethod | BoolMethod | UnknownMethod

  /** `agg_method` is compared with the strings "sum", "mean" and "bool"; a list
      of several values (the collapse's `Many`) equals none of them. */
  function ParseAggMethod(c: Collapsed<SqlValue>): (m: AggMethod)
    ensures m == SumMethod <==> c == Single(SqlStr("sum"))
    ensures m == MeanMethod <==> c == Single(SqlStr("mean"))
    ensures m == BoolMethod <==> c == Single(SqlStr("bool"))
  {
    if c == Single(SqlStr("sum")) then SumMethod
    else if c == Single(SqlStr("mean")) then MeanMethod
    else if c == Single(SqlStr("bool")) then BoolMethod
    else UnknownMethod
  }

  /** The aggregated `value` of one group. */
  function AggregateValue(agg: AggMethod, g: seq<Row>): (r: Result<real>)
    requires g != []
    ensures agg == SumMethod ==> r == Ok(SumValues(g))
    ensures agg == MeanMethod ==> r.Ok? && r.value * |g| as real == SumValues(g)
    ensures agg == BoolMethod ==>
      (r.Ok? <==> SingleValued(Project(g, ValueOf))) && (r.Ok? ==> r.value == g[0].rec.value)
    // An unknown method leaves `agg_val` unassigned.
    ensures agg == UnknownMethod ==> r == Err(UnboundLocalError("agg_val"))
  {
    match agg
    case SumMethod => Ok(SumValues(g))
    case MeanMethod => Ok(SumValues(g) / |g| as real)
    case BoolMethod => UniqueItem(Project(g, ValueOf))
    case UnknownMethod => Err(UnboundLocalError("agg_val"))
  }

  /** `data_group[column].unique().item()` for a column the group may lack. */
  function OptionalItem<T(==)>(present: bool, xs: seq<Option<T>>): (r: Result<Option<T>>)
    ensures r.Ok? <==> !present || SingleValued(xs)
    ensures r.Ok? && present ==> r.value == xs[0]
    ensures r.Ok? && !present ==> r.value.None?
  {
    if present then UniqueItem(xs) else Ok(None)
  }

  /** The descriptor columns of child `c` reappear unchanged in aggregate `a`;
      an optional column the table lacks stays empty. */
  predicate SameDescriptors(columns: set<Column>, c: Row, a: Row) {
    && c.rec.varDetailId == a.rec.varDetailId
    && c.rec.citationId == a.rec.citationId
    && c.rec.originalResolutionId == a.rec.originalResolutionId
    && c.rec.chosen == a.rec.chosen
    && c.parentRegionCode == a.parentRegionCode
    && a.rec.year == (if Year in columns then c.rec.year else None)
    && a.rec.climateExperimentId == (if ClimateExperimentId in columns then c.rec.climateExperimentId else None)
    && a.rec.disaggregationMethodId == (if DisaggregationMethodId in columns then c.rec.disaggregationMethodId else None)
    && a.rec.pathwayId == (if PathwayId in columns then c.rec.pathwayId else None)
    && a.rec.confidenceInterval == (if ConfidenceInterval in columns then c.rec.confidenceInterval else None)
  }

  /** Every descriptor column holds a single value across the group. */
  predicate DescriptorsSingleValued(columns: set<Column>, g: seq<Row>) {
    && SingleValued(Project(g, VarDetailOf))
    && SingleValued(Project(g, CitationOf))
    && SingleValued(Project(g, OriginalResolutionOf))
    && SingleValued(Project(g, ChosenOf))
    && SingleValued(Project(g, ParentOf))
    && (Year in columns ==> SingleValued(Project(g, YearOf)))
    && (ClimateExperimentId in columns ==> SingleValued(Project(g, ClimateOf)))
    && (DisaggregationMethodId in columns ==> SingleValued(Project(g, DisaggregationMethodOf)))
    && (PathwayId in columns ==> SingleValued(Project(g, PathwayOf)))
    && (ConfidenceInterval in columns ==> SingleValued(Project(g, ConfidenceOf)))
  }

  /** `_perform_aggregation`: one group of rows becomes one row. (`groupby`
      never forms an empty group; for one, `unique().item()` would fail.) */
  function AggregateGroup(columns: set<Column>, agg: AggMethod, g: seq<Row>): (r: Result<Row>)
    ensures r.Ok? <==>
      && g != []
      && AggregateValue(agg, g).Ok?
      && DescriptorsSingleValued(columns, g)
      && (QualityRating in columns ==> Present(Project(g, QualityOf)) != [])
    ensures agg == UnknownMethod ==> r == Err(UnboundLocalError("agg_val"))
    ensures r.Ok? ==> r.value.rec.value == AggregateValue(agg, g).value
    ensures agg != UnknownMethod && g == [] ==> r.Err? && r.error.ValueError?
    ensures r.Ok? ==> r.value.rec.regionId.None?
    ensures r.Ok? && QualityRating in columns ==>
      r.value.rec.qualityRating.Some? && IsMode(Present(Project(g, QualityOf)), r.value.rec.qualityRating.value)
    ensures r.Ok? && QualityRating !in columns ==> r.value.rec.qualityRating.None?
  {
    if agg == UnknownMethod then Err(UnboundLocalError("agg_val"))
    else if g == [] then Err(ValueError(NotScalarMessage))
    else
    var value :- AggregateValue(agg, g);
    var varDetail :- UniqueItem(Project(g, VarDetailOf));
    var citation :- UniqueItem(Project(g, CitationOf));
    var originalResolution :- UniqueItem(Project(g, OriginalResolutionOf));
    var chosen :- UniqueItem(Project(g, ChosenOf));
    var parent :- UniqueItem(Project(g, ParentOf));
    var quality :-
      if QualityRating in columns then
        match Mode(Present(Project(g, QualityOf)))
        case Ok(q) => Ok(Some(q))
        case Err(e) => Err(e)
      else Ok(None);
    var year :- OptionalItem(Year in columns, Project(g, YearOf));
    var climate :- OptionalItem(ClimateExperimentId in columns, Project(g, ClimateOf));
    var disaggregationMethod :- OptionalItem(DisaggregationMethodId in columns, Project(g, DisaggregationMethodOf));
    var pathway :- OptionalItem(PathwayId in columns, Project(g, PathwayOf));
    var confidence :- OptionalItem(ConfidenceInterval in columns, Project(g, ConfidenceOf));
    Ok(Row(
      Record(None, varDetail, pathway, originalResolution, climate, disaggregationMethod,
             citation, year, value, confidence, quality, chosen),
      parent))
  }

  /** The aggregate of a group carries every descriptor of every row of it. */
  lemma AggregateGroupDescriptors(columns: set<Column>, agg: AggMethod, g: seq<Row>)
    requires AggregateGroup(columns, agg, g).Ok?
    ensures forall i :: 0 <= i < |g| ==> SameDescriptors(columns, g[i], AggregateGroup(columns, agg, g).value)
  {
  }

  // ---------------------------------------------------------------------------
  // `groupby(group_vars, dropna=False)`
  // ---------------------------------------------------------------------------

  /** A group's key; a grouping column the table lacks takes no part. */
  datatype GroupKey = GroupKey(parentRegionCode: Option<string>, climateExperimentId: Option<int>, year: Option<int>)

  /** `group_vars`: `parent_region_code`, plus `climate_experiment_id` and
      `year` when the table has them. A missing value is a key of its own
      (`dropna=False`). */
  function GroupKeyOf(columns: set<Column>, r: Row): GroupKey {
    GroupKey(
      r.parentRegionCode,
      if ClimateExperimentId in columns then r.rec.climateExperimentId else None,
      if Year in columns then r.rec.year else None)
  }

  /** Two rows share a group exactly when they agree on every grouping column
      the table has. */
  lemma SameGroupKey(columns: set<Column>, a: Row, b: Row)
    ensures GroupKeyOf(columns, a) == GroupKeyOf(columns, b) <==>
      && a.parentRegionCode == b.parentRegionCode
      && (ClimateExperimentId in columns ==> a.rec.climateExperimentId == b.rec.climateExperimentId)
      && (Year in columns ==> a.rec.year == b.rec.year)
  {
  }

  predicate Distinct<T(==)>(ks: seq<T>) {
    forall i, j :: 0 <= i < j < |ks| ==> ks[i] != ks[j]
  }

  /** The keys that occur, each once, in order of first occurrence. */
  function DistinctKeys(columns: set<Column>, rows: seq<Row>): (ks: seq<GroupKey>)
    ensures Distinct(ks)
    ensures forall r :: r in rows ==> GroupKeyOf(columns, r) in ks
    ensures forall k :: k in ks ==> exists r :: r in rows && GroupKeyOf(columns, r) == k
    decreases |rows|
  {
    if rows == [] then []
    else
      assert rows == rows[..|rows| - 1] + [rows[|rows| - 1]];
      var ks := DistinctKeys(columns, rows[..|rows| - 1]);
      var k := GroupKeyOf(columns, rows[|rows| - 1]);
      if k in ks then ks else ks + [k]
  }

  /** The rows of the group with key `k`, in table order. */
  function GroupRows(columns: set<Column>, rows: seq<Row>, k: GroupKey): (g: seq<Row>)
    ensures forall r :: r in g <==> r in rows && GroupKeyOf(columns, r) == k
    ensures forall r :: multiset(g)[r] == if GroupKeyOf(columns, r) == k then multiset(rows)[r] else 0
    decreases |rows|
  {
    if rows == [] then []
    else
      assert rows == rows[..|rows| - 1] + [rows[|rows| - 1]];
      var init := GroupRows(columns, rows[..|rows| - 1], k);
      if GroupKeyOf(columns, rows[|rows| - 1]) == k then init + [rows[|rows| - 1]] else init
  }

  /** The groups of the keys `ks`, in the order of `ks`. */
  function GroupsFor(columns: set<Column>, rows: seq<Row>, ks: seq<GroupKey>): (gs: seq<seq<Row>>)
    ensures |gs| == |ks|
    ensures forall i :: 0 <= i < |ks| ==> gs[i] == GroupRows(columns, rows, ks[i])
    decreases |ks|
  {
    if ks == [] then []
    else GroupsFor(columns, rows, ks[..|ks| - 1]) + [GroupRows(columns, rows, ks[|ks| - 1])]
  }

  /** The groups `groupby` forms: one per occurring key, none of them empty. */
  function Groups(columns: set<Column>, rows: seq<Row>): (gs: seq<seq<Row>>)
    ensures |gs| == |DistinctKeys(columns, rows)|
    ensures forall i :: 0 <= i < |gs| ==> gs[i] != []
    ensures forall i :: 0 <= i < |gs| ==> gs[i] == GroupRows(columns, rows, DistinctKeys(columns, rows)[i])
  {
    var ks := DistinctKeys(columns, rows);
    var gs := GroupsFor(columns, rows, ks);
    assert forall i :: 0 <= i < |gs| ==> gs[i] != [] by {
      forall i | 0 <= i < |gs|
        ensures gs[i] != []
      {
        assert ks[i] in ks;
        var r :| r in rows && GroupKeyOf(columns, r) == ks[i];
        assert r in gs[i];
      }
    }
    gs
  }

  /** Sum of the group sums. */
  function SumOfSums(gs: seq<seq<Row>>): real
    decreases |gs|
  {
    if gs == [] then 0.0 else SumOfSums(gs[..|gs| - 1]) + SumValues(gs[|gs| - 1])
  }

  lemma {:induction false} GroupSumsEmpty(columns: set<Column>, ks: seq<GroupKey>)
    ensures SumOfSums(GroupsFor(columns, [], ks)) == 0.0
    decreases |ks|
  {
    if ks != [] {
      GroupSumsEmpty(columns, ks[..|ks| - 1]);
      var gs := GroupsFor(columns, [], ks);
      assert gs[..|gs| - 1] == GroupsFor(columns, [], ks[..|ks| - 1]);
    }
  }

  /** Appending a row adds its value to the sum of exactly one group, when its
      key is among `ks`. */
  lemma {:induction false} GroupSumsSnoc(columns: set<Column>, rows: seq<Row>, x: Row, ks: seq<GroupKey>)
    requires Distinct(ks)
    ensures SumOfSums(GroupsFor(columns, rows + [x], ks))
         == SumOfSums(GroupsFor(columns, rows, ks)) + (if GroupKeyOf(columns, x) in ks then x.rec.value else 0.0)
    decreases |ks|
  {
    if ks != [] {
      var init := ks[..|ks| - 1];
      var k := ks[|ks| - 1];
      assert Distinct(init);
      GroupSumsSnoc(columns, rows, x, init);
      var after := GroupsFor(columns, rows + [x], ks);
      var before := GroupsFor(columns, rows, ks);
      assert after[..|after| - 1] == GroupsFor(columns, rows + [x], init);
      assert before[..|before| - 1] == GroupsFor(columns, rows, init);
      assert (rows + [x])[..|rows|] == rows;
      if GroupKeyOf(columns, x) == k {
        SumValuesAppend(GroupRows(columns, rows, k), x);
        assert k !in init;
      }
      assert GroupKeyOf(columns, x) in ks <==> GroupKeyOf(columns, x) in init || GroupKeyOf(columns, x) == k;
    }
  }

  /** When every key of the table is among the distinct keys `ks`, the group
      sums add up to the table's sum. */
  lemma {:induction false} GroupSumsTotal(columns: set<Column>, rows: seq<Row>, ks: seq<GroupKey>)
    requires Distinct(ks)
    requires forall r :: r in rows ==> GroupKeyOf(columns, r) in ks
    ensures SumOfSums(GroupsFor(columns, rows, ks)) == SumValues(rows)
    decreases |rows|
  {
    if rows == [] {
      GroupSumsEmpty(columns, ks);
    } else {
      var init := rows[..|rows| - 1];
      var x := rows[|rows| - 1];
      assert rows == init + [x];
      GroupSumsTotal(columns, init, ks);
      GroupSumsSnoc(columns, init, x, ks);
    }
  }

  /** Grouping loses no value: the groups' sums add up to the table's. */
  lemma GroupsConserveSum(columns: set<Column>, rows: seq<Row>)
    ensures SumOfSums(Groups(columns, rows)) == SumValues(rows)
  {
    GroupSumsTotal(columns, rows, DistinctKeys(columns, rows));
  }

  // ---------------------------------------------------------------------------
  // One level of `aggregate_and_add_to_db`
  // ---------------------------------------------------------------------------

  lemma FlattenSnoc<T>(xss: seq<seq<T>>, xs: seq<T>)
    ensures Flatten(xss + [xs]) == Flatten(xss) + xs
  {
    assert (xss + [xs])[..|xss|] == xss;
  }

  /** All entries of a sequence of sequences, in order. */
  function Flatten<T>(xss: seq<seq<T>>): seq<T>
    decreases |xss|
  {
    if xss == [] then [] else Flatten(xss[..|xss| - 1]) + xss[|xss| - 1]
  }

  lemma {:induction false} FlattenMember<T>(xss: seq<seq<T>>, x: T)
    ensures x in Flatten(xss) <==> exists i :: 0 <= i < |xss| && x in xss[i]
    decreases |xss|
  {
    if xss != [] {
      FlattenMember(xss[..|xss| - 1], x);
      var init := xss[..|xss| - 1];
      assert forall i :: 0 <= i < |init| ==> init[i] == xss[i];
    }
  }

  /** `groupby(...).apply(_perform_aggregation)`: every group in turn; the first
      group that fails stops the whole level. */
  function AggregateGroups(columns: set<Column>, agg: AggMethod, gs: seq<seq<Row>>): Result<seq<Row>> {
    MapResults(GroupStep(columns, agg), gs)
  }

  function GroupStep(columns: set<Column>, agg: AggMethod): seq<Row> -> Result<Row> {
    g => AggregateGroup(columns, agg, g)
  }

  /** The number of characters a resolution cuts from a parent code:
      `del_dict[resolution]`, and nothing for NUTS3. */
  function CutFor(resolution: string, delDict: map<string, int>): (r: Result<Option<int>>)
    ensures resolution == "NUTS3" ==> r == Ok(None)
    ensures resolution != "NUTS3" ==> (r.Ok? <==> resolution in delDict)
    ensures resolution != "NUTS3" && r.Ok? ==> r.value == Some(delDict[resolution])
    ensures r.Err? ==> r.error == KeyError(resolution)
  {
    if resolution == "NUTS3" then Ok(None)
    else if resolution in delDict then Ok(Some(delDict[resolution]))
    else Err(KeyError(resolution))
  }

  /** A code with `cut` characters removed (`code.str[:-n]`). */
  function CutCode(cut: Option<int>, code: string): string {
    match cut
    case None => code
    case Some(n) => DropLast(code, n)
  }

  /** The level's copy of the table, its parent codes cut; a missing code stays missing. */
  function TruncateRows(rows: seq<Row>, cut: Option<int>): (out: seq<Row>)
    ensures |out| == |rows|
    ensures forall i :: 0 <= i < |rows| ==> out[i].rec == rows[i].rec
  {
    seq(|rows|, i requires 0 <= i < |rows| =>
      rows[i].(parentRegionCode :=
        match rows[i].parentRegionCode
        case None => None
        case Some(p) => Some(CutCode(cut, p))))
  }

  /** The aggregated rows of one level, before the region ids are attached. */
  function AggregatedRows(frame: Frame, agg: AggMethod, cut: Option<int>): Result<seq<Row>> {
    AggregateGroups(frame.columns, agg, Groups(frame.columns, TruncateRows(frame.rows, cut)))
  }

  /** A summed level carries exactly the total of the table it was built from. */
  lemma AggregatedSumConserved(frame: Frame, cut: Option<int>)
    requires AggregatedRows(frame, SumMethod, cut).Ok?
    ensures SumValues(AggregatedRows(frame, SumMethod, cut).value) == SumValues(frame.rows)
  {
    var rows := TruncateRows(frame.rows, cut);
    var gs := Groups(frame.columns, rows);
    var aggs := AggregatedRows(frame, SumMethod, cut).value;
    MapResultsValues(GroupStep(frame.columns, SumMethod), gs);
    SumOfAggregates(gs, aggs);
    GroupsConserveSum(frame.columns, rows);
    SumValuesPointwise(rows, frame.rows);
  }

  /** Rows whose values are the group sums add up to the sum of the sums. */
  lemma {:induction false} SumOfAggregates(gs: seq<seq<Row>>, aggs: seq<Row>)
    requires |aggs| == |gs|
    requires forall i :: 0 <= i < |gs| ==> aggs[i].rec.value == SumValues(gs[i])
    ensures SumValues(aggs) == SumOfSums(gs)
    decreases |gs|
  {
    if gs != [] {
      SumOfAggregates(gs[..|gs| - 1], aggs[..|aggs| - 1]);
    }
  }

  /** A level has one aggregated row per group, carrying that group's key. */
  lemma AggregatedOnePerGroup(frame: Frame, agg: AggMethod, cut: Option<int>)
    requires AggregatedRows(frame, agg, cut).Ok?
    ensures var ks := DistinctKeys(frame.columns, TruncateRows(frame.rows, cut));
      var aggs := AggregatedRows(frame, agg, cut).value;
      |aggs| == |ks| && forall i :: 0 <= i < |ks| ==> GroupKeyOf(frame.columns, aggs[i]) == ks[i]
  {
    var rows := TruncateRows(frame.rows, cut);
    var ks := DistinctKeys(frame.columns, rows);
    var gs := Groups(frame.columns, rows);
    var aggs := AggregatedRows(frame, agg, cut).value;
    MapResultsValues(GroupStep(frame.columns, agg), gs);
    forall i | 0 <= i < |ks|
      ensures GroupKeyOf(frame.columns, aggs[i]) == ks[i]
    {
      assert gs[i] != [];
      var c := gs[i][0];
      assert c in gs[i];
      AggregateGroupDescriptors(frame.columns, agg, gs[i]);
      assert SameDescriptors(frame.columns, c, aggs[i]);
    }
  }

  /** The regions whose code equals `code` (a missing code matches none). */
  function RegionsWithCode(regions: seq<Region>, code: Option<string>): (ms: seq<Region>)
    ensures forall m :: m in ms <==> m in regions && code == Some(m.regionCode)
    decreases |regions|
  {
    if regions == [] then []
    else
      assert regions == regions[..|regions| - 1] + [regions[|regions| - 1]];
      var init := RegionsWithCode(regions[..|regions| - 1], code);
      if code == Some(regions[|regions| - 1].regionCode) then init + [regions[|regions| - 1]] else init
  }

  /** The left merge of one aggregated row with the level's regions on
      `parent_region_code == region_code`: one record per matching region, or
      one without a region id when none matches. */
  function MergeRegion(a: Row, regions: seq<Region>): (out: seq<Record>)
    ensures RegionsWithCode(regions, a.parentRegionCode) == [] ==> out == [a.rec.(regionId := None)]
    ensures RegionsWithCode(regions, a.parentRegionCode) != [] ==>
      |out| == |RegionsWithCode(regions, a.parentRegionCode)| &&
      forall i :: 0 <= i < |out| ==>
        out[i] == a.rec.(regionId := Some(RegionsWithCode(regions, a.parentRegionCode)[i].id))
  {
    var ms := RegionsWithCode(regions, a.parentRegionCode);
    if ms == [] then [a.rec.(regionId := None)]
    else seq(|ms|, i requires 0 <= i < |ms| => a.rec.(regionId := Some(ms[i].id)))
  }

  /** `pd.merge(agg_df, regions_df, how="left")`, in the order of `agg_df`. */
  function MergeRegions(aggs: seq<Row>, regions: seq<Region>): seq<Record>
    decreases |aggs|
  {
    if aggs == [] then []
    else MergeRegions(aggs[..|aggs| - 1], regions) + MergeRegion(aggs[|aggs| - 1], regions)
  }

  /** When every aggregated code names exactly one region, the merge keeps
      the rows one for one and only attaches that region's id. */
  lemma {:induction false} MergeRegionsUnique(aggs: seq<Row>, regions: seq<Region>)
    requires forall i :: 0 <= i < |aggs| ==> |RegionsWithCode(regions, aggs[i].parentRegionCode)| == 1
    ensures |MergeRegions(aggs, regions)| == |aggs|
    ensures forall i :: 0 <= i < |aggs| ==>
      MergeRegions(aggs, regions)[i] == aggs[i].rec.(regionId := Some(RegionsWithCode(regions, aggs[i].parentRegionCode)[0].id))
    decreases |aggs|
  {
    if aggs != [] {
      var init := aggs[..|aggs| - 1];
      var last := aggs[|aggs| - 1];
      MergeRegionsUnique(init, regions);
      var front := MergeRegions(init, regions);
      var tail := MergeRegion(last, regions);
      assert |tail| == 1;
      var all := MergeRegions(aggs, regions);
      assert all == front + tail;
      forall i | 0 <= i < |aggs|
        ensures all[i] == aggs[i].rec.(regionId := Some(RegionsWithCode(regions, aggs[i].parentRegionCode)[0].id))
      {
        if i < |init| {
          assert all[i] == front[i] && aggs[i] == init[i];
        } else {
          assert i == |aggs| - 1;
          assert all[i] == tail[0];
        }
      }
    }
  }

  /** One pass of the level loop of `aggregate_and_add_to_db`: cut the parent
      codes of the untouched table, aggregate the groups and attach the ids of
      the level's regions. */
  function AggregateLevel(frame: Frame, agg: AggMethod, delDict: map<string, int>, regions: seq<Region>, level: string)
    : Result<seq<Record>>
  {
    var cut :- CutFor(level, delDict);
    var aggs :- AggregatedRows(frame, agg, cut);
    Ok(MergeRegions(aggs, GetRegions(regions, level, "all")))
  }

  // ---------------------------------------------------------------------------
  // Database writes
  // ---------------------------------------------------------------------------

  /** One call of `add_to_region_data` or `add_to_proxy_metrics`. */
  datatype Write =
    | RegionData(rows: seq<Record>)
    | ProxyMetrics(varDetailId: int, proxyVars: seq<string>)

  /** The writes a run made, in order, and the exception that ended it, if any. */
  datatype Log = Log(writes: seq<Write>, failure: Option<Error>)

  /** A run that stopped with `e` before writing anything. */
  function Failed(e: Error): Log {
    Log([], Some(e))
  }

  /** Running `a` and then, if `a` did not fail, `b`. */
  function Then(a: Log, b: Log): (log: Log)
    ensures a.failure.Some? ==> log == a
    ensures a.failure.None? ==> log.writes == a.writes + b.writes && log.failure == b.failure
  {
    if a.failure.Some? then a else Log(a.writes + b.writes, b.failure)
  }

  lemma ThenNothing(b: Log)
    ensures Then(Log([], None), b) == b
  {
    assert [] + b.writes == b.writes;
  }

  /** Writing `ws`, then `w`, then running `b` is writing `ws + [w]`, then running `b`. */
  lemma ThenAppend(ws: seq<Write>, w: Write, b: Log)
    ensures Then(Log(ws, None), Then(Log([w], None), b)) == Then(Log(ws + [w], None), b)
  {
    assert ws + ([w] + b.writes) == (ws + [w]) + b.writes;
  }

  /** A loop over `levels` that writes the batch `step` computes for each, and
      stops at the first exception. */
  function RunLevels(step: string -> Result<seq<Record>>, levels: seq<string>): (log: Log)
    ensures |log.writes| <= |levels|
    ensures log.failure.None? ==> |log.writes| == |levels|
    decreases |levels|
  {
    if levels == [] then Log([], None)
    else
      match step(levels[0])
      case Err(e) => Failed(e)
      case Ok(batch) => Then(Log([RegionData(batch)], None), RunLevels(step, levels[1..]))
  }

  /** The batches the level loop writes: the i-th write is the batch of the
      i-th level, and a failure is the exception of the first level that
      raised one. */
  lemma {:induction false} RunLevelsWrites(step: string -> Result<seq<Record>>, levels: seq<string>)
    ensures var log := RunLevels(step, levels);
      forall i :: 0 <= i < |log.writes| ==> step(levels[i]).Ok? && log.writes[i] == RegionData(step(levels[i]).value)
    ensures var log := RunLevels(step, levels);
      log.failure.Some? ==> |log.writes| < |levels| && step(levels[|log.writes|]) == Err(log.failure.value)
    decreases |levels|
  {
    if levels != [] && step(levels[0]).Ok? {
      RunLevelsWrites(step, levels[1..]);
    }
  }

  /** The pass of the level loop for a given table and aggregation method. */
  function LevelStep(frame: Frame, agg: AggMethod, delDict: map<string, int>, regions: seq<Region>)
    : string -> Result<seq<Record>>
  {
    level => AggregateLevel(frame, agg, delDict, regions, level)
  }

  /** The coarser levels, coarsest first. */
  const NutsLevels: seq<string> := ["NUTS0", "NUTS1", "NUTS2", "NUTS3"]

  /** `aggregate_and_add_to_db`, given the result of looking up the variable's
      aggregation method: every level is aggregated from the same table. */
  function AggregateAndAdd(frame: Frame, aggMethod: Result<Collapsed<SqlValue>>, delDict: map<string, int>, regions: seq<Region>)
    : Log
  {
    match aggMethod
    case Err(e) => Failed(e)
    case Ok(c) => RunLevels(LevelStep(frame, ParseAggMethod(c), delDict, regions), NutsLevels)
  }

  /** The aggregation writes nothing but `region_data` batches. */
  lemma AggregateAndAddWritesRegionData(frame: Frame, aggMethod: Result<Collapsed<SqlValue>>, delDict: map<string, int>, regions: seq<Region>)
    ensures forall w :: w in AggregateAndAdd(frame, aggMethod, delDict, regions).writes ==> w.RegionData?
  {
    if aggMethod.Ok? {
      RunLevelsWrites(LevelStep(frame, ParseAggMethod(aggMethod.value), delDict, regions), NutsLevels);
    }
  }

  /** The level loop: one batch per level, stopping at the first exception.
      Each pass starts from the table it was given, never from the previous
      level's result. */
  method AggregateAndAddToDb(frame: Frame, aggMethod: Result<Collapsed<SqlValue>>, delDict: map<string, int>, regions: seq<Region>)
    returns (log: Log)
    ensures log == AggregateAndAdd(frame, aggMethod, delDict, regions)
    ensures log.failure.None? ==> |log.writes| == |NutsLevels|
  {
    if aggMethod.Err? {
      return Failed(aggMethod.error);
    }
    var agg := ParseAggMethod(aggMethod.value);
    var step := LevelStep(frame, agg, delDict, regions);
    var writes: seq<Write> := [];
    assert NutsLevels[0..] == NutsLevels;
    ThenNothing(RunLevels(step, NutsLevels));
    for k := 0 to |NutsLevels|
      invariant RunLevels(step, NutsLevels) == Then(Log(writes, None), RunLevels(step, NutsLevels[k..]))
    {
      ghost var rest := NutsLevels[k..];
      assert rest[0] == NutsLevels[k] && rest[1..] == NutsLevels[k + 1..];
      var batch := step(NutsLevels[k]);
      if batch.Err? {
        assert RunLevels(step, rest) == Failed(batch.error);
        return Log(writes, Some(batch.error));
      }
      assert RunLevels(step, rest)
        == Then(Log([RegionData(batch.value)], None), RunLevels(step, NutsLevels[k + 1..]));
      ThenAppend(writes, RegionData(batch.value), RunLevels(step, NutsLevels[k + 1..]));
      writes := writes + [RegionData(batch.value)];
    }
    assert NutsLevels[|NutsLevels|..] == [];
    return Log(writes, None);
  }

  /** Each level cuts the original LAU parent codes by its own count, so a
      NUTS1 code is never cut again for NUTS0, and NUTS3 keeps them whole. */
  lemma LevelCutsDoNotCompound(frame: Frame, delDict: map<string, int>, level: string, i: nat)
    requires CutFor(level, delDict).Ok? && i < |frame.rows| && frame.rows[i].parentRegionCode.Some?
    ensures var p := frame.rows[i].parentRegionCode.value;
      TruncateRows(frame.rows, CutFor(level, delDict).value)[i].parentRegionCode
        == Some(if level == "NUTS3" then p else DropLast(p, delDict[level]))
  {
  }
}
