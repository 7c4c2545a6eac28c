/** Coverage, residual reconciliation and quality annotation of the
    `input_var_values` table (zoomin/data/comparison.py): observed LAU values
    are marked good, missing LAU regions are filled with 0 and marked bad,
    coarser values are mapped to the LAU regions under them, completed from
    coarser totals where values are missing, disaggregated with the population
    proxy and marked okay (or bad where still missing). The database is a value
    that every write updates, so that later reads see earlier writes. */
module Comparison {
  import opened Wrappers
  import opened Text
  import opened DbAccess
  import opened Calculations
  import Disaggregation

  // ---------------------------------------------------------------------------
  // The input_var_values store
  // ---------------------------------------------------------------------------

  /** The three rows of `input_var_qualities`. */
  datatype Quality = Good | Okay | Bad

  /** A row of `input_var_values`. */
  datatype VarValue = VarValue(
    id: int,
    regionId: int,
    varDetailId: int,
    year: int,
    climateModelDetailId: Option<int>,
    value: real,
    chosen: bool,
    quality: Option<Quality>,
    source: string)

  /** What this stage reads and writes: the regions table, `input_var_details`
      (as id and name), `input_var_values`, and the next free row id. */
  datatype Store = Store(regions: seq<Region>, varDetails: seq<VarDetail>, values: seq<VarValue>, nextId: int)

  /** A row this stage adds; it is always chosen and its source is "disaggregated data". */
  datatype NewValue = NewValue(
    regionId: int,
    value: real,
    quality: Quality,
    varDetailId: int,
    year: int,
    climateModelDetailId: Option<int>)

  /** A write to the store: `add_col_values` marking rows chosen with a
      quality, or `add_to_input_var_values`. */
  datatype Write = Annotate(valueIds: seq<int>, quality: Quality) | AddValues(rows: seq<NewValue>)

  const DisaggregatedSource: string := "disaggregated data"

  /** The state after a write. */
  function Apply(store: Store, w: Write): (next: Store)
    ensures next.regions == store.regions && next.varDetails == store.varDetails
    // `add_col_values`: the listed rows become chosen with the quality, the rest stay
    ensures w.Annotate? ==> next.nextId == store.nextId && |next.values| == |store.values|
    ensures w.Annotate? ==> forall i :: 0 <= i < |store.values| ==>
      next.values[i] == if store.values[i].id in w.valueIds
                        then store.values[i].(chosen := true, quality := Some(w.quality))
                        else store.values[i]
    // `add_to_input_var_values`: the old rows are kept and the new ones appended,
    // chosen, with their quality, the source "disaggregated data" and fresh ids
    ensures w.AddValues? ==> next.nextId == store.nextId + |w.rows|
    ensures w.AddValues? ==> |next.values| == |store.values| + |w.rows| && next.values[..|store.values|] == store.values
    ensures w.AddValues? ==> forall i :: 0 <= i < |w.rows| ==>
      var v := next.values[|store.values| + i];
      v.id == store.nextId + i && v.chosen && v.quality == Some(w.rows[i].quality) && v.source == DisaggregatedSource &&
      v.regionId == w.rows[i].regionId && v.value == w.rows[i].value && v.varDetailId == w.rows[i].varDetailId &&
      v.year == w.rows[i].year && v.climateModelDetailId == w.rows[i].climateModelDetailId
  {
    match w
    case Annotate(ids, q) =>
      store.(values := seq(|store.values|, i requires 0 <= i < |store.values| =>
        var v := store.values[i];
        if v.id in ids then v.(chosen := true, quality := Some(q)) else v))
    case AddValues(rows) =>
      var added := seq(|rows|, i requires 0 <= i < |rows| =>
        VarValue(store.nextId + i, rows[i].regionId, rows[i].varDetailId, rows[i].year,
                 rows[i].climateModelDetailId, rows[i].value, true, Some(rows[i].quality), DisaggregatedSource));
      store.(values := store.values + added, nextId := store.nextId + |rows|)
  }

  function ApplyAll(store: Store, ws: seq<Write>): (next: Store)
    ensures next.regions == store.regions && next.varDetails == store.varDetails
    decreases |ws|
  {
    if ws == [] then store else ApplyAll(Apply(store, ws[0]), ws[1..])
  }

  /** The entries satisfying `p`, in order. */
  function Filter<T(!new)>(xs: seq<T>, p: T -> bool): (ys: seq<T>)
    ensures |ys| <= |xs|
    ensures forall y :: y in ys <==> y in xs && p(y)
    decreases |xs|
  {
    if xs == [] then []
    else
      assert xs == xs[..|xs| - 1] + [xs[|xs| - 1]];
      var init := Filter(xs[..|xs| - 1], p);
      if p(xs[|xs| - 1]) then init + [xs[|xs| - 1]] else init
  }

  /** The filter keeps every selected entry as often as it occurs, as a
      boolean-mask selection does. */
  lemma {:induction false} FilterCount<T(!new)>(xs: seq<T>, p: T -> bool)
    ensures forall y :: multiset(Filter(xs, p))[y] == if p(y) then multiset(xs)[y] else 0
    decreases |xs|
  {
    if xs != [] {
      var init := xs[..|xs| - 1];
      FilterCount(init, p);
      assert xs == init + [xs[|xs| - 1]];
    }
  }

  function RegionIds(regions: seq<Region>): (ids: set<int>)
    ensures forall x :: x in ids <==> exists g :: g in regions && g.id == x
  {
    set g | g in regions :: g.id
  }

  /** `get_regions_and_data`: the regions of a level (for `country`) and the
      values stored at them, of one variable when `varId` is given. With no
      region the command ends in `IN ()`, which the database rejects. */
  function RegionsAndData(store: Store, resolution: string, varId: Option<int>, country: string)
    : (r: Result<(seq<Region>, seq<VarValue>)>)
    ensures r.Err? <==> GetRegions(store.regions, resolution, country) == []
    ensures r.Ok? ==> r.value.0 == GetRegions(store.regions, resolution, country)
    ensures r.Ok? ==> forall v :: v in r.value.1 <==>
              v in store.values && v.regionId in RegionIds(r.value.0) && (varId.Some? ==> v.varDetailId == varId.value)
  {
    var regions := GetRegions(store.regions, resolution, country);
    if regions == [] then Err(SqlError("syntax error at or near \")\""))
    else
      var ids := RegionIds(regions);
      Ok((regions, Filter(store.values, (v: VarValue) => v.regionId in ids && (varId.Some? ==> v.varDetailId == varId.value))))
  }

  // ---------------------------------------------------------------------------
  // `map_region_data_to_lau`
  // ---------------------------------------------------------------------------

  /** The parent code of an LAU region cut by `n` characters; the guard keeps
      the code whole for `n == 0`, where `[:-0]` would empty it. */
  function CurrentParent(g: Region, n: int): (c: string)
    ensures n == 0 ==> c == g.parentRegionCode
    ensures 0 < n <= |g.parentRegionCode| ==> c == g.parentRegionCode[..|g.parentRegionCode| - n]
  {
    if n != 0 then DropLast(g.parentRegionCode, n) else g.parentRegionCode
  }

  /** Why the guard is there: without it a NUTS3 mapping would compare the
      empty string with the NUTS3 codes. */
  lemma CutGuardNeeded(g: Region)
    requires g.parentRegionCode != []
    ensures CurrentParent(g, 0) == g.parentRegionCode
    ensures DropLast(g.parentRegionCode, 0) == [] != g.parentRegionCode
  {
  }

  /** The LAU regions under a coarse code. */
  function LauIdsUnder(laus: seq<Region>, n: int, code: string): (ids: set<int>)
    ensures forall x :: x in ids <==> exists g :: g in laus && CurrentParent(g, n) == code && g.id == x
  {
    set g | g in laus && CurrentParent(g, n) == code :: g.id
  }

  /** The codes of the coarse regions with at least one LAU region under them,
      each once, in order of first appearance (the non-NaN group keys). */
  function MappedCodes(regions: seq<Region>, laus: seq<Region>, n: int): (codes: seq<string>)
    ensures Distinct(codes)
    ensures forall c :: c in codes <==> (exists g :: g in regions && g.regionCode == c) && LauIdsUnder(laus, n, c) != {}
    decreases |regions|
  {
    if regions == [] then []
    else
      assert regions == regions[..|regions| - 1] + [regions[|regions| - 1]];
      var init := MappedCodes(regions[..|regions| - 1], laus, n);
      var c := regions[|regions| - 1].regionCode;
      if c in init || LauIdsUnder(laus, n, c) == {} then init else init + [c]
  }

  /** The first coarse region with a code: the `id_x` of its group. */
  function FirstWithCode(regions: seq<Region>, code: string): (g: Region)
    requires exists g :: g in regions && g.regionCode == code
    ensures g in regions && g.regionCode == code
  {
    if regions[0].regionCode == code then regions[0] else FirstWithCode(regions[1..], code)
  }

  /** A row of the mapping: a set of LAU ids and the value to spread over
      them, `None` where no value was observed. */
  datatype Mapping = Mapping(lauIds: set<int>, value: Option<real>)

  /** The test `region_id == regionId` of one stored value. */
  function AtRegion(regionId: int): VarValue -> bool {
    (v: VarValue) => v.regionId == regionId
  }

  /** The observed values of a region, in table order: one per stored row of
      the region, repeated values included. */
  function ObservedValues(values: seq<VarValue>, regionId: int): (vs: seq<real>)
    ensures forall x :: x in vs <==> exists v :: v in values && v.regionId == regionId && v.value == x
    decreases |values|
  {
    if values == [] then []
    else
      assert values == values[..|values| - 1] + [values[|values| - 1]];
      var init := ObservedValues(values[..|values| - 1], regionId);
      var v := values[|values| - 1];
      if v.regionId == regionId then init + [v.value] else init
  }

  /** The observed values are those of the region's stored rows, one per row
      and in table order, so repeated values are kept. */
  lemma {:induction false} ObservedValuesRows(values: seq<VarValue>, regionId: int)
    ensures |ObservedValues(values, regionId)| == |Filter(values, AtRegion(regionId))|
    ensures forall k :: 0 <= k < |ObservedValues(values, regionId)| ==>
      ObservedValues(values, regionId)[k] == Filter(values, AtRegion(regionId))[k].value
    decreases |values|
  {
    if values != [] {
      ObservedValuesRows(values[..|values| - 1], regionId);
    }
  }

  /** The left merge of one group with the values: a row per observed value,
      or one row with a missing value. */
  function MappingsOf(ids: set<int>, vs: seq<real>): (ms: seq<Mapping>)
    ensures ms != []
    ensures forall m :: m in ms ==> m.lauIds == ids
    ensures forall m :: m in ms ==> (m.value.None? <==> vs == [])
    ensures forall m :: m in ms && m.value.Some? ==> m.value.value in vs
    ensures vs != [] ==> |ms| == |vs| && forall k :: 0 <= k < |vs| ==> ms[k] == Mapping(ids, Some(vs[k]))
  {
    if vs == [] then [Mapping(ids, None)]
    else seq(|vs|, k requires 0 <= k < |vs| => Mapping(ids, Some(vs[k])))
  }

  function GroupMappings(regions: seq<Region>, values: seq<VarValue>, n: int, laus: seq<Region>, codes: seq<string>)
    : seq<seq<Mapping>>
    requires forall i :: 0 <= i < |codes| ==> exists g :: g in regions && g.regionCode == codes[i]
  {
    seq(|codes|, i requires 0 <= i < |codes| =>
      MappingsOf(LauIdsUnder(laus, n, codes[i]), ObservedValues(values, FirstWithCode(regions, codes[i]).id)))
  }

  /** `map_region_data_to_lau`: the LAU ids under each coarse region with the
      region's observed value. With no coarse region above any LAU region the
      grouped frame has no column to merge on. */
  function MapRegionDataToLau(regions: seq<Region>, values: seq<VarValue>, n: int, laus: seq<Region>)
    : (r: Result<seq<Mapping>>)
    ensures r.Err? <==> MappedCodes(regions, laus, n) == []
    ensures r.Err? ==> r.error.ValueError?
    ensures r.Ok? ==> r.value != []
  {
    var codes := MappedCodes(regions, laus, n);
    if codes == [] then Err(ValueError("No common columns to perform merge on"))
    else
      assert forall i :: 0 <= i < |codes| ==> codes[i] in codes;
      var blocks := GroupMappings(regions, values, n, laus, codes);
      assert blocks[|blocks| - 1] != [];
      Ok(Flatten(blocks))
  }

  /** Every mapping row holds exactly the LAU regions under one coarse region,
      and a value that region was observed with, or none when it has none. */
  lemma MapRegionDataToLauSound(regions: seq<Region>, values: seq<VarValue>, n: int, laus: seq<Region>, m: Mapping)
    requires MapRegionDataToLau(regions, values, n, laus).Ok? && m in MapRegionDataToLau(regions, values, n, laus).value
    ensures exists c :: (c in MappedCodes(regions, laus, n) && m.lauIds == LauIdsUnder(laus, n, c) && m.lauIds != {}
      && (m.value.None? <==> ObservedValues(values, FirstWithCode(regions, c).id) == [])
      && (m.value.Some? ==> m.value.value in ObservedValues(values, FirstWithCode(regions, c).id)))
  {
    var codes := MappedCodes(regions, laus, n);
    assert forall i :: 0 <= i < |codes| ==> codes[i] in codes;
    var blocks := GroupMappings(regions, values, n, laus, codes);
    FlattenMember(blocks, m);
    var i :| 0 <= i < |blocks| && m in blocks[i];
    assert codes[i] in codes;
  }

  /** Every coarse region with an LAU region under it is mapped. */
  lemma MapRegionDataToLauComplete(regions: seq<Region>, values: seq<VarValue>, n: int, laus: seq<Region>, g: Region)
    requires g in regions && LauIdsUnder(laus, n, g.regionCode) != {}
    ensures MapRegionDataToLau(regions, values, n, laus).Ok?
    ensures exists m :: m in MapRegionDataToLau(regions, values, n, laus).value && m.lauIds == LauIdsUnder(laus, n, g.regionCode)
  {
    var codes := MappedCodes(regions, laus, n);
    assert g.regionCode in codes;
    var i :| 0 <= i < |codes| && codes[i] == g.regionCode;
    assert forall i :: 0 <= i < |codes| ==> codes[i] in codes;
    var blocks := GroupMappings(regions, values, n, laus, codes);
    var m := blocks[i][0];
    assert m in blocks[i];
    FlattenMember(blocks, m);
  }

  // ---------------------------------------------------------------------------
  // `disaggregate_and_annotate_lau_data`
  // ---------------------------------------------------------------------------

  predicate Increasing(xs: seq<int>) {
    forall i, j :: 0 <= i < j < |xs| ==> xs[i] < xs[j]
  }

  /** `x` put into its place in an increasing sequence, unless it is there already. */
  function InsertSorted(xs: seq<int>, x: int): (ys: seq<int>)
    requires Increasing(xs)
    ensures Increasing(ys)
    ensures forall z :: z in ys <==> z in xs || z == x
    decreases |xs|
  {
    if xs == [] then [x]
    else if x < xs[0] then [x] + xs
    else if x == xs[0] then xs
    else
      var rest := InsertSorted(xs[1..], x);
      assert forall j :: 0 <= j < |rest| ==> rest[j] in xs[1..] || rest[j] == x;
      [xs[0]] + rest
  }

  /** Python's `sorted(set(xs))`. */
  function SortedIds(xs: seq<int>): (ys: seq<int>)
    ensures Increasing(ys)
    ensures forall z :: z in ys <==> z in xs
    decreases |xs|
  {
    if xs == [] then []
    else
      assert xs == xs[..|xs| - 1] + [xs[|xs| - 1]];
      InsertSorted(SortedIds(xs[..|xs| - 1]), xs[|xs| - 1])
  }

  /** The ids of the regions without an observation, in region order. */
  function MissingIds(regions: seq<Region>, observed: set<int>): (ids: seq<int>)
    ensures forall x :: x in ids <==> x in RegionIds(regions) && x !in observed
    decreases |regions|
  {
    if regions == [] then []
    else
      assert regions == regions[..|regions| - 1] + [regions[|regions| - 1]];
      var init := MissingIds(regions[..|regions| - 1], observed);
      var g := regions[|regions| - 1];
      if g.id in observed then init else init + [g.id]
  }

  /** The `var_name` column fetched for an id. */
  function NamesOf(details: seq<VarDetail>, id: int): (names: seq<string>)
    ensures forall x :: x in names <==> exists d :: d in details && d.id == id && d.varName == x
    decreases |details|
  {
    if details == [] then []
    else (if details[0].id == id then [details[0].varName] else []) + NamesOf(details[1..], id)
  }

  function ValueIds(vs: seq<VarValue>): (ids: seq<int>)
    ensures |ids| == |vs| && forall i :: 0 <= i < |vs| ==> ids[i] == vs[i].id
  {
    seq(|vs|, i requires 0 <= i < |vs| => vs[i].id)
  }

  function ObservedRegionIds(vs: seq<VarValue>): (ids: set<int>)
    ensures forall x :: x in ids <==> exists v :: v in vs && v.regionId == x
  {
    set v | v in vs :: v.regionId
  }

  /** The fill rows for missing regions: value 0, quality bad, and the year
      and climate model of the first observed row. */
  function FillRows(ids: seq<int>, varId: int, first: VarValue): (rows: seq<NewValue>)
    ensures |rows| == |ids|
    ensures forall i :: 0 <= i < |ids| ==>
              rows[i] == NewValue(ids[i], 0.0, Bad, varId, first.year, first.climateModelDetailId)
  {
    seq(|ids|, i requires 0 <= i < |ids| => NewValue(ids[i], 0.0, Bad, varId, first.year, first.climateModelDetailId))
  }

  /** The writes of the LAU stage for a variable with rows: mark exactly the
      observed rows chosen and good, then fill exactly the regions without an
      observation, in increasing id order, with bad zeros carrying the first
      row's year and climate model. */
  function LauWrites(varId: int, observed: seq<VarValue>, regions: seq<Region>): (ws: seq<Write>)
    requires observed != []
    ensures 1 <= |ws| <= 2 && ws[0] == Annotate(ValueIds(observed), Good)
    ensures |ws| == 1 <==> RegionIds(regions) <= ObservedRegionIds(observed)
    ensures |ws| == 2 ==> ws[1].AddValues? && Increasing(RegionIdsOf(ws[1].rows))
    ensures |ws| == 2 ==>
              forall x :: x in RegionIdsOf(ws[1].rows) <==> x in RegionIds(regions) && x !in ObservedRegionIds(observed)
    ensures |ws| == 2 ==> forall r :: r in ws[1].rows ==>
              r == NewValue(r.regionId, 0.0, Bad, varId, observed[0].year, observed[0].climateModelDetailId)
  {
    var missing := SortedIds(MissingIds(regions, ObservedRegionIds(observed)));
    var annotate := Annotate(ValueIds(observed), Good);
    if missing == [] then
      assert forall x :: x in RegionIds(regions) ==> x in ObservedRegionIds(observed) by {
        forall x | x in RegionIds(regions) ensures x in ObservedRegionIds(observed) {
          assert x !in MissingIds(regions, ObservedRegionIds(observed));
        }
      }
      [annotate]
    else
      var rows := FillRows(missing, varId, observed[0]);
      assert RegionIdsOf(rows) == missing;
      assert missing[0] in RegionIds(regions) && missing[0] !in ObservedRegionIds(observed);
      [annotate, AddValues(rows)]
  }

  /** `disaggregate_and_annotate_lau_data`: population is left alone; any
      other variable fails exactly when it has no row, while the id criterion
      is rendered, and otherwise writes `LauWrites`. */
  function LauStage(store: Store, varId: int, observed: seq<VarValue>, regions: seq<Region>): (r: Result<seq<Write>>)
    ensures CollapseResult(NamesOf(store.varDetails, varId)) == Ok(Single("population")) ==> r == Ok([])
    ensures CollapseResult(NamesOf(store.varDetails, varId)).Ok? && CollapseResult(NamesOf(store.varDetails, varId)) != Ok(Single("population")) ==>
              (r.Err? <==> observed == []) && (r.Ok? ==> r.value == LauWrites(varId, observed, regions))
  {
    var name :- CollapseResult(NamesOf(store.varDetails, varId));
    if name == Single("population") then Ok([])
    else
      var criterion :- InItem("id", SqlTuple(ValueIds(observed)));
      Ok(LauWrites(varId, observed, regions))
  }

  function RegionIdsOf(rows: seq<NewValue>): (ids: seq<int>)
    ensures |ids| == |rows| && forall i :: 0 <= i < |rows| ==> ids[i] == rows[i].regionId
  {
    seq(|rows|, i requires 0 <= i < |rows| => rows[i].regionId)
  }

  // ---------------------------------------------------------------------------
  // The residual search of `disaggregate_and_annotate_nuts_data`
  // ---------------------------------------------------------------------------

  predicate AnyMissing(ms: seq<Mapping>) {
    exists i :: 0 <= i < |ms| && ms[i].value.None?
  }

  function ValueOrZero(m: Mapping): real {
    match m.value
    case None => 0.0
    case Some(v) => v
  }

  /** `np.nansum` of the values. */
  function KnownTotal(ms: seq<Mapping>): real
    decreases |ms|
  {
    if ms == [] then 0.0 else KnownTotal(ms[..|ms| - 1]) + ValueOrZero(ms[|ms| - 1])
  }

  /** Every LAU id in the table. */
  function Covered(ms: seq<Mapping>): set<int>
    decreases |ms|
  {
    if ms == [] then {} else Covered(ms[..|ms| - 1]) + ms[|ms| - 1].lauIds
  }

  lemma KnownTotalSnoc(ms: seq<Mapping>, m: Mapping)
    ensures KnownTotal(ms + [m]) == KnownTotal(ms) + ValueOrZero(m)
    ensures Covered(ms + [m]) == Covered(ms) + m.lauIds
  {
    assert (ms + [m])[..|ms|] == ms;
  }

  /** A row still missing a value whose LAU set lies within `lower`. */
  predicate Unresolved(lower: set<int>, m: Mapping) {
    m.value.None? && m.lauIds <= lower
  }

  /** `na_regions_df` as intended: the missing rows inside the upper region. */
  function NaRows(ms: seq<Mapping>, lower: set<int>): seq<Mapping> {
    Filter(ms, (m: Mapping) => Unresolved(lower, m))
  }

  /** `na_regions_df` as written: `series is True` compares a Series object
      with `True`, which is False, so the mask is `isna() & False`. */
  function NaRowsAsWritten(ms: seq<Mapping>, lower: set<int>): seq<Mapping> {
    Filter(ms, (m: Mapping) => m.value.None? && false)
  }

  lemma {:induction false} FilterNone<T(!new)>(xs: seq<T>, p: T -> bool)
    requires forall x :: x in xs ==> !p(x)
    ensures Filter(xs, p) == []
    decreases |xs|
  {
    if xs != [] {
      var init := xs[..|xs| - 1];
      assert forall x :: x in init ==> x in xs;
      FilterNone(init, p);
      assert xs[|xs| - 1] in xs;
    }
  }

  /** The discrepancy: the selection as written is empty for every table, so
      the residual merge never runs, while the intended one selects a missing
      row inside the upper region. */
  lemma NaRowsAsWrittenIsEmpty(ms: seq<Mapping>, lower: set<int>)
    ensures NaRowsAsWritten(ms, lower) == []
    ensures NaRows([Mapping({1}, None)], {1, 2}) == [Mapping({1}, None)]
  {
    FilterNone(ms, (m: Mapping) => m.value.None? && false);
    assert [Mapping({1}, None)][..0] == [];
  }

  /** The rows the merge keeps. */
  function Resolved(ms: seq<Mapping>, lower: set<int>): seq<Mapping> {
    Filter(ms, (m: Mapping) => !Unresolved(lower, m))
  }

  /** `group["value"] - np.nansum(...)`; a missing upper value stays missing. */
  function Residual(upper: Option<real>, known: real): Option<real> {
    match upper
    case None => None
    case Some(v) => Some(v - known)
  }

  /** One residual merge: the missing rows inside the upper region are
      replaced by one row holding their union and the upper value less every
      known value of the table. */
  function Merge(ms: seq<Mapping>, upper: Mapping): seq<Mapping> {
    var na := NaRows(ms, upper.lauIds);
    Resolved(ms, upper.lauIds) + [Mapping(Covered(na), Residual(upper.value, KnownTotal(ms)))]
  }

  /** Removing the last row of a table removes it from exactly one of the two parts. */
  lemma SplitLast(ms: seq<Mapping>, lower: set<int>)
    requires ms != []
    ensures var init, m := ms[..|ms| - 1], ms[|ms| - 1];
      if Unresolved(lower, m)
      then Resolved(ms, lower) == Resolved(init, lower) && NaRows(ms, lower) == NaRows(init, lower) + [m]
      else Resolved(ms, lower) == Resolved(init, lower) + [m] && NaRows(ms, lower) == NaRows(init, lower)
  {
  }

  lemma {:induction false} SplitParts(ms: seq<Mapping>, lower: set<int>)
    ensures Covered(Resolved(ms, lower)) + Covered(NaRows(ms, lower)) == Covered(ms)
    ensures Covered(NaRows(ms, lower)) <= lower
    ensures KnownTotal(Resolved(ms, lower)) == KnownTotal(ms)
    decreases |ms|
  {
    if ms != [] {
      var init := ms[..|ms| - 1];
      var m := ms[|ms| - 1];
      SplitParts(init, lower);
      SplitLast(ms, lower);
      KnownTotalSnoc(init, m);
      assert ms == init + [m];
      if Unresolved(lower, m) {
        KnownTotalSnoc(NaRows(init, lower), m);
      } else {
        KnownTotalSnoc(Resolved(init, lower), m);
      }
    }
  }

  /** The covered set holds the set of every row. */
  lemma {:induction false} CoveredMember(ms: seq<Mapping>)
    ensures forall m :: m in ms ==> m.lauIds <= Covered(ms)
    decreases |ms|
  {
    if ms != [] {
      CoveredMember(ms[..|ms| - 1]);
      assert ms == ms[..|ms| - 1] + [ms[|ms| - 1]];
    }
  }

  /** A merge loses no LAU region, puts the unresolved ones under the upper
      region, and, when the upper value is known, makes the known values add
      up to it. */
  lemma MergeProperties(ms: seq<Mapping>, upper: Mapping)
    ensures Covered(Merge(ms, upper)) == Covered(ms)
    ensures Merge(ms, upper)[|Merge(ms, upper)| - 1].lauIds <= upper.lauIds
    ensures upper.value.Some? ==> KnownTotal(Merge(ms, upper)) == upper.value.value
    ensures forall m :: m in Merge(ms, upper) ==> m in ms || m == Merge(ms, upper)[|Merge(ms, upper)| - 1]
    // the resolved rows are kept in order, and no unresolved row is among them
    ensures Merge(ms, upper)[..|Merge(ms, upper)| - 1] == Resolved(ms, upper.lauIds)
    ensures forall m :: m in Resolved(ms, upper.lauIds) ==> m in ms && !Unresolved(upper.lauIds, m)
    // every unresolved row is absorbed into the one new row, whose set is their union
    ensures Merge(ms, upper)[|Merge(ms, upper)| - 1].lauIds == Covered(NaRows(ms, upper.lauIds))
    ensures forall m :: m in ms && Unresolved(upper.lauIds, m) ==>
      m !in Resolved(ms, upper.lauIds) && m.lauIds <= Merge(ms, upper)[|Merge(ms, upper)| - 1].lauIds
  {
    var na := NaRows(ms, upper.lauIds);
    CoveredMember(na);
    SplitParts(ms, upper.lauIds);
    KnownTotalSnoc(Resolved(ms, upper.lauIds), Mapping(Covered(na), Residual(upper.value, KnownTotal(ms))));
  }

  /** The worked case: a parent total of 200 over two LAU sets, one observed
      at 80, leaves 120 for the other. */
  lemma MergeExample()
    ensures Merge([Mapping({1}, Some(80.0)), Mapping({2}, None)], Mapping({1, 2}, Some(200.0)))
            == [Mapping({1}, Some(80.0)), Mapping({2}, Some(120.0))]
  {
    var ms := [Mapping({1}, Some(80.0)), Mapping({2}, None)];
    assert ms[..1] == [Mapping({1}, Some(80.0))];
    assert ms[..1][..0] == [];
    assert KnownTotal(ms) == 80.0;
    assert NaRows(ms, {1, 2}) == [Mapping({2}, None)];
    assert Resolved(ms, {1, 2}) == [Mapping({1}, Some(80.0))];
    assert Covered([Mapping({2}, None)]) == {2};
  }

  /** The inner loop over the upper regions, from the `k`-th: merge where
      something is unresolved, and stop (`true`) once nothing is missing. */
  function GroupsFrom(ms: seq<Mapping>, ups: seq<Mapping>, k: nat): (r: (seq<Mapping>, bool))
    ensures r.1 ==> !AnyMissing(r.0)
    decreases |ups| - k
  {
    if k >= |ups| then (ms, false)
    else if NaRows(ms, ups[k].lauIds) == [] then GroupsFrom(ms, ups, k + 1)
    else
      var next := Merge(ms, ups[k]);
      if !AnyMissing(next) then (next, true) else GroupsFrom(next, ups, k + 1)
  }

  lemma {:induction false} GroupsFromCovered(ms: seq<Mapping>, ups: seq<Mapping>, k: nat)
    ensures Covered(GroupsFrom(ms, ups, k).0) == Covered(ms)
    decreases |ups| - k
  {
    if k < |ups| {
      if NaRows(ms, ups[k].lauIds) == [] {
        GroupsFromCovered(ms, ups, k + 1);
      } else {
        MergeProperties(ms, ups[k]);
        GroupsFromCovered(Merge(ms, ups[k]), ups, k + 1);
      }
    }
  }

  /** The outer loop over the coarser levels `j .. len(hierarchy[:-1]) - 1`:
      each level with data for the variable is mapped to LAU and its regions
      tried in turn, until nothing is missing. */
  function ResidualFrom(store: Store, hierarchy: seq<string>, varId: int, laus: seq<Region>, country: string,
                        ms: seq<Mapping>, j: nat): Result<seq<Mapping>>
    decreases |hierarchy| - j
  {
    if j + 1 >= |hierarchy| then Ok(ms)
    else
      var fetched :- RegionsAndData(store, hierarchy[j], Some(varId), country);
      if fetched.1 == [] then ResidualFrom(store, hierarchy, varId, laus, country, ms, j + 1)
      else
        var ups :- MapRegionDataToLau(fetched.0, fetched.1, j - 1, laus);
        var grouped := GroupsFrom(ms, ups, 0);
        if grouped.1 then Ok(grouped.0) else ResidualFrom(store, hierarchy, varId, laus, country, grouped.0, j + 1)
  }

  /** The search never loses an LAU region. */
  lemma {:induction false} ResidualFromCovered(store: Store, hierarchy: seq<string>, varId: int, laus: seq<Region>,
                                               country: string, ms: seq<Mapping>, j: nat)
    requires ResidualFrom(store, hierarchy, varId, laus, country, ms, j).Ok?
    ensures Covered(ResidualFrom(store, hierarchy, varId, laus, country, ms, j).value) == Covered(ms)
    decreases |hierarchy| - j
  {
    if j + 1 < |hierarchy| {
      var fetched := RegionsAndData(store, hierarchy[j], Some(varId), country).value;
      if fetched.1 == [] {
        ResidualFromCovered(store, hierarchy, varId, laus, country, ms, j + 1);
      } else {
        var ups := MapRegionDataToLau(fetched.0, fetched.1, j - 1, laus).value;
        GroupsFromCovered(ms, ups, 0);
        var grouped := GroupsFrom(ms, ups, 0);
        if !grouped.1 {
          ResidualFromCovered(store, hierarchy, varId, laus, country, grouped.0, j + 1);
        }
      }
    }
  }

  /** The search as written: the first upper region visited reads
      `group["lau_region_ids"].values`, and a Python set has no `values`. */
  function ResidualFromAsWritten(store: Store, hierarchy: seq<string>, varId: int, laus: seq<Region>, country: string,
                                 ms: seq<Mapping>, j: nat): Result<seq<Mapping>>
    decreases |hierarchy| - j
  {
    if j + 1 >= |hierarchy| then Ok(ms)
    else
      var fetched :- RegionsAndData(store, hierarchy[j], Some(varId), country);
      if fetched.1 == [] then ResidualFromAsWritten(store, hierarchy, varId, laus, country, ms, j + 1)
      else
        var ups :- MapRegionDataToLau(fetched.0, fetched.1, j - 1, laus);
        Err(AttributeError)
  }

  /** The discrepancy: as written the search never fills a value; it either
      leaves the table as it was or fails at the first coarser level that has
      data, where the intended search merges. */
  lemma {:induction false} ResidualAsWrittenNeverFills(store: Store, hierarchy: seq<string>, varId: int, laus: seq<Region>,
                                                       country: string, ms: seq<Mapping>, j: nat)
    ensures ResidualFromAsWritten(store, hierarchy, varId, laus, country, ms, j).Ok? ==>
              ResidualFromAsWritten(store, hierarchy, varId, laus, country, ms, j).value == ms
    ensures j + 1 < |hierarchy| && RegionsAndData(store, hierarchy[j], Some(varId), country).Ok? &&
            RegionsAndData(store, hierarchy[j], Some(varId), country).value.1 != [] &&
            MappedCodes(GetRegions(store.regions, hierarchy[j], country), laus, j - 1) != [] ==>
              ResidualFromAsWritten(store, hierarchy, varId, laus, country, ms, j) == Err(AttributeError)
    decreases |hierarchy| - j
  {
    if j + 1 < |hierarchy| {
      ResidualAsWrittenNeverFills(store, hierarchy, varId, laus, country, ms, j + 1);
    }
  }

  /** The inner loop over the regions of one coarser level: merge where
      something is unresolved, and stop once nothing is missing. */
  method MergeLevel(mapped: seq<Mapping>, ups: seq<Mapping>) returns (ms: seq<Mapping>, done: bool)
    ensures (ms, done) == GroupsFrom(mapped, ups, 0)
  {
    ms := mapped;
    var k := 0;
    while k < |ups|
      invariant k <= |ups|
      invariant GroupsFrom(mapped, ups, 0) == GroupsFrom(ms, ups, k)
      decreases |ups| - k
    {
      if |NaRows(ms, ups[k].lauIds)| != 0 {
        ms := Merge(ms, ups[k]);
        if !AnyMissing(ms) {
          return ms, true;
        }
      }
      k := k + 1;
    }
    return ms, false;
  }

  /** The residual search with its nested loops: a merge that leaves nothing
      missing ends both loops. */
  method ResidualSearch(store: Store, hierarchy: seq<string>, varId: int, laus: seq<Region>, country: string,
                        mapped: seq<Mapping>, start: nat) returns (r: Result<seq<Mapping>>)
    ensures r == ResidualFrom(store, hierarchy, varId, laus, country, mapped, start)
  {
    var ms := mapped;
    var j := start;
    while j + 1 < |hierarchy|
      invariant ResidualFrom(store, hierarchy, varId, laus, country, mapped, start)
                == ResidualFrom(store, hierarchy, varId, laus, country, ms, j)
      decreases |hierarchy| - j
    {
      var fetched := RegionsAndData(store, hierarchy[j], Some(varId), country);
      if fetched.Err? {
        return Err(fetched.error);
      }
      if |fetched.value.1| != 0 {
        var ups := MapRegionDataToLau(fetched.value.0, fetched.value.1, j - 1, laus);
        if ups.Err? {
          return Err(ups.error);
        }
        var done;
        ms, done := MergeLevel(ms, ups.value);
        if done {
          return Ok(ms);
        }
      }
      j := j + 1;
    }
    return Ok(ms);
  }

  // ---------------------------------------------------------------------------
  // Disaggregation of the mapping with the population proxy
  // ---------------------------------------------------------------------------

  /** A value disaggregated to one LAU region; `None` where the mapped value
      was missing (NaN times a share stays NaN). */
  datatype Share = Share(regionId: int, value: Option<real>)

  function ShareValue(s: Share): real {
    match s.value
    case None => 0.0
    case Some(v) => v
  }

  /** `np.nansum` of the shares. */
  function ShareTotal(ss: seq<Share>): real
    decreases |ss|
  {
    if ss == [] then 0.0 else ShareValue(ss[0]) + ShareTotal(ss[1..])
  }

  lemma {:induction false} ShareTotalAppend(a: seq<Share>, b: seq<Share>)
    ensures ShareTotal(a + b) == ShareTotal(a) + ShareTotal(b)
    decreases |a|
  {
    if a == [] {
      assert a + b == b;
    } else {
      assert (a + b)[1..] == a[1..] + b;
      ShareTotalAppend(a[1..], b);
    }
  }

  /** The disaggregated proxy rows as shares; they keep the proxy's total. */
  function SharesOf(rows: seq<ProxyRow>): (ss: seq<Share>)
    ensures |ss| == |rows| && forall i :: 0 <= i < |rows| ==> ss[i] == Share(rows[i].regionId, Some(rows[i].value))
    ensures ShareTotal(ss) == Disaggregation.Total(rows)
    decreases |rows|
  {
    if rows == [] then [] else [Share(rows[0].regionId, Some(rows[0].value))] + SharesOf(rows[1..])
  }

  /** Missing shares for every proxy row; they add nothing to the total. */
  function MissingShares(rows: seq<ProxyRow>): (ss: seq<Share>)
    ensures |ss| == |rows| && forall i :: 0 <= i < |rows| ==> ss[i] == Share(rows[i].regionId, None)
    ensures ShareTotal(ss) == 0.0
    decreases |rows|
  {
    if rows == [] then [] else [Share(rows[0].regionId, None)] + MissingShares(rows[1..])
  }

  /** `proxy_df[proxy_df["id"].isin(ids)]`. */
  function ProxyIn(proxy: seq<ProxyRow>, ids: set<int>): seq<ProxyRow> {
    Filter(proxy, (p: ProxyRow) => p.regionId in ids)
  }

  /** One row of the mapping spread over the proxy rows of its LAU regions:
      with none, `disaggregate_value` divides by zero; a missing value gives
      missing shares; a known value is conserved. */
  function DisaggregateMapping(proxy: seq<ProxyRow>, m: Mapping): (r: Result<seq<Share>>)
    ensures r.Err? <==> ProxyIn(proxy, m.lauIds) == []
    ensures r.Err? ==> r.error == ZeroDivisionError
    ensures r.Ok? ==> |r.value| == |ProxyIn(proxy, m.lauIds)| && forall i :: 0 <= i < |r.value| ==>
              r.value[i].regionId == ProxyIn(proxy, m.lauIds)[i].regionId && (r.value[i].value.None? <==> m.value.None?)
    ensures r.Ok? ==> ShareTotal(r.value) == ValueOrZero(m)
    // a known value gives each proxy row the share `disaggregate_value` computes for it
    ensures r.Ok? && m.value.Some? ==> forall i :: 0 <= i < |r.value| ==>
      r.value[i].value == Some(Disaggregation.DisaggregateValue(m.value.value, ProxyIn(proxy, m.lauIds)).value.rows[i].value)
  {
    var sub := ProxyIn(proxy, m.lauIds);
    match m.value
    case None => if sub == [] then Err(ZeroDivisionError) else Ok(MissingShares(sub))
    case Some(v) =>
      var d :- Disaggregation.DisaggregateValue(v, sub);
      Disaggregation.Conservation(v, sub);
      Ok(SharesOf(d.rows))
  }

  function MappingStep(proxy: seq<ProxyRow>): Mapping -> Result<seq<Share>> {
    (m: Mapping) => DisaggregateMapping(proxy, m)
  }

  /** The loop over the mapping rows and the `concat` of their results. */
  function DisaggregatedMappings(ms: seq<Mapping>, proxy: seq<ProxyRow>): Result<seq<Share>> {
    var pieces :- MapResults(MappingStep(proxy), ms);
    Ok(Flatten(pieces))
  }

  /** Disaggregation over the whole table adds up to its known total. */
  lemma {:induction false} DisaggregatedMappingsConserve(ms: seq<Mapping>, proxy: seq<ProxyRow>)
    requires DisaggregatedMappings(ms, proxy).Ok?
    ensures ShareTotal(DisaggregatedMappings(ms, proxy).value) == KnownTotal(ms)
    decreases |ms|
  {
    if ms != [] {
      var f := MappingStep(proxy);
      var init := ms[..|ms| - 1];
      var pieces := MapResults(f, init).value;
      var last := f(ms[|ms| - 1]).value;
      assert MapResults(f, ms).value == pieces + [last];
      DisaggregatedMappingsConserve(init, proxy);
      assert (pieces + [last])[..|pieces|] == pieces;
      ShareTotalAppend(Flatten(pieces), last);
    }
  }

  /** Every share lies at a proxy row of one of the mapping's LAU sets, and is
      missing exactly when that row's value is. */
  lemma DisaggregatedMappingsSound(ms: seq<Mapping>, proxy: seq<ProxyRow>, s: Share)
    requires DisaggregatedMappings(ms, proxy).Ok? && s in DisaggregatedMappings(ms, proxy).value
    ensures exists p, m :: (p in proxy && m in ms && p.regionId == s.regionId && s.regionId in m.lauIds
                            && (s.value.None? <==> m.value.None?))
  {
    var pieces := MapResults(MappingStep(proxy), ms).value;
    MapResultsValues(MappingStep(proxy), ms);
    FlattenMember(pieces, s);
    var i :| 0 <= i < |pieces| && s in pieces[i];
    var k :| 0 <= k < |pieces[i]| && pieces[i][k] == s;
    var sub := ProxyIn(proxy, ms[i].lauIds);
    assert sub[k] in sub;
    assert ms[i] in ms;
  }

  method DisaggregateMappings(ms: seq<Mapping>, proxy: seq<ProxyRow>) returns (r: Result<seq<Share>>)
    ensures r == DisaggregatedMappings(ms, proxy)
  {
    var f := MappingStep(proxy);
    var all: seq<Share> := [];
    ghost var pieces: seq<seq<Share>> := [];
    for i := 0 to |ms|
      invariant MapResults(f, ms[..i]) == Ok(pieces)
      invariant all == Flatten(pieces)
    {
      var piece := DisaggregateMapping(proxy, ms[i]);
      if piece.Err? {
        MapResultsFirstError(f, ms, i);
        return Err(piece.error);
      }
      assert ms[..i + 1][..i] == ms[..i];
      all := all + piece.value;
      pieces := pieces + [piece.value];
      assert pieces[..|pieces| - 1] == pieces[..i];
    }
    assert ms[..|ms|] == ms;
    return Ok(all);
  }

  // ---------------------------------------------------------------------------
  // Quality labels and the NUTS stage
  // ---------------------------------------------------------------------------

  function RowTotal(rows: seq<NewValue>): real
    decreases |rows|
  {
    if rows == [] then 0.0 else rows[0].value + RowTotal(rows[1..])
  }

  /** The rows to add: a missing share becomes a bad zero and every other share
      an okay value; each carries the variable and the first observed row's
      year and climate model. No row is good, and the values keep the total
      of the shares. */
  function Labelled(ss: seq<Share>, varId: int, first: VarValue): (rows: seq<NewValue>)
    ensures |rows| == |ss|
    ensures forall i :: 0 <= i < |ss| ==>
              rows[i].regionId == ss[i].regionId && rows[i].varDetailId == varId && rows[i].year == first.year
              && rows[i].climateModelDetailId == first.climateModelDetailId
              && rows[i].quality != Good && (rows[i].quality == Bad <==> ss[i].value.None?)
              && rows[i].value == ShareValue(ss[i])
    ensures RowTotal(rows) == ShareTotal(ss)
    decreases |ss|
  {
    if ss == [] then []
    else
      var q := if ss[0].value.None? then Bad else Okay;
      [NewValue(ss[0].regionId, ShareValue(ss[0]), q, varId, first.year, first.climateModelDetailId)]
        + Labelled(ss[1..], varId, first)
  }

  /** The GHSL rows of the population variable, with the columns the proxy keeps. */
  function GhslValues(values: seq<VarValue>, popId: int): (rvs: seq<RegionValue>)
    ensures forall rv :: rv in rvs <==> exists v :: (v in values && v.varDetailId == popId && v.source == "GHSL"
                                                     && rv == RegionValue(popId, v.regionId, v.value))
    decreases |values|
  {
    if values == [] then []
    else
      assert values == values[..|values| - 1] + [values[|values| - 1]];
      var init := GhslValues(values[..|values| - 1], popId);
      var v := values[|values| - 1];
      if IsGhsl(popId)(v) then init + [RegionValue(popId, v.regionId, v.value)] else init
  }

  function IsGhsl(popId: int): VarValue -> bool {
    (v: VarValue) => v.varDetailId == popId && v.source == "GHSL"
  }

  /** One proxy value per GHSL population row, in table order, so repeated
      rows are kept. */
  lemma {:induction false} GhslValuesRows(values: seq<VarValue>, popId: int)
    ensures |GhslValues(values, popId)| == |Filter(values, IsGhsl(popId))|
    ensures forall k :: 0 <= k < |GhslValues(values, popId)| ==>
      GhslValues(values, popId)[k] == RegionValue(popId, Filter(values, IsGhsl(popId))[k].regionId,
                                                  Filter(values, IsGhsl(popId))[k].value)
    decreases |values|
  {
    if values != [] {
      GhslValuesRows(values[..|values| - 1], popId);
    }
  }

  /** `get_proxy_data`: the GHSL population values joined with the LAU
      regions; it fails exactly when the population variable has no single id. */
  function ProxyData(store: Store, laus: seq<Region>): (r: Result<seq<ProxyRow>>)
    ensures r.Ok? <==> PrimaryKey(IdsNamed(store.varDetails, "population")).Ok?
    ensures r.Ok? ==> forall p :: p in r.value ==> p.regionId in RegionIds(laus)
  {
    var popId :- PrimaryKey(IdsNamed(store.varDetails, "population"));
    Ok(JoinRegions(GhslValues(store.values, popId), popId, laus))
  }

  /** The proxy rows are exactly the GHSL population values at LAU regions. */
  lemma ProxyDataRows(store: Store, laus: seq<Region>, p: ProxyRow)
    requires ProxyData(store, laus).Ok?
    ensures p in ProxyData(store, laus).value <==>
              exists v, g :: (v in store.values && g in laus
                && v.varDetailId == PrimaryKey(IdsNamed(store.varDetails, "population")).value
                && v.source == "GHSL" && v.regionId == g.id
                && p == ProxyRow(v.regionId, g.regionCode, g.parentRegionCode, v.value))
  {
    var popId := PrimaryKey(IdsNamed(store.varDetails, "population")).value;
    var rvs := GhslValues(store.values, popId);
    if p in ProxyData(store, laus).value {
      var rv, g :| rv in rvs && g in laus && rv.varDetailId == popId && rv.regionId == g.id
                   && p == ProxyRow(rv.regionId, g.regionCode, g.parentRegionCode, rv.value);
      var v :| v in store.values && v.varDetailId == popId && v.source == "GHSL" && rv == RegionValue(popId, v.regionId, v.value);
    }
    if exists v, g :: (v in store.values && g in laus && v.varDetailId == popId && v.source == "GHSL" && v.regionId == g.id
                       && p == ProxyRow(v.regionId, g.regionCode, g.parentRegionCode, v.value)) {
      var v, g :| v in store.values && g in laus && v.varDetailId == popId && v.source == "GHSL" && v.regionId == g.id
                  && p == ProxyRow(v.regionId, g.regionCode, g.parentRegionCode, v.value);
      assert RegionValue(popId, v.regionId, v.value) in rvs;
    }
  }

  /** The proxy holds one row per pair of a GHSL population value and a LAU
      region with its id, so repeated values stay repeated. */
  lemma ProxyDataCount(store: Store, laus: seq<Region>, p: ProxyRow)
    requires ProxyData(store, laus).Ok?
    ensures var popId := PrimaryKey(IdsNamed(store.varDetails, "population")).value;
            multiset(ProxyData(store, laus).value)[p] == PairCount(GhslValues(store.values, popId), popId, laus, p)
    ensures var popId := PrimaryKey(IdsNamed(store.varDetails, "population")).value;
            |ProxyData(store, laus).value| == PairTotal(GhslValues(store.values, popId), popId, laus)
  {
    var popId := PrimaryKey(IdsNamed(store.varDetails, "population")).value;
    JoinRegionsCount(GhslValues(store.values, popId), popId, laus, p);
  }

  /** The rows of a variable already marked chosen. */
  function ChosenRows(store: Store, varId: int): seq<VarValue> {
    Filter(store.values, (v: VarValue) => v.varDetailId == varId && v.chosen)
  }

  /** The mapping of a level's values to LAU, completed by the residual search
      when a value is missing. */
  function CompletedMapping(store: Store, hierarchy: seq<string>, idx: nat, varId: int, regions: seq<Region>,
                            observed: seq<VarValue>, laus: seq<Region>, country: string): Result<seq<Mapping>>
  {
    var mapped :- MapRegionDataToLau(regions, observed, idx - 1, laus);
    if AnyMissing(mapped) then ResidualFrom(store, hierarchy, varId, laus, country, mapped, idx + 1) else Ok(mapped)
  }

  /** The rows the NUTS stage adds: map, complete, disaggregate with the
      proxy and label, or the failure of the first step that fails. */
  function NutsRows(store: Store, hierarchy: seq<string>, idx: nat, varId: int, regions: seq<Region>,
                    observed: seq<VarValue>, country: string): Result<seq<NewValue>>
  {
    var laus := GetRegions(store.regions, "LAU", country);
    var completed :- CompletedMapping(store, hierarchy, idx, varId, regions, observed, laus, country);
    var proxy :- ProxyData(store, laus);
    var shares :- DisaggregatedMappings(completed, proxy);
    if observed == [] then Err(IndexError) else Ok(Labelled(shares, varId, observed[0]))
  }

  /** `disaggregate_and_annotate_nuts_data`: nothing when the variable already
      has chosen rows, otherwise one batch of new rows. */
  function NutsStage(store: Store, hierarchy: seq<string>, idx: nat, varId: int, regions: seq<Region>,
                     observed: seq<VarValue>, country: string): Result<seq<Write>>
  {
    if ChosenRows(store, varId) != [] then Ok([])
    else
      var rows :- NutsRows(store, hierarchy, idx, varId, regions, observed, country);
      Ok([AddValues(rows)])
  }

  /** A row added at an LAU region of the table, and not good. */
  predicate AddedAtLau(regions: seq<Region>, row: NewValue) {
    row.quality != Good && exists g :: g in regions && g.resolution == "LAU" && g.id == row.regionId
  }

  /** Every share of the disaggregation with a proxy at LAU regions lies at
      an LAU region. */
  lemma SharesAtLau(store: Store, country: string, completed: seq<Mapping>, proxy: seq<ProxyRow>, s: Share)
    requires forall p :: p in proxy ==> p.regionId in RegionIds(GetRegions(store.regions, "LAU", country))
    requires DisaggregatedMappings(completed, proxy).Ok? && s in DisaggregatedMappings(completed, proxy).value
    ensures exists g :: g in store.regions && g.resolution == "LAU" && g.id == s.regionId
  {
    DisaggregatedMappingsSound(completed, proxy, s);
    var p, m :| p in proxy && m in completed && p.regionId == s.regionId && s.regionId in m.lauIds
                && (s.value.None? <==> m.value.None?);
    var g :| g in GetRegions(store.regions, "LAU", country) && g.id == p.regionId;
  }

  /** Every row the NUTS stage adds is of the variable, at an LAU region, and
      not good. */
  lemma NutsRowsAtLau(store: Store, hierarchy: seq<string>, idx: nat, varId: int, regions: seq<Region>,
                      observed: seq<VarValue>, country: string, rows: seq<NewValue>)
    requires NutsRows(store, hierarchy, idx, varId, regions, observed, country) == Ok(rows)
    ensures forall row :: row in rows ==> row.varDetailId == varId && AddedAtLau(store.regions, row)
  {
    var laus := GetRegions(store.regions, "LAU", country);
    var completed := CompletedMapping(store, hierarchy, idx, varId, regions, observed, laus, country).value;
    var proxy := ProxyData(store, laus).value;
    var shares := DisaggregatedMappings(completed, proxy).value;
    assert rows == Labelled(shares, varId, observed[0]);
    forall row | row in rows
      ensures AddedAtLau(store.regions, row)
    {
      var i :| 0 <= i < |rows| && rows[i] == row;
      assert shares[i] in shares;
      SharesAtLau(store, country, completed, proxy, shares[i]);
    }
  }

  /** The rows the NUTS stage adds carry the known total of the completed
      mapping, and the completion loses no LAU region of the first mapping. */
  lemma NutsRowsConserve(store: Store, hierarchy: seq<string>, idx: nat, varId: int, regions: seq<Region>,
                         observed: seq<VarValue>, country: string, rows: seq<NewValue>)
    requires NutsRows(store, hierarchy, idx, varId, regions, observed, country) == Ok(rows)
    ensures var laus := GetRegions(store.regions, "LAU", country);
            var completed := CompletedMapping(store, hierarchy, idx, varId, regions, observed, laus, country);
            completed.Ok? && RowTotal(rows) == KnownTotal(completed.value)
            && Covered(completed.value) == Covered(MapRegionDataToLau(regions, observed, idx - 1, laus).value)
  {
    var laus := GetRegions(store.regions, "LAU", country);
    var mapped := MapRegionDataToLau(regions, observed, idx - 1, laus).value;
    var completed := CompletedMapping(store, hierarchy, idx, varId, regions, observed, laus, country).value;
    if AnyMissing(mapped) {
      ResidualFromCovered(store, hierarchy, varId, laus, country, mapped, idx + 1);
    }
    DisaggregatedMappingsConserve(completed, ProxyData(store, laus).value);
  }

  /** What the NUTS stage writes: nothing exactly when the variable has chosen
      rows, otherwise one well-labelled batch of rows of the variable. */
  lemma NutsStageLabels(store: Store, hierarchy: seq<string>, idx: nat, varId: int, regions: seq<Region>,
                        observed: seq<VarValue>, country: string, ws: seq<Write>)
    requires NutsStage(store, hierarchy, idx, varId, regions, observed, country) == Ok(ws)
    ensures ws == [] <==> ChosenRows(store, varId) != []
    ensures |ws| <= 1
    ensures forall w :: w in ws ==>
              w.AddValues? && WellLabelled(store.regions, w) && forall row :: row in w.rows ==> row.varDetailId == varId
  {
    if ChosenRows(store, varId) == [] {
      NutsRowsAtLau(store, hierarchy, idx, varId, regions, observed, country,
                    NutsRows(store, hierarchy, idx, varId, regions, observed, country).value);
    }
  }

  method DisaggregateAndAnnotateNuts(store: Store, hierarchy: seq<string>, idx: nat, varId: int, regions: seq<Region>,
                                     observed: seq<VarValue>, country: string) returns (r: Result<seq<Write>>)
    ensures r == NutsStage(store, hierarchy, idx, varId, regions, observed, country)
  {
    if |ChosenRows(store, varId)| != 0 {
      return Ok([]);
    }
    var laus := GetRegions(store.regions, "LAU", country);
    var mapped := MapRegionDataToLau(regions, observed, idx - 1, laus);
    if mapped.Err? {
      return Err(mapped.error);
    }
    var completed := mapped;
    if AnyMissing(mapped.value) {
      completed := ResidualSearch(store, hierarchy, varId, laus, country, mapped.value, idx + 1);
    }
    if completed.Err? {
      return Err(completed.error);
    }
    var proxy := ProxyData(store, laus);
    if proxy.Err? {
      return Err(proxy.error);
    }
    var shares := DisaggregateMappings(completed.value, proxy.value);
    if shares.Err? {
      return Err(shares.error);
    }
    if |observed| == 0 {
      return Err(IndexError);
    }
    return Ok([AddValues(Labelled(shares.value, varId, observed[0]))]);
  }

  // ---------------------------------------------------------------------------
  // `disaggregate_and_annotate_data`
  // ---------------------------------------------------------------------------

  /** `input_var_detail_id.unique()`: each id once, in order of first appearance. */
  function UniqueVarIds(vs: seq<VarValue>): (ids: seq<int>)
    ensures Distinct(ids)
    ensures forall x :: x in ids <==> exists v :: v in vs && v.varDetailId == x
    decreases |vs|
  {
    if vs == [] then []
    else
      assert vs == vs[..|vs| - 1] + [vs[|vs| - 1]];
      var init := UniqueVarIds(vs[..|vs| - 1]);
      var x := vs[|vs| - 1].varDetailId;
      if x in init then init else init + [x]
  }

  function RowsOfVar(vs: seq<VarValue>, varId: int): seq<VarValue> {
    Filter(vs, (v: VarValue) => v.varDetailId == varId)
  }

  /** The stage a variable goes through at level `idx`. */
  function StageFor(store: Store, hierarchy: seq<string>, idx: nat, regions: seq<Region>, varId: int,
                    observed: seq<VarValue>, country: string): Result<seq<Write>>
    requires idx < |hierarchy|
  {
    if hierarchy[idx] == "LAU" then LauStage(store, varId, observed, regions)
    else NutsStage(store, hierarchy, idx, varId, regions, observed, country)
  }

  /** The store after a run, the writes made in order, and the exception that
      ended it, if any. */
  datatype Run = Run(store: Store, writes: seq<Write>, failure: Option<Error>)

  function After(ws: seq<Write>, run: Run): Run {
    run.(writes := ws + run.writes)
  }

  lemma AfterAfter(a: seq<Write>, b: seq<Write>, run: Run)
    ensures After(a, After(b, run)) == After(a + b, run)
  {
    assert a + (b + run.writes) == (a + b) + run.writes;
  }

  /** The loop over the variables of one level, from the `k`-th; each stage
      reads the store as the earlier stages left it. */
  function VarsFrom(store: Store, hierarchy: seq<string>, idx: nat, regions: seq<Region>, data: seq<VarValue>,
                    ids: seq<int>, k: nat, country: string): Run
    requires idx < |hierarchy|
    decreases |ids| - k
  {
    if k >= |ids| then Run(store, [], None)
    else
      match StageFor(store, hierarchy, idx, regions, ids[k], RowsOfVar(data, ids[k]), country)
      case Err(e) => Run(store, [], Some(e))
      case Ok(ws) => After(ws, VarsFrom(ApplyAll(store, ws), hierarchy, idx, regions, data, ids, k + 1, country))
  }

  /** The loop over `hierarchy[:-1]` from level `idx`; the regions and values of
      a level are read once, when the level starts. */
  function LevelsFrom(store: Store, hierarchy: seq<string>, country: string, idx: nat): Run
    decreases |hierarchy| - idx
  {
    if idx + 1 >= |hierarchy| then Run(store, [], None)
    else
      match RegionsAndData(store, hierarchy[idx], None, country)
      case Err(e) => Run(store, [], Some(e))
      case Ok(fetched) =>
        var level := VarsFrom(store, hierarchy, idx, fetched.0, fetched.1, UniqueVarIds(fetched.1), 0, country);
        if level.failure.Some? then level
        else After(level.writes, LevelsFrom(level.store, hierarchy, country, idx + 1))
  }

  /** Quality labels: annotation marks rows good, and every added row lies
      at an LAU region and is not good. */
  predicate WellLabelled(regions: seq<Region>, w: Write) {
    match w
    case Annotate(_, q) => q == Good
    case AddValues(rows) => forall row :: row in rows ==> AddedAtLau(regions, row)
  }

  lemma {:induction false} ApplyAllAppend(store: Store, a: seq<Write>, b: seq<Write>)
    ensures ApplyAll(store, a + b) == ApplyAll(ApplyAll(store, a), b)
    decreases |a|
  {
    if a == [] {
      assert a + b == b;
    } else {
      assert (a + b)[1..] == a[1..] + b;
      ApplyAllAppend(Apply(store, a[0]), a[1..], b);
    }
  }

  lemma LauWritesWellLabelled(table: seq<Region>, varId: int, observed: seq<VarValue>, regions: seq<Region>, country: string)
    requires observed != [] && regions == GetRegions(table, "LAU", country)
    ensures forall w :: w in LauWrites(varId, observed, regions) ==> WellLabelled(table, w)
  {
    var ws := LauWrites(varId, observed, regions);
    if |ws| == 2 {
      var rows := ws[1].rows;
      forall row | row in rows
        ensures AddedAtLau(table, row)
      {
        var i :| 0 <= i < |rows| && rows[i] == row;
        assert RegionIdsOf(rows)[i] == row.regionId;
        assert row.regionId in RegionIds(regions);
      }
      assert WellLabelled(table, ws[1]);
    }
  }

  lemma LauStageWellLabelled(store: Store, varId: int, observed: seq<VarValue>, regions: seq<Region>, country: string)
    requires regions == GetRegions(store.regions, "LAU", country)
    requires LauStage(store, varId, observed, regions).Ok?
    ensures forall w :: w in LauStage(store, varId, observed, regions).value ==> WellLabelled(store.regions, w)
  {
    if CollapseResult(NamesOf(store.varDetails, varId)) != Ok(Single("population")) {
      LauWritesWellLabelled(store.regions, varId, observed, regions, country);
    }
  }

  lemma StageWellLabelled(store: Store, hierarchy: seq<string>, idx: nat, regions: seq<Region>, varId: int,
                          observed: seq<VarValue>, country: string)
    requires idx < |hierarchy| && regions == GetRegions(store.regions, hierarchy[idx], country)
    requires StageFor(store, hierarchy, idx, regions, varId, observed, country).Ok?
    ensures forall w :: w in StageFor(store, hierarchy, idx, regions, varId, observed, country).value ==>
              WellLabelled(store.regions, w)
  {
    if hierarchy[idx] == "LAU" {
      LauStageWellLabelled(store, varId, observed, regions, country);
    } else {
      NutsStageLabels(store, hierarchy, idx, varId, regions, observed, country,
                      NutsStage(store, hierarchy, idx, varId, regions, observed, country).value);
    }
  }

  /** A level run only adds well-labelled writes, keeps the regions, and ends
      in the store its writes produce. */
  lemma {:induction false} VarsFromInvariant(store: Store, hierarchy: seq<string>, idx: nat, regions: seq<Region>,
                                             data: seq<VarValue>, ids: seq<int>, k: nat, country: string)
    requires idx < |hierarchy| && regions == GetRegions(store.regions, hierarchy[idx], country)
    ensures var run := VarsFrom(store, hierarchy, idx, regions, data, ids, k, country);
            run.store == ApplyAll(store, run.writes) && run.store.regions == store.regions
            && forall w :: w in run.writes ==> WellLabelled(store.regions, w)
    decreases |ids| - k
  {
    if k < |ids| {
      var stage := StageFor(store, hierarchy, idx, regions, ids[k], RowsOfVar(data, ids[k]), country);
      if stage.Ok? {
        var ws := stage.value;
        StageWellLabelled(store, hierarchy, idx, regions, ids[k], RowsOfVar(data, ids[k]), country);
        var next := ApplyAll(store, ws);
        VarsFromInvariant(next, hierarchy, idx, regions, data, ids, k + 1, country);
        var rest := VarsFrom(next, hierarchy, idx, regions, data, ids, k + 1, country);
        ApplyAllAppend(store, ws, rest.writes);
      }
    }
  }

  /** The whole run only adds well-labelled writes and ends in the store its
      writes produce. */
  lemma {:induction false} LevelsFromInvariant(store: Store, hierarchy: seq<string>, country: string, idx: nat)
    ensures var run := LevelsFrom(store, hierarchy, country, idx);
            run.store == ApplyAll(store, run.writes) && run.store.regions == store.regions
            && forall w :: w in run.writes ==> WellLabelled(store.regions, w)
    decreases |hierarchy| - idx
  {
    if idx + 1 < |hierarchy| {
      var fetched := RegionsAndData(store, hierarchy[idx], None, country);
      if fetched.Ok? {
        var regions := fetched.value.0;
        var data := fetched.value.1;
        VarsFromInvariant(store, hierarchy, idx, regions, data, UniqueVarIds(data), 0, country);
        var level := VarsFrom(store, hierarchy, idx, regions, data, UniqueVarIds(data), 0, country);
        if level.failure.None? {
          LevelsFromInvariant(level.store, hierarchy, country, idx + 1);
          var rest := LevelsFrom(level.store, hierarchy, country, idx + 1);
          ApplyAllAppend(store, level.writes, rest.writes);
        }
      }
    }
  }

  /** The body of the inner loop: the LAU or the NUTS stage. It is a method,
      beside the function `StageFor`, because the NUTS branch calls the loop
      method `DisaggregateAndAnnotateNuts`. */
  method AnnotateVariable(store: Store, hierarchy: seq<string>, idx: nat, regions: seq<Region>, varId: int,
                          observed: seq<VarValue>, country: string) returns (stage: Result<seq<Write>>)
    requires idx < |hierarchy|
    ensures stage == StageFor(store, hierarchy, idx, regions, varId, observed, country)
  {
    if hierarchy[idx] == "LAU" {
      stage := LauStage(store, varId, observed, regions);
    } else {
      stage := DisaggregateAndAnnotateNuts(store, hierarchy, idx, varId, regions, observed, country);
    }
  }

  /** The inner loop of `disaggregate_and_annotate_data`: the variables of one level. */
  method AnnotateLevel(store0: Store, hierarchy: seq<string>, idx: nat, regions: seq<Region>, data: seq<VarValue>,
                       country: string) returns (level: Run)
    requires idx < |hierarchy|
    ensures level == VarsFrom(store0, hierarchy, idx, regions, data, UniqueVarIds(data), 0, country)
  {
    var ids := UniqueVarIds(data);
    var store := store0;
    var writes: seq<Write> := [];
    var k := 0;
    while k < |ids|
      invariant k <= |ids|
      invariant VarsFrom(store0, hierarchy, idx, regions, data, ids, 0, country)
                == After(writes, VarsFrom(store, hierarchy, idx, regions, data, ids, k, country))
      decreases |ids| - k
    {
      var stage := AnnotateVariable(store, hierarchy, idx, regions, ids[k], RowsOfVar(data, ids[k]), country);
      if stage.Err? {
        assert VarsFrom(store, hierarchy, idx, regions, data, ids, k, country) == Run(store, [], Some(stage.error));
        assert writes + [] == writes;
        return Run(store, writes, Some(stage.error));
      }
      ghost var rest := VarsFrom(ApplyAll(store, stage.value), hierarchy, idx, regions, data, ids, k + 1, country);
      assert VarsFrom(store, hierarchy, idx, regions, data, ids, k, country) == After(stage.value, rest);
      AfterAfter(writes, stage.value, rest);
      store := ApplyAll(store, stage.value);
      writes := writes + stage.value;
      k := k + 1;
    }
    assert writes + [] == writes;
    return Run(store, writes, None);
  }

  /** `disaggregate_and_annotate_data`: the outer loop over the levels. */
  method DisaggregateAndAnnotateData(store0: Store, hierarchy: seq<string>, country: string) returns (run: Run)
    ensures run == LevelsFrom(store0, hierarchy, country, 0)
  {
    var store := store0;
    var writes: seq<Write> := [];
    var idx := 0;
    while idx + 1 < |hierarchy|
      invariant LevelsFrom(store0, hierarchy, country, 0) == After(writes, LevelsFrom(store, hierarchy, country, idx))
      decreases |hierarchy| - idx
    {
      var fetched := RegionsAndData(store, hierarchy[idx], None, country);
      if fetched.Err? {
        return Run(store, writes, Some(fetched.error));
      }
      var level := AnnotateLevel(store, hierarchy, idx, fetched.value.0, fetched.value.1, country);
      if level.failure.Some? {
        assert LevelsFrom(store, hierarchy, country, idx) == level;
        return Run(level.store, writes + level.writes, level.failure);
      }
      ghost var rest := LevelsFrom(level.store, hierarchy, country, idx + 1);
      assert LevelsFrom(store, hierarchy, country, idx) == After(level.writes, rest);
      AfterAfter(writes, level.writes, rest);
      store := level.store;
      writes := writes + level.writes;
      idx := idx + 1;
    }
    assert writes + [] == writes;
    return Run(store, writes, None);
  }
}
