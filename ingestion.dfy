/** The three ways an input table reaches `region_data`: directly at LAU
    level, by proxy disaggregation, or by copying a coarse value to every child
    region; the dispatch between them, and the EUCalc variant
    (zoomin/database/db_access_with_calculations.py). */
module Ingestion {
  import opened Wrappers
  import opened Text
  import opened DbAccess
  import opened Calculations
  import Disaggregation

  // ---------------------------------------------------------------------------
  // Input tables
  // ---------------------------------------------------------------------------

  /** The columns an input table may carry besides `reg_code` and `value`. */
  datatype InputColumn = PrntCode | InputYear | InputQuality | ClimateExperimentName | InputConfidence

  /** One row of a processed `data.csv`. A field whose column the table lacks is never read. */
  datatype InputRow = InputRow(
    regCode: string,
    prntCode: string,
    value: real,
    year: Option<int>,
    qualityRating: Option<string>,
    climateExperiment: Option<string>,
    confidenceInterval: Option<real>)

  datatype InputTable = InputTable(columns: set<InputColumn>, rows: seq<InputRow>)

  /** The `details.json` of a variable: the resolution of its data and its citation. */
  datatype Details = Details(resolution: string, citation: string)

  /** A row of the `climate_experiments` table. */
  datatype Experiment = Experiment(id: int, name: Option<string>)

  /** The foreign keys a path looks up with `get_primary_key`, each as the
      lookup returned it. */
  datatype Keys = Keys(
    varDetail: Result<int>,
    citation: Result<int>,
    originalResolution: Result<int>,
    proxyMethod: Result<int>,
    sameValueMethod: Result<int>,
    pathway: Result<int>)

  /** The foreign keys a path stamps on every row it writes. */
  datatype Ids = Ids(
    varDetail: int,
    citation: int,
    originalResolution: int,
    disaggregationMethod: Option<int>,
    pathway: Option<int>)

  /** What the paths read from the database, passed in as values. */
  datatype Env = Env(
    db: Database,
    keys: Keys,
    experiments: seq<Experiment>,
    aggMethod: Result<Collapsed<SqlValue>>,
    delDict: map<string, int>)

  /** The written records: the table without `parent_region_code`. */
  function Records(rows: seq<Row>): (recs: seq<Record>)
    ensures |recs| == |rows| && forall i :: 0 <= i < |rows| ==> recs[i] == rows[i].rec
  {
    seq(|rows|, i requires 0 <= i < |rows| => rows[i].rec)
  }

  // ---------------------------------------------------------------------------
  // Merges shared by the LAU and same-value paths
  // ---------------------------------------------------------------------------

  /** The table columns an input column turns into. */
  function CarriedColumns(columns: set<InputColumn>): (cs: set<Column>)
    ensures Year in cs <==> InputYear in columns
    ensures QualityRating in cs <==> InputQuality in columns
    ensures ConfidenceInterval in cs <==> InputConfidence in columns
    ensures ClimateExperimentId in cs <==> ClimateExperimentName in columns
    ensures DisaggregationMethodId !in cs && PathwayId !in cs
  {
    (if InputYear in columns then {Year} else {})
    + (if InputQuality in columns then {QualityRating} else {})
    + (if InputConfidence in columns then {ConfidenceInterval} else {})
    + (if ClimateExperimentName in columns then {ClimateExperimentId} else {})
  }

  /** One output row built from input row `d`: the input's own columns, the
      region the merge found, the climate id and the path's foreign keys. */
  function Carried(columns: set<InputColumn>, d: InputRow, region: Option<Region>, climate: Option<int>, ids: Ids): Row {
    Row(
      Record(
        if region.Some? then Some(region.value.id) else None,
        ids.varDetail, ids.pathway, ids.originalResolution, climate, ids.disaggregationMethod, ids.citation,
        if InputYear in columns then d.year else None,
        d.value,
        if InputConfidence in columns then d.confidenceInterval else None,
        if InputQuality in columns then d.qualityRating else None,
        1),
      if region.Some? then Some(region.value.parentRegionCode) else None)
  }

  /** The left merge of a row with `climate_experiments` on the experiment's
      name: the id of every experiment of that name, or none. */
  function ClimateIds(columns: set<InputColumn>, experiments: seq<Experiment>, d: InputRow): (ids: seq<Option<int>>)
    ensures |ids| >= 1
    ensures ClimateExperimentName !in columns ==> ids == [None]
    ensures forall j :: 0 <= j < |ids| && ids[j].Some? ==>
      exists e :: e in experiments && e.id == ids[j].value && e.name == d.climateExperiment
  {
    if ClimateExperimentName !in columns then [None]
    else
      var ms := ExperimentsNamed(experiments, d.climateExperiment);
      if ms == [] then [None] else seq(|ms|, j requires 0 <= j < |ms| => Some(ms[j].id))
  }

  function ExperimentsNamed(experiments: seq<Experiment>, name: Option<string>): (ms: seq<Experiment>)
    ensures forall e :: e in ms <==> e in experiments && e.name == name
    decreases |experiments|
  {
    if experiments == [] then []
    else
      assert experiments == experiments[..|experiments| - 1] + [experiments[|experiments| - 1]];
      var init := ExperimentsNamed(experiments[..|experiments| - 1], name);
      if experiments[|experiments| - 1].name == name then init + [experiments[|experiments| - 1]] else init
  }

  /** Row `r` carries input row `d`'s value and columns and the path's keys. */
  predicate FromInput(columns: set<InputColumn>, d: InputRow, ids: Ids, r: Row) {
    && r.rec.value == d.value
    && r.rec.chosen == 1
    && r.rec.varDetailId == ids.varDetail
    && r.rec.citationId == ids.citation
    && r.rec.originalResolutionId == ids.originalResolution
    && r.rec.disaggregationMethodId == ids.disaggregationMethod
    && r.rec.pathwayId == ids.pathway
    && r.rec.year == (if InputYear in columns then d.year else None)
    && r.rec.qualityRating == (if InputQuality in columns then d.qualityRating else None)
    && r.rec.confidenceInterval == (if InputConfidence in columns then d.confidenceInterval else None)
  }

  /** The rows of input row `d` for one merged region (or none), one per climate id. */
  function ClimateRows(columns: set<InputColumn>, experiments: seq<Experiment>, ids: Ids, d: InputRow, region: Option<Region>)
    : (out: seq<Row>)
    ensures out != []
    ensures forall r :: r in out ==>
      && FromInput(columns, d, ids, r)
      && r.rec.regionId == (if region.Some? then Some(region.value.id) else None)
      && r.parentRegionCode == (if region.Some? then Some(region.value.parentRegionCode) else None)
  {
    var cids := ClimateIds(columns, experiments, d);
    seq(|cids|, j requires 0 <= j < |cids| => Carried(columns, d, region, cids[j], ids))
  }

  /** The rows of input row `d` for the regions `regs` it matched, in order. */
  function RegionRows(columns: set<InputColumn>, regs: seq<Region>, experiments: seq<Experiment>, ids: Ids, d: InputRow)
    : (out: seq<Row>)
    ensures forall r :: r in out ==>
      FromInput(columns, d, ids, r) &&
      exists g :: g in regs && r.rec.regionId == Some(g.id) && r.parentRegionCode == Some(g.parentRegionCode)
    decreases |regs|
  {
    if regs == [] then []
    else
      var init := regs[..|regs| - 1];
      var last := regs[|regs| - 1];
      assert regs == init + [last];
      RegionRows(columns, init, experiments, ids, d) + ClimateRows(columns, experiments, ids, d, Some(last))
  }

  /** Every matched region gets a row. */
  lemma {:induction false} RegionRowsCover(columns: set<InputColumn>, regs: seq<Region>, experiments: seq<Experiment>, ids: Ids, d: InputRow, k: nat)
    requires k < |regs|
    ensures exists r :: r in RegionRows(columns, regs, experiments, ids, d) && r.rec.regionId == Some(regs[k].id)
    decreases |regs|
  {
    var init := regs[..|regs| - 1];
    var back := ClimateRows(columns, experiments, ids, d, Some(regs[|regs| - 1]));
    assert RegionRows(columns, regs, experiments, ids, d) == RegionRows(columns, init, experiments, ids, d) + back;
    if k < |regs| - 1 {
      RegionRowsCover(columns, init, experiments, ids, d, k);
      assert init[k] == regs[k];
    } else {
      assert back[0] in back;
    }
  }

  /** The rows a merge produces for input row `d` that matched the regions
      `regs`: one per region and climate id, or, when no region matched, rows
      with neither a region id nor a parent code. */
  function RowsFor(columns: set<InputColumn>, regs: seq<Region>, experiments: seq<Experiment>, ids: Ids, d: InputRow)
    : (out: seq<Row>)
    ensures out != []
    ensures forall r :: r in out ==> FromInput(columns, d, ids, r)
  {
    if regs == [] then ClimateRows(columns, experiments, ids, d, None)
    else
      assert regs[0] in regs;
      RegionRows(columns, regs, experiments, ids, d)
  }

  /** Which regions the rows of one input row carry: none exactly when it
      matched none, otherwise exactly the matched ones. */
  lemma RowsForRegions(columns: set<InputColumn>, regs: seq<Region>, experiments: seq<Experiment>, ids: Ids, d: InputRow)
    ensures var out := RowsFor(columns, regs, experiments, ids, d);
      && (forall r :: r in out ==> (r.rec.regionId.None? <==> regs == []))
      && (forall r :: r in out && r.rec.regionId.Some? ==>
           exists g :: g in regs && r.rec.regionId == Some(g.id) && r.parentRegionCode == Some(g.parentRegionCode))
  {
    if regs != [] {
      var out := RegionRows(columns, regs, experiments, ids, d);
      forall r | r in out ensures r.rec.regionId.Some? {
        var g :| g in regs && r.rec.regionId == Some(g.id) && r.parentRegionCode == Some(g.parentRegionCode);
      }
    }
  }

  /** A merged table: the rows of every input row, in input order. */
  function MergedRows(data: InputTable, match_: InputRow -> seq<Region>, experiments: seq<Experiment>, ids: Ids)
    : (out: seq<Row>)
  {
    Flatten(seq(|data.rows|, i requires 0 <= i < |data.rows| => RowsFor(data.columns, match_(data.rows[i]), experiments, ids, data.rows[i])))
  }

  /** Every merged row comes from some input row: it carries that row's
      value and columns, and a region id exactly when that row matched a
      region, namely one of the regions it matched. */
  lemma MergedRowsProvenance(data: InputTable, match_: InputRow -> seq<Region>, experiments: seq<Experiment>, ids: Ids, r: Row)
    requires r in MergedRows(data, match_, experiments, ids)
    ensures exists i :: (0 <= i < |data.rows| && FromInput(data.columns, data.rows[i], ids, r)
      && (r.rec.regionId.None? <==> match_(data.rows[i]) == [])
      && (r.rec.regionId.Some? ==> exists g :: g in match_(data.rows[i]) && r.rec.regionId == Some(g.id) && r.parentRegionCode == Some(g.parentRegionCode)))
  {
    var blocks := seq(|data.rows|, i requires 0 <= i < |data.rows| => RowsFor(data.columns, match_(data.rows[i]), experiments, ids, data.rows[i]));
    FlattenMember(blocks, r);
    var i :| 0 <= i < |blocks| && r in blocks[i];
    RowsForRegions(data.columns, match_(data.rows[i]), experiments, ids, data.rows[i]);
  }

  /** Every input row and every region it matched reach the merged table. */
  lemma MergedRowsCoverage(data: InputTable, match_: InputRow -> seq<Region>, experiments: seq<Experiment>, ids: Ids, i: nat, g: Region)
    requires i < |data.rows| && g in match_(data.rows[i])
    ensures exists r :: r in MergedRows(data, match_, experiments, ids) && r.rec.regionId == Some(g.id) && r.rec.value == data.rows[i].value
  {
    var blocks := seq(|data.rows|, j requires 0 <= j < |data.rows| => RowsFor(data.columns, match_(data.rows[j]), experiments, ids, data.rows[j]));
    var regs := match_(data.rows[i]);
    var k :| 0 <= k < |regs| && regs[k] == g;
    RegionRowsCover(data.columns, regs, experiments, ids, data.rows[i], k);
    assert blocks[i] == RegionRows(data.columns, regs, experiments, ids, data.rows[i]);
    var r: Row :| r in blocks[i] && r.rec.regionId == Some(g.id);
    FlattenMember(blocks, r);
  }

  // ---------------------------------------------------------------------------
  // `process_and_add_lau_data`
  // ---------------------------------------------------------------------------

  /** The LAU regions matching an input row on (`reg_code`, `prnt_code`). */
  function LauMatches(laus: seq<Region>, d: InputRow): (ms: seq<Region>)
    ensures forall g :: g in ms <==> g in laus && g.regionCode == d.regCode && g.parentRegionCode == d.prntCode
    decreases |laus|
  {
    if laus == [] then []
    else
      assert laus == laus[..|laus| - 1] + [laus[|laus| - 1]];
      var init := LauMatches(laus[..|laus| - 1], d);
      var g := laus[|laus| - 1];
      if g.regionCode == d.regCode && g.parentRegionCode == d.prntCode then init + [g] else init
  }

  function LauMatch(laus: seq<Region>): InputRow -> seq<Region> {
    d => LauMatches(laus, d)
  }

  /** The keys of the LAU path, looked up in its order. */
  function LauIds(keys: Keys): Result<Ids> {
    var citation :- keys.citation;
    var originalResolution :- keys.originalResolution;
    var varDetail :- keys.varDetail;
    Ok(Ids(varDetail, citation, originalResolution, None, None))
  }

  /** The merged table of the LAU path. */
  function LauRows(data: InputTable, env: Env, ids: Ids): seq<Row> {
    MergedRows(data, LauMatch(GetRegions(env.db.regions, "LAU", "all")), env.experiments, ids)
  }

  /** `process_and_add_lau_data`, with the climate column dropped as intended
      (the code as written fails there, see `ProcessLauDataAsWritten`): label
      the rows with their LAU region, write them, then aggregate them upwards. */
  function ProcessLauData(data: InputTable, env: Env): Log {
    if PrntCode !in data.columns then Failed(KeyError("prnt_code"))
    else
      match LauIds(env.keys)
      case Err(e) => Failed(e)
      case Ok(ids) =>
        var rows := LauRows(data, env, ids);
        Then(Log([RegionData(Records(rows))], None),
             AggregateAndAdd(Frame(CarriedColumns(data.columns), rows), env.aggMethod, env.delDict, env.db.regions))
  }

  /** Every LAU row written carries the value and columns of an input row, and
      its region, if any, is the LAU region with that row's codes. */
  lemma LauRowsMatched(data: InputTable, env: Env, ids: Ids, r: Row)
    requires r in LauRows(data, env, ids)
    ensures exists i :: (0 <= i < |data.rows| && FromInput(data.columns, data.rows[i], ids, r)
      && (r.rec.regionId.Some? ==>
            exists g :: g in env.db.regions && g.resolution == "LAU" && r.rec.regionId == Some(g.id)
              && g.regionCode == data.rows[i].regCode && g.parentRegionCode == data.rows[i].prntCode))
  {
    var laus := GetRegions(env.db.regions, "LAU", "all");
    MergedRowsProvenance(data, LauMatch(laus), env.experiments, ids, r);
  }

  /** `process_and_add_lau_data` as written: a table with a
      `climate_experiment` column reaches `drop(["climate_experiment"])`
      without `columns=` or `axis=1`, which looks the name up among the row
      labels and raises KeyError before anything is written. */
  function ProcessLauDataAsWritten(data: InputTable, env: Env): Log {
    if PrntCode !in data.columns then Failed(KeyError("prnt_code"))
    else
      match LauIds(env.keys)
      case Err(e) => Failed(e)
      case Ok(_) =>
        if ClimateExperimentName in data.columns then Failed(KeyError("['climate_experiment'] not found in axis"))
        else ProcessLauData(data, env)
  }

  /** The discrepancy: with a climate column the code as written writes
      nothing, while the intended version writes the LAU rows first. */
  lemma LauClimateDropFails(data: InputTable, env: Env)
    requires PrntCode in data.columns && ClimateExperimentName in data.columns && LauIds(env.keys).Ok?
    ensures ProcessLauDataAsWritten(data, env) == Failed(KeyError("['climate_experiment'] not found in axis"))
    ensures ProcessLauData(data, env).writes != []
    ensures ProcessLauData(data, env).writes[0] == RegionData(Records(LauRows(data, env, LauIds(env.keys).value)))
  {
  }

  /** Without a climate column the two versions agree. */
  lemma LauAsWrittenAgrees(data: InputTable, env: Env)
    requires ClimateExperimentName !in data.columns
    ensures ProcessLauDataAsWritten(data, env) == ProcessLauData(data, env)
  {
  }

  // ---------------------------------------------------------------------------
  // `disaggregate_and_add_data`
  // ---------------------------------------------------------------------------

  /** The proxy rows whose cut parent code equals `code`
      (`proxy_data["match_region_code"] == row["reg_code"]`), in proxy order. */
  function ProxyFor(proxy: seq<ProxyRow>, cut: Option<int>, code: string): (sel: seq<ProxyRow>)
    ensures forall p :: p in sel <==> p in proxy && CutCode(cut, p.parentRegionCode) == code
    ensures forall p :: multiset(sel)[p] == if CutCode(cut, p.parentRegionCode) == code then multiset(proxy)[p] else 0
    decreases |proxy|
  {
    if proxy == [] then []
    else
      assert proxy == proxy[..|proxy| - 1] + [proxy[|proxy| - 1]];
      var init := ProxyFor(proxy[..|proxy| - 1], cut, code);
      var p := proxy[|proxy| - 1];
      if CutCode(cut, p.parentRegionCode) == code then init + [p] else init
  }

  /** One child of a disaggregated row: its share of the value, and the
      quality rating and year it inherits. */
  datatype Child = Child(share: ProxyRow, qualityRating: Option<string>, year: Option<int>)

  function Children(shares: seq<ProxyRow>, quality: Option<string>, year: Option<int>): (cs: seq<Child>)
    ensures |cs| == |shares| && forall i :: 0 <= i < |shares| ==> cs[i] == Child(shares[i], quality, year)
    decreases |shares|
  {
    if shares == [] then [] else [Child(shares[0], quality, year)] + Children(shares[1..], quality, year)
  }

  function ChildTotal(cs: seq<Child>): real
    decreases |cs|
  {
    if cs == [] then 0.0 else cs[0].share.value + ChildTotal(cs[1..])
  }

  lemma {:induction false} ChildTotalShares(shares: seq<ProxyRow>, quality: Option<string>, year: Option<int>)
    ensures ChildTotal(Children(shares, quality, year)) == Disaggregation.Total(shares)
    decreases |shares|
  {
    if shares != [] {
      ChildTotalShares(shares[1..], quality, year);
    }
  }

  lemma {:induction false} ChildTotalAppend(a: seq<Child>, b: seq<Child>)
    ensures ChildTotal(a + b) == ChildTotal(a) + ChildTotal(b)
    decreases |a|
  {
    if a == [] {
      assert a + b == b;
    } else {
      assert (a + b)[1..] == a[1..] + b;
      ChildTotalAppend(a[1..], b);
    }
  }

  /** One pass of the `iterrows` loop: disaggregate the row's value over the
      proxy rows under it, then stamp its quality rating and year on every
      child. */
  function DisaggregateRow(columns: set<InputColumn>, proxy: seq<ProxyRow>, cut: Option<int>, d: InputRow)
    : (r: Result<seq<Child>>)
    ensures ProxyFor(proxy, cut, d.regCode) == [] ==> r == Err(ZeroDivisionError)
    ensures r.Ok? <==> ProxyFor(proxy, cut, d.regCode) != [] && InputQuality in columns && InputYear in columns
    ensures r.Ok? ==> ChildTotal(r.value) == d.value
    ensures r.Ok? ==> |r.value| == |ProxyFor(proxy, cut, d.regCode)|
    ensures r.Ok? ==> forall i :: 0 <= i < |r.value| ==>
      Disaggregation.SameRegion(r.value[i].share, ProxyFor(proxy, cut, d.regCode)[i])
    // each child's share is the one `disaggregate_value` computes for its proxy row
    ensures r.Ok? ==> forall i :: 0 <= i < |r.value| ==>
      r.value[i].share == Disaggregation.DisaggregateValue(d.value, ProxyFor(proxy, cut, d.regCode)).value.rows[i]
  {
    var sel := ProxyFor(proxy, cut, d.regCode);
    match Disaggregation.DisaggregateValue(d.value, sel)
    case Err(e) => Err(e)
    case Ok(res) =>
      if InputQuality !in columns then Err(KeyError("quality_rating"))
      else if InputYear !in columns then Err(KeyError("year"))
      else
        var cs := Children(res.rows, d.qualityRating, d.year);
        Disaggregation.Conservation(d.value, sel);
        ChildTotalShares(res.rows, d.qualityRating, d.year);
        ChildrenInProxy(res.rows, sel, d.qualityRating, d.year);
        Ok(cs)
  }

  /** Children built from shares of the proxy rows `sel` lie in those rows and
      carry the quality rating and year given. */
  lemma ChildrenInProxy(shares: seq<ProxyRow>, sel: seq<ProxyRow>, quality: Option<string>, year: Option<int>)
    requires |shares| == |sel| && forall i :: 0 <= i < |sel| ==> Disaggregation.SameRegion(shares[i], sel[i])
    ensures forall c :: c in Children(shares, quality, year) ==>
      c.qualityRating == quality && c.year == year && exists p :: p in sel && Disaggregation.SameRegion(c.share, p)
  {
    var cs := Children(shares, quality, year);
    forall c | c in cs
      ensures c.qualityRating == quality && c.year == year && exists p :: p in sel && Disaggregation.SameRegion(c.share, p)
    {
      var i :| 0 <= i < |cs| && cs[i] == c;
      assert sel[i] in sel;
    }
  }

  function RowStep(columns: set<InputColumn>, proxy: seq<ProxyRow>, cut: Option<int>): InputRow -> Result<seq<Child>> {
    d => DisaggregateRow(columns, proxy, cut, d)
  }

  /** All the children of the loop, in row order (`pd.concat(disagg_df_list)`);
      the first row that fails stops it. */
  function DisaggregatedChildren(data: InputTable, proxy: seq<ProxyRow>, cut: Option<int>): Result<seq<Child>> {
    var pieces :- MapResults(RowStep(data.columns, proxy, cut), data.rows);
    Ok(Flatten(pieces))
  }

  function InputTotal(rows: seq<InputRow>): real
    decreases |rows|
  {
    if rows == [] then 0.0 else InputTotal(rows[..|rows| - 1]) + rows[|rows| - 1].value
  }

  lemma {:induction false} FlattenTotal(pieces: seq<seq<Child>>, rows: seq<InputRow>)
    requires |pieces| == |rows|
    requires forall i :: 0 <= i < |rows| ==> ChildTotal(pieces[i]) == rows[i].value
    ensures ChildTotal(Flatten(pieces)) == InputTotal(rows)
    decreases |rows|
  {
    if rows != [] {
      FlattenTotal(pieces[..|pieces| - 1], rows[..|rows| - 1]);
      ChildTotalAppend(Flatten(pieces[..|pieces| - 1]), pieces[|pieces| - 1]);
    }
  }

  /** Disaggregating a whole table loses nothing: the children add up to the
      table's total. */
  lemma DisaggregatedChildrenConserve(data: InputTable, proxy: seq<ProxyRow>, cut: Option<int>)
    requires DisaggregatedChildren(data, proxy, cut).Ok?
    ensures ChildTotal(DisaggregatedChildren(data, proxy, cut).value) == InputTotal(data.rows)
  {
    var pieces := MapResults(RowStep(data.columns, proxy, cut), data.rows).value;
    MapResultsValues(RowStep(data.columns, proxy, cut), data.rows);
    FlattenTotal(pieces, data.rows);
  }

  /** Every child sits in a proxy region under its row's `reg_code` and
      inherits that row's quality rating and year. */
  lemma DisaggregatedChildrenInherit(data: InputTable, proxy: seq<ProxyRow>, cut: Option<int>, c: Child)
    requires DisaggregatedChildren(data, proxy, cut).Ok? && c in DisaggregatedChildren(data, proxy, cut).value
    ensures exists i :: (0 <= i < |data.rows| &&
      c.qualityRating == data.rows[i].qualityRating && c.year == data.rows[i].year &&
      exists p :: p in proxy && CutCode(cut, p.parentRegionCode) == data.rows[i].regCode && Disaggregation.SameRegion(c.share, p))
  {
    var f := RowStep(data.columns, proxy, cut);
    var pieces := MapResults(f, data.rows).value;
    MapResultsValues(f, data.rows);
    FlattenMember(pieces, c);
    var i :| 0 <= i < |pieces| && c in pieces[i];
    assert pieces[i] == DisaggregateRow(data.columns, proxy, cut, data.rows[i]).value;
    var p := RowChildIn(data.columns, proxy, cut, data.rows[i], c);
  }

  /** One row's part of the inheritance: a child of the row lies in a proxy
      row under it and carries its quality rating and year. */
  lemma RowChildIn(columns: set<InputColumn>, proxy: seq<ProxyRow>, cut: Option<int>, d: InputRow, c: Child)
    returns (p: ProxyRow)
    requires DisaggregateRow(columns, proxy, cut, d).Ok? && c in DisaggregateRow(columns, proxy, cut, d).value
    ensures p in proxy && CutCode(cut, p.parentRegionCode) == d.regCode && Disaggregation.SameRegion(c.share, p)
    ensures c.qualityRating == d.qualityRating && c.year == d.year
  {
    p :| p in ProxyFor(proxy, cut, d.regCode) && Disaggregation.SameRegion(c.share, p);
  }

  /** One row's part of the completeness: a proxy row under the input row
      has a child of that row. */
  lemma RowChildFor(columns: set<InputColumn>, proxy: seq<ProxyRow>, cut: Option<int>, d: InputRow, p: ProxyRow)
    returns (c: Child)
    requires DisaggregateRow(columns, proxy, cut, d).Ok? && p in ProxyFor(proxy, cut, d.regCode)
    ensures c in DisaggregateRow(columns, proxy, cut, d).value
    ensures Disaggregation.SameRegion(c.share, p) && c.qualityRating == d.qualityRating && c.year == d.year
  {
    var sel := ProxyFor(proxy, cut, d.regCode);
    var cs := DisaggregateRow(columns, proxy, cut, d).value;
    var k :| 0 <= k < |sel| && sel[k] == p;
    c := cs[k];
  }

  /** No proxy region is lost: every proxy row under an input row's `reg_code`
      receives a child of that row, carrying its quality rating and year. */
  lemma DisaggregatedChildrenComplete(data: InputTable, proxy: seq<ProxyRow>, cut: Option<int>, i: nat, p: ProxyRow)
    requires DisaggregatedChildren(data, proxy, cut).Ok?
    requires i < |data.rows| && p in ProxyFor(proxy, cut, data.rows[i].regCode)
    ensures exists c :: (c in DisaggregatedChildren(data, proxy, cut).value &&
      Disaggregation.SameRegion(c.share, p) &&
      c.qualityRating == data.rows[i].qualityRating && c.year == data.rows[i].year)
  {
    var f := RowStep(data.columns, proxy, cut);
    var pieces := MapResults(f, data.rows).value;
    MapResultsValues(f, data.rows);
    assert pieces[i] == DisaggregateRow(data.columns, proxy, cut, data.rows[i]).value;
    var c := RowChildFor(data.columns, proxy, cut, data.rows[i], p);
    FlattenMember(pieces, c);
  }

  /** The `iterrows` loop of `disaggregate_and_add_data`. */
  method DisaggregateRows(data: InputTable, proxy: seq<ProxyRow>, cut: Option<int>) returns (r: Result<seq<Child>>)
    ensures r == DisaggregatedChildren(data, proxy, cut)
  {
    var f := RowStep(data.columns, proxy, cut);
    var all: seq<Child> := [];
    ghost var pieces: seq<seq<Child>> := [];
    for i := 0 to |data.rows|
      invariant MapResults(f, data.rows[..i]) == Ok(pieces)
      invariant all == Flatten(pieces)
    {
      var piece := f(data.rows[i]);
      if piece.Err? {
        MapResultsFirstError(f, data.rows, i);
        return Err(piece.error);
      }
      MapResultsSnoc(f, data.rows, i, pieces, piece.value);
      FlattenSnoc(pieces, piece.value);
      all := all + piece.value;
      pieces := pieces + [piece.value];
    }
    assert data.rows[..|data.rows|] == data.rows;
    return Ok(all);
  }

  /** The proxy named by `proxy`: a "+"-equation through `add_proxy_vars`, or a
      single variable; the second component is `proxy_vars`. */
  function FetchProxy(db: Database, proxy: string, country: string): Result<(seq<ProxyRow>, seq<string>)> {
    if '+' in proxy then Disaggregation.ProxyFromEquation(db, proxy, country)
    else
      match VarDataForDisaggregation(db, proxy, country)
      case Err(e) => Err(e)
      case Ok(rows) => Ok((rows, [proxy]))
  }

  /** The keys of the proxy path, looked up in its order. */
  function ProxyIds(keys: Keys): Result<Ids> {
    var varDetail :- keys.varDetail;
    var citation :- keys.citation;
    var originalResolution :- keys.originalResolution;
    var method_ :- keys.proxyMethod;
    Ok(Ids(varDetail, citation, originalResolution, Some(method_), None))
  }

  /** A child as a table row: its share's region and value, the inherited
      columns and the path's keys. */
  function ChildRows(children: seq<Child>, ids: Ids): (rows: seq<Row>)
    ensures |rows| == |children|
  {
    seq(|children|, i requires 0 <= i < |children| =>
      var c := children[i];
      Row(
        Record(Some(c.share.regionId), ids.varDetail, ids.pathway, ids.originalResolution, None,
               ids.disaggregationMethod, ids.citation, c.year, c.share.value, None, c.qualityRating, 1),
        Some(c.share.parentRegionCode)))
  }

  /** The columns of the table the proxy path aggregates. */
  const ProxyColumns: set<Column> := {Year, QualityRating, DisaggregationMethodId}

  /** `disaggregate_and_add_data`: fetch the proxy over all countries,
      disaggregate every row, write the LAU rows, aggregate them upwards and
      record the proxy variables. */
  function DisaggregateAndAdd(data: InputTable, details: Details, proxy: string, env: Env): Log {
    match FetchProxy(env.db, proxy, "all")
    case Err(e) => Failed(e)
    case Ok(fetched) =>
      match CutFor(details.resolution, env.delDict)
      case Err(e) => Failed(e)
      case Ok(cut) =>
        match DisaggregatedChildren(data, fetched.0, cut)
        case Err(e) => Failed(e)
        case Ok(children) =>
          if data.rows == [] then Failed(ValueError("No objects to concatenate"))
          else
            match ProxyIds(env.keys)
            case Err(e) => Failed(e)
            case Ok(ids) =>
              var rows := ChildRows(children, ids);
              Then(Log([RegionData(Records(rows))], None),
                   Then(AggregateAndAdd(Frame(ProxyColumns, rows), env.aggMethod, env.delDict, env.db.regions),
                        Log([ProxyMetrics(ids.varDetail, fetched.1)], None)))
  }

  /** The proxy path step by step. */
  method DisaggregateAndAddData(data: InputTable, details: Details, proxy: string, env: Env) returns (log: Log)
    ensures log == DisaggregateAndAdd(data, details, proxy, env)
  {
    var fetched: Result<(seq<ProxyRow>, seq<string>)>;
    if '+' in proxy {
      fetched := Disaggregation.AddProxyVars(env.db, proxy, "all");
    } else {
      var single := VarDataForDisaggregation(env.db, proxy, "all");
      if single.Err? {
        return Failed(single.error);
      }
      fetched := Ok((single.value, [proxy]));
    }
    if fetched.Err? {
      return Failed(fetched.error);
    }
    var cut := CutFor(details.resolution, env.delDict);
    if cut.Err? {
      return Failed(cut.error);
    }
    var children := DisaggregateRows(data, fetched.value.0, cut.value);
    if children.Err? {
      return Failed(children.error);
    }
    if |data.rows| == 0 {
      return Failed(ValueError("No objects to concatenate"));
    }
    var ids := ProxyIds(env.keys);
    if ids.Err? {
      return Failed(ids.error);
    }
    var rows := ChildRows(children.value, ids.value);
    var aggregated := AggregateAndAddToDb(Frame(ProxyColumns, rows), env.aggMethod, env.delDict, env.db.regions);
    log := Then(Log([RegionData(Records(rows))], None),
                Then(aggregated, Log([ProxyMetrics(ids.value.varDetail, fetched.value.1)], None)));
  }

  // ---------------------------------------------------------------------------
  // `perform_post_calculation_and_add_data`
  // ---------------------------------------------------------------------------

  /** The LAU regions whose parent code, cut to the data's resolution, is
      `code`: the child regions of `code`, in LAU order. */
  function ChildRegions(laus: seq<Region>, cut: Option<int>, code: string): (ms: seq<Region>)
    ensures forall g :: g in ms <==> g in laus && CutCode(cut, g.parentRegionCode) == code
    decreases |laus|
  {
    if laus == [] then []
    else
      assert laus == laus[..|laus| - 1] + [laus[|laus| - 1]];
      var init := ChildRegions(laus[..|laus| - 1], cut, code);
      var g := laus[|laus| - 1];
      if CutCode(cut, g.parentRegionCode) == code then init + [g] else init
  }

  function ChildMatch(laus: seq<Region>, cut: Option<int>): InputRow -> seq<Region> {
    (d: InputRow) => ChildRegions(laus, cut, d.regCode)
  }

  /** The keys of the same-value path, looked up in its order. */
  function SameValueIds(keys: Keys): Result<Ids> {
    var varDetail :- keys.varDetail;
    var citation :- keys.citation;
    var originalResolution :- keys.originalResolution;
    var method_ :- keys.sameValueMethod;
    Ok(Ids(varDetail, citation, originalResolution, Some(method_), None))
  }

  /** The merged table of the same-value path. */
  function SameValueRows(data: InputTable, env: Env, cut: Option<int>, ids: Ids): seq<Row> {
    MergedRows(data, ChildMatch(GetRegions(env.db.regions, "LAU", "all"), cut), env.experiments, ids)
  }

  /** `perform_post_calculation_and_add_data`: every LAU region under a row's
      `reg_code` receives that row's value; the rows are written and
      aggregated upwards. */
  function PerformPostCalculation(data: InputTable, details: Details, env: Env): Log {
    match CutFor(details.resolution, env.delDict)
    case Err(e) => Failed(e)
    case Ok(cut) =>
      match SameValueIds(env.keys)
      case Err(e) => Failed(e)
      case Ok(ids) =>
        var rows := SameValueRows(data, env, cut, ids);
        Then(Log([RegionData(Records(rows))], None),
             AggregateAndAdd(Frame(CarriedColumns(data.columns) + {DisaggregationMethodId}, rows),
                             env.aggMethod, env.delDict, env.db.regions))
  }

  /** Every LAU region under an input row receives a row with that row's value. */
  lemma SameValueCoversChildren(data: InputTable, env: Env, cut: Option<int>, ids: Ids, i: nat, g: Region)
    requires i < |data.rows|
    requires g in env.db.regions && g.resolution == "LAU" && CutCode(cut, g.parentRegionCode) == data.rows[i].regCode
    ensures exists r :: r in SameValueRows(data, env, cut, ids) && r.rec.regionId == Some(g.id) && r.rec.value == data.rows[i].value
  {
    var laus := GetRegions(env.db.regions, "LAU", "all");
    assert g in ChildMatch(laus, cut)(data.rows[i]);
    MergedRowsCoverage(data, ChildMatch(laus, cut), env.experiments, ids, i, g);
  }

  /** Every row written is a child region of the input row whose value it carries. */
  lemma SameValueRowsAreChildren(data: InputTable, env: Env, cut: Option<int>, ids: Ids, r: Row)
    requires r in SameValueRows(data, env, cut, ids)
    ensures exists i :: (0 <= i < |data.rows| && FromInput(data.columns, data.rows[i], ids, r)
      && (r.rec.regionId.Some? ==>
            exists g :: g in env.db.regions && g.resolution == "LAU" && r.rec.regionId == Some(g.id)
              && CutCode(cut, g.parentRegionCode) == data.rows[i].regCode))
  {
    var laus := GetRegions(env.db.regions, "LAU", "all");
    MergedRowsProvenance(data, ChildMatch(laus, cut), env.experiments, ids, r);
  }

  // ---------------------------------------------------------------------------
  // `process_and_add_input_data`
  // ---------------------------------------------------------------------------

  /** The entries of an `input_data` row that decide its path. */
  datatype InputUnit = InputUnit(
    varName: string,
    onTheFlyCalculation: Option<string>,
    proxy: Option<string>,
    postCalculation: Option<string>)

  /** The branch `process_and_add_input_data` takes. */
  datatype Action = SkippedOnTheFly | NothingToAdd | LauDirect | ProxyDisaggregation | SameValueCopy | Rejected

  /** The branch taken, and what it wrote before it stopped, if it did; every
      failure is caught and logged. */
  datatype Outcome = Outcome(action: Action, log: Log)

  predicate HasPrefix(s: string, prefixes: seq<string>) {
    exists p :: p in prefixes && StartsWith(s, p)
  }

  /** The rows whose code (`prnt_code` or `reg_code`) starts with one of the prefixes, in order. */
  function KeepRows(rows: seq<InputRow>, byParent: bool, prefixes: seq<string>): (kept: seq<InputRow>)
    ensures forall d :: d in kept <==> d in rows && HasPrefix(if byParent then d.prntCode else d.regCode, prefixes)
    ensures forall d :: multiset(kept)[d] ==
                        (if HasPrefix(if byParent then d.prntCode else d.regCode, prefixes) then multiset(rows)[d] else 0)
    decreases |rows|
  {
    if rows == [] then []
    else
      assert rows == rows[..|rows| - 1] + [rows[|rows| - 1]];
      var init := KeepRows(rows[..|rows| - 1], byParent, prefixes);
      var d := rows[|rows| - 1];
      if HasPrefix(if byParent then d.prntCode else d.regCode, prefixes) then init + [d] else init
  }

  lemma {:induction false} KeepNone(rows: seq<InputRow>, byParent: bool, prefixes: seq<string>)
    requires forall d :: d in rows ==> !HasPrefix(if byParent then d.prntCode else d.regCode, prefixes)
    ensures KeepRows(rows, byParent, prefixes) == []
    decreases |rows|
  {
    if rows != [] {
      var init := rows[..|rows| - 1];
      assert forall d :: d in init ==> d in rows;
      KeepNone(init, byParent, prefixes);
      assert rows[|rows| - 1] in rows;
    }
  }

  /** The country subset: LAU data by `prnt_code`, other data by `reg_code`.
      The prefixes are a parameter: ("PT",) for a local database, ("PL", "DE",
      "ES") otherwise. */
  function CountrySubset(data: InputTable, resolution: string, prefixes: seq<string>): (r: Result<InputTable>)
    ensures r.Err? <==> resolution == "LAU" && PrntCode !in data.columns
    ensures r.Ok? ==> r.value.columns == data.columns
    ensures r.Ok? ==> forall d :: d in r.value.rows <==> d in data.rows && HasPrefix(if resolution == "LAU" then d.prntCode else d.regCode, prefixes)
    ensures r.Ok? ==> forall d :: multiset(r.value.rows)[d] ==
                        (if HasPrefix(if resolution == "LAU" then d.prntCode else d.regCode, prefixes) then multiset(data.rows)[d] else 0)
  {
    if resolution == "LAU" then
      if PrntCode !in data.columns then Err(KeyError("prnt_code"))
      else Ok(InputTable(data.columns, KeepRows(data.rows, true, prefixes)))
    else Ok(InputTable(data.columns, KeepRows(data.rows, false, prefixes)))
  }

  /** The message of the error raised for non-LAU data with neither a proxy nor a `post_calculation`. */
  const NoPathMessage: string := "Either the data should be at LAU resolution. or one of proxy or post_calculation should be provided"

  /** The message of the error raised for a EUCalc unit with neither a proxy nor a `post_calculation`. */
  const NoProxyMessage: string := "atleast one of proxy and post_calculation should be provided"

  /** The text of a `post_calculation` that copies the value to every child region. */
  const SameValueAllRegions: string := "same value all regions"

  /** The branch `process_and_add_input_data` takes for one variable. */
  function InputAction(unit: InputUnit, data: InputTable, details: Details, prefixes: seq<string>): Action {
    if unit.onTheFlyCalculation.Some? then SkippedOnTheFly
    else
      match CountrySubset(data, details.resolution, prefixes)
      case Err(_) => Rejected
      case Ok(subset) =>
        if subset.rows == [] then NothingToAdd
        else if details.resolution == "LAU" then LauDirect
        else if unit.proxy.Some? then ProxyDisaggregation
        else if unit.postCalculation == Some(SameValueAllRegions) then SameValueCopy
        else Rejected
  }

  /** What happens to a variable once its rows from the chosen countries are
      known and there is at least one: LAU data is written directly, a proxy
      is disaggregated, and otherwise only a same-value copy is accepted. */
  function SubsetOutcome(unit: InputUnit, subset: InputTable, details: Details, env: Env): Outcome {
    if details.resolution == "LAU" then Outcome(LauDirect, ProcessLauData(subset, env))
    else if unit.proxy.Some? then Outcome(ProxyDisaggregation, DisaggregateAndAdd(subset, details, unit.proxy.value, env))
    else if unit.postCalculation == Some(SameValueAllRegions) then
      Outcome(SameValueCopy, PerformPostCalculation(subset, details, env))
    else if unit.postCalculation.Some? then Outcome(Rejected, Failed(ValueError("unknown post_calculation")))
    else Outcome(Rejected, Failed(ValueError(NoPathMessage)))
  }

  /** `process_and_add_input_data` for one variable, given its table, its
      details and what the paths read from the database. */
  function InputOutcome(unit: InputUnit, data: InputTable, details: Details, prefixes: seq<string>, env: Env): Outcome {
    if unit.onTheFlyCalculation.Some? then Outcome(SkippedOnTheFly, Log([], None))
    else
      match CountrySubset(data, details.resolution, prefixes)
      case Err(e) => Outcome(Rejected, Failed(e))
      case Ok(subset) =>
        if subset.rows == [] then Outcome(NothingToAdd, Log([], None))
        else SubsetOutcome(unit, subset, details, env)
  }

  /** The branch recorded in the outcome is the one the dispatch rules choose. */
  lemma OutcomeAction(unit: InputUnit, data: InputTable, details: Details, prefixes: seq<string>, env: Env)
    ensures InputOutcome(unit, data, details, prefixes, env).action == InputAction(unit, data, details, prefixes)
  {
  }

  /** The dispatch rules: which branch runs for which input. LAU data is
      written directly whatever its proxy, a proxy wins over a
      `post_calculation`, and any other `post_calculation` is rejected. */
  lemma DispatchRules(unit: InputUnit, data: InputTable, details: Details, prefixes: seq<string>)
    ensures InputAction(unit, data, details, prefixes) == SkippedOnTheFly <==> unit.onTheFlyCalculation.Some?
    ensures InputAction(unit, data, details, prefixes) == LauDirect <==>
              unit.onTheFlyCalculation.None? && details.resolution == "LAU" && PrntCode in data.columns &&
              CountrySubset(data, details.resolution, prefixes).value.rows != []
    ensures InputAction(unit, data, details, prefixes) == ProxyDisaggregation <==>
              unit.onTheFlyCalculation.None? && details.resolution != "LAU" && unit.proxy.Some? &&
              CountrySubset(data, details.resolution, prefixes).value.rows != []
    ensures InputAction(unit, data, details, prefixes) == SameValueCopy <==>
              unit.onTheFlyCalculation.None? && details.resolution != "LAU" && unit.proxy.None? &&
              unit.postCalculation == Some(SameValueAllRegions) && CountrySubset(data, details.resolution, prefixes).value.rows != []
    ensures InputAction(unit, data, details, prefixes) == Rejected && CountrySubset(data, details.resolution, prefixes).Ok? ==>
              details.resolution != "LAU" && unit.proxy.None? && unit.postCalculation != Some(SameValueAllRegions)
  {
  }

  /** A rejected, skipped or empty variable writes nothing. */
  lemma NothingWrittenWithoutPath(unit: InputUnit, data: InputTable, details: Details, prefixes: seq<string>, env: Env)
    requires InputAction(unit, data, details, prefixes) in {SkippedOnTheFly, NothingToAdd, Rejected}
    ensures InputOutcome(unit, data, details, prefixes, env).log.writes == []
    ensures InputOutcome(unit, data, details, prefixes, env).log.failure.None? <==>
              InputAction(unit, data, details, prefixes) != Rejected
  {
    if unit.onTheFlyCalculation.None? {
      var subset := CountrySubset(data, details.resolution, prefixes);
      if subset.Ok? && subset.value.rows != [] {
        assert details.resolution != "LAU" && unit.proxy.None? && unit.postCalculation != Some(SameValueAllRegions);
        SubsetRejected(unit, subset.value, details, env);
      }
    }
  }

  /** A non-LAU subset with neither a proxy nor a same-value copy is refused
      before anything is written. */
  lemma SubsetRejected(unit: InputUnit, subset: InputTable, details: Details, env: Env)
    requires details.resolution != "LAU" && unit.proxy.None? && unit.postCalculation != Some(SameValueAllRegions)
    ensures SubsetOutcome(unit, subset, details, env).action == Rejected
    ensures SubsetOutcome(unit, subset, details, env).log.writes == []
    ensures SubsetOutcome(unit, subset, details, env).log.failure.Some?
  {
  }

  /** When no row is from the chosen countries, nothing is written. */
  lemma NothingOutsideCountries(unit: InputUnit, data: InputTable, details: Details, prefixes: seq<string>)
    requires unit.onTheFlyCalculation.None? && (details.resolution != "LAU" || PrntCode in data.columns)
    requires forall d :: d in data.rows ==> !HasPrefix(if details.resolution == "LAU" then d.prntCode else d.regCode, prefixes)
    ensures InputAction(unit, data, details, prefixes) == NothingToAdd
  {
    KeepNone(data.rows, details.resolution == "LAU", prefixes);
  }

  /** `process_and_add_input_data` step by step. It is a method, beside the
      function `InputOutcome`, because it runs the proxy path through the loop
      method `DisaggregateAndAddData` (via `WriteSubset`). */
  method ProcessAndAddInputData(unit: InputUnit, data: InputTable, details: Details, prefixes: seq<string>, env: Env)
    returns (outcome: Outcome)
    ensures outcome == InputOutcome(unit, data, details, prefixes, env)
  {
    if unit.onTheFlyCalculation.Some? {
      return Outcome(SkippedOnTheFly, Log([], None));
    }
    var subset := CountrySubset(data, details.resolution, prefixes);
    if subset.Err? {
      return Outcome(Rejected, Failed(subset.error));
    }
    if |subset.value.rows| == 0 {
      return Outcome(NothingToAdd, Log([], None));
    }
    outcome := WriteSubset(unit, subset.value, details, env);
  }

  /** The branches of `process_and_add_input_data` that write the rows. It is
      a method, beside the function `SubsetOutcome`, because the proxy branch
      calls the loop method `DisaggregateAndAddData`. */
  method WriteSubset(unit: InputUnit, subset: InputTable, details: Details, env: Env) returns (outcome: Outcome)
    ensures outcome == SubsetOutcome(unit, subset, details, env)
  {
    if details.resolution == "LAU" {
      return Outcome(LauDirect, ProcessLauData(subset, env));
    }
    match unit.proxy {
      case Some(proxy) =>
        var log := DisaggregateAndAddData(subset, details, proxy, env);
        return Outcome(ProxyDisaggregation, log);
      case None =>
    }
    match unit.postCalculation {
      case Some(post) =>
        if post == SameValueAllRegions {
          return Outcome(SameValueCopy, PerformPostCalculation(subset, details, env));
        }
        return Outcome(Rejected, Failed(ValueError("unknown post_calculation")));
      case None =>
        return Outcome(Rejected, Failed(ValueError(NoPathMessage)));
    }
  }

  // ---------------------------------------------------------------------------
  // `process_and_add_eucalc_data`
  // ---------------------------------------------------------------------------

  /** One EUCalc value: a country total for a year, with how to spread it. */
  datatype EucalcUnit = EucalcUnit(
    varName: string,
    value: real,
    year: int,
    proxy: Option<string>,
    postCalculation: Option<string>,
    countryCode: string)

  function Values(rows: seq<ProxyRow>): (vs: seq<real>)
    ensures |vs| == |rows| && forall i :: 0 <= i < |rows| ==> vs[i] == rows[i].value
  {
    seq(|rows|, i requires 0 <= i < |rows| => rows[i].value)
  }

  /** A nonempty proxy whose every value is zero. */
  predicate AllZero(rows: seq<ProxyRow>) {
    rows != [] && forall i :: 0 <= i < |rows| ==> rows[i].value == 0.0
  }

  /** The test of `process_and_add_eucalc_data`: the values have exactly one
      distinct entry, and it is zero; it holds exactly on `AllZero` proxies. */
  function ZeroEverywhere(rows: seq<ProxyRow>): (z: bool)
    ensures z <==> AllZero(rows)
  {
    var vs := Values(rows);
    if |Elements(vs)| == 1 && vs[0] == 0.0 then
      OneElementAllEqual(vs);
      true
    else
      assert AllZero(rows) ==> Elements(vs) == {0.0} by {
        if AllZero(rows) {
          assert vs[0] in Elements(vs);
          assert forall x :: x in Elements(vs) ==> x == 0.0;
        }
      }
      false
  }

  /** The EUCalc proxy: as in the proxy path, but for the unit's country, and
      replaced by `population` when it is zero in every region. */
  function EucalcProxy(db: Database, proxy: string, country: string): (r: Result<(seq<ProxyRow>, seq<string>)>)
    ensures FetchProxy(db, proxy, country).Err? ==> r == FetchProxy(db, proxy, country)
    ensures FetchProxy(db, proxy, country).Ok? && !AllZero(FetchProxy(db, proxy, country).value.0) ==>
              r == FetchProxy(db, proxy, country)
    ensures FetchProxy(db, proxy, country).Ok? && AllZero(FetchProxy(db, proxy, country).value.0) ==>
              r == FetchProxy(db, "population", country)
  {
    var fetched :- FetchProxy(db, proxy, country);
    if ZeroEverywhere(fetched.0) then
      PopulationFetch(db, country);
      var population :- VarDataForDisaggregation(db, "population", country);
      Ok((population, ["population"]))
    else Ok(fetched)
  }

  /** "population" names a single variable, not an equation. */
  lemma PopulationFetch(db: Database, country: string)
    ensures FetchProxy(db, "population", country) ==
      match VarDataForDisaggregation(db, "population", country)
      case Err(e) => Err(e)
      case Ok(rows) => Ok((rows, ["population"]))
  {
    assert forall i :: 0 <= i < |"population"| ==> "population"[i] != '+';
  }

  lemma {:induction false} TotalNonNegative(rows: seq<ProxyRow>)
    requires forall i :: 0 <= i < |rows| ==> rows[i].value >= 0.0
    ensures Disaggregation.Total(rows) >= 0.0
    decreases |rows|
  {
    if rows != [] {
      TotalNonNegative(rows[1..]);
    }
  }

  lemma {:induction false} TotalPositive(rows: seq<ProxyRow>, k: nat)
    requires k < |rows| && rows[k].value > 0.0
    requires forall i :: 0 <= i < |rows| ==> rows[i].value >= 0.0
    ensures Disaggregation.Total(rows) > 0.0
    decreases |rows|
  {
    if k > 0 {
      TotalPositive(rows[1..], k - 1);
    } else {
      TotalNonNegative(rows[1..]);
    }
  }

  /** What the fallback buys: a nonempty, nonnegative proxy that is not all
      zero has a positive total, so it is split in proportion and never
      equally. */
  lemma FallbackAvoidsEqualSplit(rows: seq<ProxyRow>)
    requires rows != [] && !AllZero(rows)
    requires forall i :: 0 <= i < |rows| ==> rows[i].value >= 0.0
    ensures Disaggregation.Total(rows) > 0.0
    ensures !Disaggregation.DisaggregateValue(0.0, rows).value.zeroTotalWarning
  {
    var k :| 0 <= k < |rows| && rows[k].value != 0.0;
    TotalPositive(rows, k);
  }

  /** The keys of the EUCalc path, looked up in its order. */
  function EucalcIds(keys: Keys): Result<Ids> {
    var citation :- keys.citation;
    var pathway :- keys.pathway;
    var varDetail :- keys.varDetail;
    var originalResolution :- keys.originalResolution;
    var method_ :- keys.proxyMethod;
    Ok(Ids(varDetail, citation, originalResolution, Some(method_), Some(pathway)))
  }

  /** Every LAU region with the same value. */
  function SameValueShares(laus: seq<Region>, value: real): (shares: seq<ProxyRow>)
    ensures |shares| == |laus|
    ensures forall i :: 0 <= i < |laus| ==>
              shares[i] == ProxyRow(laus[i].id, laus[i].regionCode, laus[i].parentRegionCode, value)
  {
    seq(|laus|, i requires 0 <= i < |laus| => ProxyRow(laus[i].id, laus[i].regionCode, laus[i].parentRegionCode, value))
  }

  /** The LAU shares of a unit, and the proxy variables to record when a proxy
      was used. The same-value branch copies the value to the LAU regions of
      `scope` (a country code, or "all"). */
  function EucalcSharesIn(unit: EucalcUnit, env: Env, scope: string): Result<(seq<ProxyRow>, Option<seq<string>>)> {
    match unit.proxy
    case Some(proxy) =>
      var fetched :- EucalcProxy(env.db, proxy, unit.countryCode);
      var res :- Disaggregation.DisaggregateValue(unit.value, fetched.0);
      Ok((res.rows, Some(fetched.1)))
    case None =>
      match unit.postCalculation
      case Some(post) =>
        if post == SameValueAllRegions then Ok((SameValueShares(GetRegions(env.db.regions, "LAU", scope), unit.value), None))
        else if '+' !in post then Err(ValueError("unknown post_calculation"))
        // A "+" post_calculation assigns nothing and falls through to the first use of `db_ready_df`.
        else Err(UnboundLocalError("db_ready_df"))
      case None => Err(ValueError(NoProxyMessage))
  }

  /** The shares as intended: the same-value branch stays inside the unit's
      country, as the proxy branch does. */
  function EucalcShares(unit: EucalcUnit, env: Env): Result<(seq<ProxyRow>, Option<seq<string>>)> {
    EucalcSharesIn(unit, env, unit.countryCode)
  }

  /** The shares as written: `get_regions("LAU")` is called without the
      country, so the same value goes to every LAU region in the store. */
  function EucalcSharesAsWritten(unit: EucalcUnit, env: Env): Result<(seq<ProxyRow>, Option<seq<string>>)> {
    EucalcSharesIn(unit, env, "all")
  }

  /** The discrepancy: as written, a LAU region outside the unit's country
      receives the unit's value. */
  lemma EucalcSameValueLeavesCountry(unit: EucalcUnit, env: Env, g: Region)
    requires unit.proxy.None? && unit.postCalculation == Some(SameValueAllRegions)
    requires g in env.db.regions && g.resolution == "LAU" && !InCountry("LAU", unit.countryCode, g)
    ensures EucalcSharesAsWritten(unit, env).Ok?
    ensures ProxyRow(g.id, g.regionCode, g.parentRegionCode, unit.value) in EucalcSharesAsWritten(unit, env).value.0
  {
    var laus := GetRegions(env.db.regions, "LAU", "all");
    var k :| 0 <= k < |laus| && laus[k] == g;
    assert SameValueShares(laus, unit.value)[k] == ProxyRow(g.id, g.regionCode, g.parentRegionCode, unit.value);
  }

  /** As intended, the same value goes to exactly the LAU regions of the
      unit's country. */
  lemma EucalcSameValueStaysInCountry(unit: EucalcUnit, env: Env)
    requires unit.proxy.None? && unit.postCalculation == Some(SameValueAllRegions)
    ensures EucalcShares(unit, env).Ok? && EucalcShares(unit, env).value.1.None?
    ensures forall p :: p in EucalcShares(unit, env).value.0 ==>
      p.value == unit.value &&
      exists g :: g in env.db.regions && g.resolution == "LAU" && InCountry("LAU", unit.countryCode, g) && g.id == p.regionId
    ensures forall g :: g in env.db.regions && g.resolution == "LAU" && InCountry("LAU", unit.countryCode, g) ==>
      ProxyRow(g.id, g.regionCode, g.parentRegionCode, unit.value) in EucalcShares(unit, env).value.0
  {
    var laus := GetRegions(env.db.regions, "LAU", unit.countryCode);
    var shares := SameValueShares(laus, unit.value);
    forall p | p in shares
      ensures p.value == unit.value &&
        exists g :: g in env.db.regions && g.resolution == "LAU" && InCountry("LAU", unit.countryCode, g) && g.id == p.regionId
    {
      var k :| 0 <= k < |shares| && shares[k] == p;
      assert laus[k] in laus;
    }
    forall g | g in env.db.regions && g.resolution == "LAU" && InCountry("LAU", unit.countryCode, g)
      ensures ProxyRow(g.id, g.regionCode, g.parentRegionCode, unit.value) in shares
    {
      var k :| 0 <= k < |laus| && laus[k] == g;
      assert shares[k] == ProxyRow(g.id, g.regionCode, g.parentRegionCode, unit.value);
    }
  }

  /** A LAU share as a row of the EUCalc table. */
  function EucalcRows(shares: seq<ProxyRow>, year: int, ids: Ids): (rows: seq<Row>)
    ensures |rows| == |shares|
  {
    seq(|shares|, i requires 0 <= i < |shares| =>
      var p := shares[i];
      Row(
        Record(Some(p.regionId), ids.varDetail, ids.pathway, ids.originalResolution, None,
               ids.disaggregationMethod, ids.citation, Some(year), p.value, None, None, 1),
        Some(p.parentRegionCode)))
  }

  /** The columns of the table the EUCalc path aggregates. */
  const EucalcColumns: set<Column> := {Year, PathwayId, DisaggregationMethodId}

  /** `process_and_add_eucalc_data` as intended: spread the value over the LAU
      regions of the unit's country, write them, aggregate them upwards and, when a proxy was used,
      record it. Nothing is caught: the failure is the exception raised. */
  function ProcessEucalc(unit: EucalcUnit, env: Env): Log {
    ProcessEucalcWith(unit, env, EucalcShares(unit, env))
  }

  /** The run once the shares are known. */
  function ProcessEucalcWith(unit: EucalcUnit, env: Env, shares: Result<(seq<ProxyRow>, Option<seq<string>>)>): Log {
    match shares
    case Err(e) => Failed(e)
    case Ok(shared) =>
      match EucalcIds(env.keys)
      case Err(e) => Failed(e)
      case Ok(ids) =>
        var rows := EucalcRows(shared.0, unit.year, ids);
        var body := Then(Log([RegionData(Records(rows))], None),
                         AggregateAndAdd(Frame(EucalcColumns, rows), env.aggMethod, env.delDict, env.db.regions));
        match shared.1
        case None => body
        case Some(names) => Then(body, Log([ProxyMetrics(ids.varDetail, names)], None))
  }

  /** `process_and_add_eucalc_data` as written: the same-value branch copies
      the value to every LAU region in the store and never assigns
      `proxy_vars`, so the final `add_to_proxy_metrics` raises
      UnboundLocalError after everything else was written. */
  function ProcessEucalcAsWritten(unit: EucalcUnit, env: Env): Log {
    var log := ProcessEucalcWith(unit, env, EucalcSharesAsWritten(unit, env));
    if log.failure.None? && unit.proxy.None? then Log(log.writes, Some(UnboundLocalError("proxy_vars"))) else log
  }

  /** The discrepancy: a same-value run of the code as written that writes
      everything still ends in an exception, after the LAU batch and one batch
      per NUTS level. */
  lemma EucalcSameValueEndsInError(unit: EucalcUnit, env: Env)
    requires unit.proxy.None? && unit.postCalculation == Some(SameValueAllRegions)
    requires ProcessEucalcWith(unit, env, EucalcSharesAsWritten(unit, env)).failure.None?
    ensures ProcessEucalcAsWritten(unit, env).failure == Some(UnboundLocalError("proxy_vars"))
    ensures ProcessEucalcAsWritten(unit, env).writes == ProcessEucalcWith(unit, env, EucalcSharesAsWritten(unit, env)).writes
    ensures |ProcessEucalcAsWritten(unit, env).writes| == 1 + |NutsLevels|
  {
  }

  /** Without a proxy, the intended EUCalc run records no proxy variables: every
      write it makes, however far it gets, is a batch of `region_data` rows. */
  lemma EucalcSameValueWritesOnlyRegionData(unit: EucalcUnit, env: Env)
    requires unit.proxy.None?
    ensures forall w :: w in ProcessEucalc(unit, env).writes ==> w.RegionData?
  {
    var shared := EucalcShares(unit, env);
    var ids := EucalcIds(env.keys);
    if shared.Ok? && ids.Ok? {
      assert shared.value.1.None?;
      var rows := EucalcRows(shared.value.0, unit.year, ids.value);
      var agg := AggregateAndAdd(Frame(EucalcColumns, rows), env.aggMethod, env.delDict, env.db.regions);
      AggregateAndAddWritesRegionData(Frame(EucalcColumns, rows), env.aggMethod, env.delDict, env.db.regions);
      assert ProcessEucalc(unit, env) == Then(Log([RegionData(Records(rows))], None), agg);
    }
  }

  /** A successful EUCalc run with a proxy writes the LAU rows, one batch per
      NUTS level and the proxy record, and the LAU rows add up to the value. */
  lemma EucalcProxyConserves(unit: EucalcUnit, env: Env)
    requires unit.proxy.Some? && EucalcShares(unit, env).Ok?
    ensures Disaggregation.Total(EucalcShares(unit, env).value.0) == unit.value
    ensures ProcessEucalc(unit, env).failure.None? ==> |ProcessEucalc(unit, env).writes| == 2 + |NutsLevels|
  {
    var fetched := EucalcProxy(env.db, unit.proxy.value, unit.countryCode).value;
    Disaggregation.Conservation(unit.value, fetched.0);
  }

  /** `process_and_add_eucalc_data` step by step. */
  method ProcessAndAddEucalcData(unit: EucalcUnit, env: Env) returns (log: Log)
    ensures log == ProcessEucalc(unit, env)
  {
    var shared := EucalcShares(unit, env);
    if shared.Err? {
      return Failed(shared.error);
    }
    var ids := EucalcIds(env.keys);
    if ids.Err? {
      return Failed(ids.error);
    }
    var rows := EucalcRows(shared.value.0, unit.year, ids.value);
    var aggregated := AggregateAndAddToDb(Frame(EucalcColumns, rows), env.aggMethod, env.delDict, env.db.regions);
    log := Then(Log([RegionData(Records(rows))], None), aggregated);
    if shared.value.1.Some? {
      log := Then(log, Log([ProxyMetrics(ids.value.varDetail, shared.value.1.value)], None));
    }
  }
}
