/** The non-I/O parts of zoomin/database/db_access.py: the text of the
    SELECT and UPDATE commands, the rule that collapses a fetched column to a
    single value or a list, the single-primary-key check, and the country filter
    on the regions table. Executing SQL is left to the caller: a fetched column
    and the regions table are parameters. */
module DbAccess {
  import opened Wrappers
  import opened Text

  /** A Python value put into a command: a string, an int or a tuple of ints. */
  datatype SqlValue = SqlStr(s: string) | SqlInt(i: int) | SqlTuple(t: seq<int>)

  /** Python's `str(val)` inside an f-string. */
  function Show(v: SqlValue): string {
    match v
    case SqlStr(s) => s
    case SqlInt(i) => IntToString(i)
    case SqlTuple(t) => TupleToString(t)
  }

  /** Criteria and column assignments, in dict insertion order. */
  type Criteria = seq<(string, SqlValue)>

  /** One item `key='val'` for a string and `key=val` otherwise. */
  function Assignment(key: string, v: SqlValue): (r: string)
    ensures |r| > |key| + 1 && r[..|key| + 1] == key + "="
    // the value is quoted exactly when it is a string
    ensures r[|key| + 1] == '\'' <==> v.SqlStr?
    ensures v.SqlStr? ==> r[|key| + 1..] == "'" + v.s + "'"
    ensures !v.SqlStr? ==> r[|key| + 1..] == Show(v)
  {
    if v.SqlStr? then key + "='" + v.s + "'" else key + "=" + Show(v)
  }

  /** The rendered items of a criteria dict, in order. */
  function Assignments(cs: Criteria): (items: seq<string>)
    ensures |items| == |cs|
    ensures forall i :: 0 <= i < |cs| ==> items[i] == Assignment(cs[i].0, cs[i].1)
  {
    seq(|cs|, i requires 0 <= i < |cs| => Assignment(cs[i].0, cs[i].1))
  }

  /** `" AND ".join(...)` over the rendered criteria. */
  function WhereClause(cs: Criteria): string {
    JoinWith(Assignments(cs), " AND ")
  }

  /** The command `get_col_values` sends; `None` is a call without criteria. */
  function SelectQuery(table: string, col: string, criteria: Option<Criteria>): (q: string)
    ensures criteria.None? ==> q == "SELECT " + col + " FROM " + table
    ensures criteria.Some? ==> q == "SELECT " + col + " FROM " + table + " WHERE " + WhereClause(criteria.value)
  {
    var base := "SELECT " + col + " FROM " + table;
    match criteria
    case None => base
    case Some(cs) => base + " WHERE " + WhereClause(cs)
  }

  /** Adding criteria splits the WHERE clause at one more " AND ": the clause of a
      concatenation is the two clauses joined by " AND ". */
  lemma WhereClauseAppend(a: Criteria, b: Criteria)
    requires a != [] && b != []
    ensures WhereClause(a + b) == WhereClause(a) + " AND " + WhereClause(b)
  {
    assert Assignments(a + b) == Assignments(a) + Assignments(b);
    JoinWithAppend(Assignments(a), Assignments(b), " AND ");
  }

  /** A criteria dict with one entry renders as exactly that entry. */
  lemma WhereClauseSingle(key: string, v: SqlValue)
    ensures WhereClause([(key, v)]) == Assignment(key, v)
  {
  }

  /** What `get_col_values` returns once the rows are fetched. */
  datatype Collapsed<T> = Single(value: T) | Many(values: seq<T>)

  function Elements<T>(s: seq<T>): set<T> {
    set x | x in s
  }

  lemma {:induction false} OneElementAllEqual<T>(s: seq<T>)
    requires s != []
    ensures |Elements(s)| == 1 <==> forall i :: 0 <= i < |s| ==> s[i] == s[0]
  {
    if forall i :: 0 <= i < |s| ==> s[i] == s[0] {
      assert Elements(s) == {s[0]};
    } else {
      var i :| 0 <= i < |s| && s[i] != s[0];
      assert {s[0], s[i]} <= Elements(s);
      assert |{s[0], s[i]}| == 2;
      SubsetCard({s[0], s[i]}, Elements(s));
    }
  }

  lemma SubsetCard<T>(a: set<T>, b: set<T>)
    requires a <= b
    ensures |a| <= |b|
  {
    assert b == a + (b - a);
  }

  /** The collapse rule of `get_col_values`: no row is an error, a column whose
      values are all equal (`np.unique` has one element) gives that value however
      often it repeats, and any other column is returned in full and in order. */
  function CollapseResult<T(==)>(result: seq<T>): (r: Result<Collapsed<T>>)
    ensures r.Err? <==> result == []
    ensures r.Err? ==> r.error.ValueError?
    ensures r.Ok? && r.value.Single? <==>
              result != [] && forall i :: 0 <= i < |result| ==> result[i] == result[0]
    ensures r.Ok? && r.value.Single? ==> r.value.value == result[0]
    ensures r.Ok? && r.value.Many? ==>
              r.value.values == result && exists i :: 0 <= i < |result| && result[i] != result[0]
  {
    if result == [] then Err(ValueError("the value/values do not exist in the DB"))
    else
      OneElementAllEqual(result);
      if |Elements(result)| == 1 then Ok(Single(result[0])) else Ok(Many(result))
  }

  /** `get_primary_key` on a fetched `id` column: it succeeds only when the
      column collapses to a single int. */
  function PrimaryKey(fetched: seq<SqlValue>): (r: Result<int>)
    ensures r.Ok? <==>
              fetched != [] && fetched[0].SqlInt? && forall i :: 0 <= i < |fetched| ==> fetched[i] == fetched[0]
    ensures r.Ok? ==> fetched[0] == SqlInt(r.value)
    ensures fetched == [] ==> r == Err(ValueError("the value/values do not exist in the DB"))
  {
    match CollapseResult<SqlValue>(fetched)
    case Err(e) => Err(e)
    case Ok(Single(SqlInt(k))) => Ok(k)
    case Ok(_) => Err(ValueError("many primary keys returned."))
  }

  /** A row of the `regions` table. */
  datatype Region = Region(id: int, regionCode: string, parentRegionCode: string, resolution: string)

  /** LAU codes do not hold the country, so LAU regions are filtered on their
      parent code and every other level on its own code. */
  function CountryColumn(resolution: string): string {
    if resolution == "LAU" then "parent_region_code" else "region_code"
  }

  function ColumnOf(r: Region, column: string): string {
    if column == "parent_region_code" then r.parentRegionCode else r.regionCode
  }

  /** The condition `get_regions` adds for `country`; "all" adds none. */
  predicate InCountry(resolution: string, country: string, r: Region) {
    country == "all" || StartsWith(ColumnOf(r, CountryColumn(resolution)), country)
  }

  /** The command `get_regions` sends. */
  function RegionsQuery(resolution: string, country: string): (q: string)
    ensures country == "all" ==>
              q == "SELECT id, region_code, parent_region_code FROM regions WHERE resolution='" + resolution + "'"
    ensures country != "all" ==>
              q == "SELECT id, region_code, parent_region_code FROM regions WHERE resolution='" + resolution + "'"
                   + " AND " + CountryColumn(resolution) + " LIKE '" + country + "%%'"
  {
    var base := "SELECT id, region_code, parent_region_code FROM regions WHERE resolution='" + resolution + "'";
    if country != "all" then base + " AND " + CountryColumn(resolution) + " LIKE '" + country + "%%'" else base
  }

  /** The rows that command selects from the regions table, in table order. */
  function GetRegions(table: seq<Region>, resolution: string, country: string): (rs: seq<Region>)
    ensures |rs| <= |table|
    ensures forall r :: r in rs ==> r in table && r.resolution == resolution && InCountry(resolution, country, r)
    ensures forall r :: r in table && r.resolution == resolution && InCountry(resolution, country, r) ==> r in rs
    decreases |table|
  {
    if table == [] then []
    else
      var rest := GetRegions(table[1..], resolution, country);
      if table[0].resolution == resolution && InCountry(resolution, country, table[0])
      then [table[0]] + rest else rest
  }

  /** For a specific country an LAU region is selected by the prefix of its
      parent code and a region of another level by the prefix of its own code. */
  lemma GetRegionsCountryRule(table: seq<Region>, resolution: string, country: string, r: Region)
    requires r in table && r.resolution == resolution && country != "all"
    ensures resolution == "LAU" ==> (r in GetRegions(table, resolution, country) <==> StartsWith(r.parentRegionCode, country))
    ensures resolution != "LAU" ==> (r in GetRegions(table, resolution, country) <==> StartsWith(r.regionCode, country))
  {
  }

  /** `len(val)`; an int has none. */
  function Len(v: SqlValue): Result<nat> {
    match v
    case SqlStr(s) => Ok(|s|)
    case SqlInt(_) => Err(TypeError)
    case SqlTuple(t) => Ok(|t|)
  }

  /** One WHERE item of `add_col_values`: `key IN val` for more than one
      element, `key=val[0]` otherwise. */
  function InItem(key: string, v: SqlValue): (r: Result<string>)
    ensures r.Err? <==> v.SqlInt? || v == SqlStr([]) || v == SqlTuple([])
    ensures v.SqlStr? && |v.s| > 1 ==> r == Ok(key + " IN " + v.s)
    ensures v.SqlTuple? && |v.t| > 1 ==> r == Ok(key + " IN " + TupleToString(v.t))
    ensures v.SqlStr? && |v.s| == 1 ==> r == Ok(key + "=" + v.s)
    ensures v.SqlTuple? && |v.t| == 1 ==> r == Ok(key + "=" + IntToString(v.t[0]))
  {
    match Len(v)
    case Err(e) => Err(e)
    case Ok(n) =>
      if n > 1 then Ok(key + " IN " + Show(v))
      else if n == 0 then Err(IndexError)
      else match v
        case SqlStr(s) => Ok(key + "=" + s)
        case SqlTuple(t) => Ok(key + "=" + IntToString(t[0]))
  }

  /** A one-element tuple criterion renders like the plain int criterion of
      `get_col_values`. */
  lemma InItemSingleton(key: string, x: int)
    ensures InItem(key, SqlTuple([x])) == Ok(Assignment(key, SqlInt(x)))
  {
  }

  function InItems(cs: Criteria): (r: Result<seq<string>>)
    ensures r.Ok? ==> |r.value| == |cs|
    ensures r.Ok? <==> forall i :: 0 <= i < |cs| ==> InItem(cs[i].0, cs[i].1).Ok?
    ensures r.Ok? ==> forall i :: 0 <= i < |cs| ==> r.value[i] == InItem(cs[i].0, cs[i].1).value
    decreases |cs|
  {
    if cs == [] then Ok([])
    else match InItem(cs[0].0, cs[0].1)
      case Err(e) => Err(e)
      case Ok(first) =>
        match InItems(cs[1..])
        case Err(e) => Err(e)
        case Ok(rest) => Ok([first] + rest)
  }

  /** The command `add_col_values` sends, or the exception raised while building it. */
  function UpdateQuery(table: string, colValues: Criteria, criteria: Option<Criteria>): (r: Result<string>)
    ensures criteria.None? ==> r == Ok("UPDATE " + table + " SET " + JoinWith(Assignments(colValues), ", "))
    ensures criteria.Some? ==>
              (r.Ok? <==> forall i :: 0 <= i < |criteria.value| ==> InItem(criteria.value[i].0, criteria.value[i].1).Ok?)
    ensures criteria.Some? && r.Ok? ==>
              r.value == "UPDATE " + table + " SET " + JoinWith(Assignments(colValues), ", ")
                         + " WHERE " + JoinWith(InItems(criteria.value).value, " AND ")
  {
    var base := "UPDATE " + table + " SET " + JoinWith(Assignments(colValues), ", ");
    match criteria
    case None => Ok(base)
    case Some(cs) =>
      match InItems(cs)
      case Err(e) => Err(e)
      case Ok(items) => Ok(base + " WHERE " + JoinWith(items, " AND "))
  }

  /** A row of `get_var_data_for_disaggregation`'s result: an LAU region and its value. */
  datatype ProxyRow = ProxyRow(regionId: int, regionCode: string, parentRegionCode: string, value: real)

  /** The parts of the database that the reads of this model consult. */
  datatype VarDetail = VarDetail(id: int, varName: string)
  datatype RegionValue = RegionValue(varDetailId: int, regionId: int, value: real)
  datatype Database = Database(varDetails: seq<VarDetail>, regionData: seq<RegionValue>, regions: seq<Region>)

  /** The `id` column fetched for `{"var_name": name}`. */
  function IdsNamed(vs: seq<VarDetail>, name: string): (ids: seq<SqlValue>)
    ensures forall x :: x in ids <==> exists v :: v in vs && v.varName == name && x == SqlInt(v.id)
    decreases |vs|
  {
    if vs == [] then []
    else (if vs[0].varName == name then [SqlInt(vs[0].id)] else []) + IdsNamed(vs[1..], name)
  }

  /** `get_primary_key("var_details", {"var_name": name})`. */
  function VarDetailId(db: Database, name: string): Result<int> {
    PrimaryKey(IdsNamed(db.varDetails, name))
  }

  /** The values of one variable merged (inner join on `region_id = id`) with the
      regions it is joined to, in the order of the values. */
  function JoinRegions(values: seq<RegionValue>, varId: int, regions: seq<Region>): (rows: seq<ProxyRow>)
    ensures forall p :: p in rows ==>
              (exists v, g :: v in values && g in regions && v.varDetailId == varId && v.regionId == g.id
                 && p == ProxyRow(v.regionId, g.regionCode, g.parentRegionCode, v.value))
    ensures forall v, g :: v in values && g in regions && v.varDetailId == varId && v.regionId == g.id ==>
              ProxyRow(v.regionId, g.regionCode, g.parentRegionCode, v.value) in rows
    decreases |values|
  {
    if values == [] then []
    else
      var v := values[0];
      var here := if v.varDetailId == varId then RegionsOf(v, regions) else [];
      here + JoinRegions(values[1..], varId, regions)
  }

  function RegionsOf(v: RegionValue, regions: seq<Region>): (rows: seq<ProxyRow>)
    ensures forall p :: p in rows <==>
              exists g :: g in regions && v.regionId == g.id && p == ProxyRow(v.regionId, g.regionCode, g.parentRegionCode, v.value)
    decreases |regions|
  {
    if regions == [] then []
    else
      var g := regions[0];
      (if v.regionId == g.id then [ProxyRow(v.regionId, g.regionCode, g.parentRegionCode, v.value)] else [])
      + RegionsOf(v, regions[1..])
  }

  /** How many regions a value is joined to with the resulting row `p`. */
  function MatchCount(v: RegionValue, regions: seq<Region>, p: ProxyRow): nat
    decreases |regions|
  {
    if regions == [] then 0
    else
      var g := regions[0];
      (if v.regionId == g.id && p == ProxyRow(v.regionId, g.regionCode, g.parentRegionCode, v.value) then 1 else 0)
      + MatchCount(v, regions[1..], p)
  }

  /** How many pairs of a value of the variable and a region with its id give
      the row `p`. */
  function PairCount(values: seq<RegionValue>, varId: int, regions: seq<Region>, p: ProxyRow): nat
    decreases |values|
  {
    if values == [] then 0
    else (if values[0].varDetailId == varId then MatchCount(values[0], regions, p) else 0)
         + PairCount(values[1..], varId, regions, p)
  }

  /** How many regions carry the value's region id. */
  function RegionCount(v: RegionValue, regions: seq<Region>): nat
    decreases |regions|
  {
    if regions == [] then 0
    else (if regions[0].id == v.regionId then 1 else 0) + RegionCount(v, regions[1..])
  }

  /** How many pairs of a value of the variable and a region with its id exist. */
  function PairTotal(values: seq<RegionValue>, varId: int, regions: seq<Region>): nat
    decreases |values|
  {
    if values == [] then 0
    else (if values[0].varDetailId == varId then RegionCount(values[0], regions) else 0)
         + PairTotal(values[1..], varId, regions)
  }

  /** A value gives one row per region with its id. */
  lemma {:induction false} RegionsOfCount(v: RegionValue, regions: seq<Region>, p: ProxyRow)
    ensures |RegionsOf(v, regions)| == RegionCount(v, regions)
    ensures multiset(RegionsOf(v, regions))[p] == MatchCount(v, regions, p)
    decreases |regions|
  {
    if regions != [] {
      RegionsOfCount(v, regions[1..], p);
    }
  }

  /** The inner join holds one row per matching pair of a value and a region:
      nothing is merged away and nothing is repeated. */
  lemma {:induction false} JoinRegionsCount(values: seq<RegionValue>, varId: int, regions: seq<Region>, p: ProxyRow)
    ensures |JoinRegions(values, varId, regions)| == PairTotal(values, varId, regions)
    ensures multiset(JoinRegions(values, varId, regions))[p] == PairCount(values, varId, regions, p)
    decreases |values|
  {
    if values != [] {
      RegionsOfCount(values[0], regions, p);
      JoinRegionsCount(values[1..], varId, regions, p);
    }
  }

  /** `get_var_data_for_disaggregation`: the stored values of the variable at the
      LAU regions of `country`; an unknown or ambiguous name is an error. */
  function VarDataForDisaggregation(db: Database, name: string, country: string): Result<seq<ProxyRow>> {
    match VarDetailId(db, name)
    case Err(e) => Err(e)
    case Ok(id) => Ok(JoinRegions(db.regionData, id, GetRegions(db.regions, "LAU", country)))
  }

  /** The proxy series of a variable fails exactly when its name does not give
      a single key, and holds only LAU regions of the requested country. */
  lemma VarDataForDisaggregationRegions(db: Database, name: string, country: string)
    ensures VarDataForDisaggregation(db, name, country).Err? <==> VarDetailId(db, name).Err?
    ensures var r := VarDataForDisaggregation(db, name, country);
            r.Ok? ==> forall p :: p in r.value ==>
              exists g :: g in db.regions && g.resolution == "LAU" && InCountry("LAU", country, g)
                 && g.id == p.regionId && g.regionCode == p.regionCode && g.parentRegionCode == p.parentRegionCode
  {
  }
}
