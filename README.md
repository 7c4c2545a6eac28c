# zoomin disaggregation and aggregation engine in Dafny

zoomin collects statistics at many spatial resolutions and fills a database at
the finest level, the LAU (local administrative unit) regions. It fills the
coarser NUTS0 to NUTS3 levels from that. This project models the engine that
moves values between the levels, and proves its core promises:

- **Proportional disaggregation** (`disaggregate_value`). A value is spread
  over child regions in proportion to a proxy. A zero proxy gives an equal
  split, and an empty proxy divides by zero. The spread values add back up to
  the original value (`Disaggregation.Conservation`).
- **Additive proxies** (`add_proxy_vars`). An equation `a+b+c` names proxy
  variables. Their series are inner-joined on `(region_code, parent_region_code)`
  and their values are summed.
- **Upward aggregation** (`aggregate_and_add_to_db`). For each NUTS level,
  parent codes are cut to the level's length. Rows are grouped by parent code,
  climate experiment and year, and each group is reduced:
  - the value by `sum`, `mean` or `bool`;
  - the descriptor columns each to their single value;
  - the quality rating to its most frequent value.
  Each group is then merged with the region table.
- **Ingestion dispatch** (`process_and_add_input_data`,
  `process_and_add_eucalc_data`). The input is cut down to the configured
  countries. It then goes down one of three paths:
  - LAU data is added directly;
  - coarser data is disaggregated with a proxy;
  - or coarser data is copied to every child region ("same value all regions").
  The EUCalc path falls back to population when the proxy is zero everywhere.
- **Coverage annotation** (`zoomin/data/comparison.py`).
  - LAU data is marked `good`, and missing LAU regions are filled with 0 and
    marked `bad`.
  - NUTS data is mapped to the LAU regions below it.
  - Unknown values are filled with the residual of a coarser level.
  - Everything is then spread over the LAU regions with the GHSL population as
    proxy. Each share is marked `okay`, or `bad` with value 0 when no value
    was known.

Modelling choices:

- Values are `real`. A missing value (pandas NaN) is `Option`.
- Tables are sequences of datatypes. Errors are a `Result` whose `Error` names
  the Python exception (`ValueError`, `KeyError`, `ZeroDivisionError`,
  `UnboundLocalError`, ...).
- Database reads are parameters: a `Database`, `Store` or `Env` value.
- Database writes are returned as an ordered log: a `Log` of `Write`s, or a
  `Run` holding the store and the writes applied to it.
- Each loop of the source is a `method` with loop invariants. Its `ensures`
  says it computes the same as a specification function, and the properties
  are proved about that function.
- Python's `s[:-n]` is modelled exactly (`Text.DropLast`), including `n == 0`,
  which gives the empty string.

Files:

- `wrappers.dfy`: `Option` and `Result`.
- `text.dfy`: slicing, `split`/`join` and number formatting.
- `db_access.dfy`: the SQL text and query semantics of `zoomin/database/db_access.py`.
- `disaggregation.dfy`: `zoomin/disaggregation/disaggregation.py`.
- `calculations.dfy`: the aggregation half of `zoomin/database/db_access_with_calculations.py`.
- `ingestion.dfy`: the other half of `zoomin/database/db_access_with_calculations.py`.
- `comparison.dfy`: `zoomin/data/comparison.py`.

Where the code's behaviour is surprising, the model keeps the code's behaviour:

- An equal split made while spreading NUTS data is labelled `okay`, like every
  share with a known value. It is not labelled `bad`.
- Rows left unknown after the residual search are not split equally. They get
  missing shares, and so value 0 and quality `bad`.
- The residual subtracts the known total of every mapped row, not only of the
  rows inside the coarser region.
- An aggregation that is not single-valued raises pandas' `ValueError`.

The five defects listed under "## Findings" are the exception. For each, a
separate member models the code as written and shows the failure. The drivers
(`Ingestion.ProcessAndAddInputData`, `Ingestion.ProcessAndAddEucalcData` and
`Comparison.DisaggregateAndAnnotateData`) run the corrected definitions. On the
inputs named there, the program raises an exception, but the drivers write rows.

## Model

| member | source | states |
|---|---|---|
| Text.DropLast | zoomin/database/db_access_with_calculations.py:89 | Python's `s[:-n]`. It keeps all but the last `n` characters, gives the empty string once `n` reaches the length, and gives the empty string for `n == 0`. |
| Text.DropLastTwice | zoomin/database/db_access_with_calculations.py:87-89 | Cutting `a` and then `b` characters equals cutting `a + b`. |
| Text.SplitMany | zoomin/disaggregation/disaggregation.py:40-43 | An equation contains "+" exactly when its split has at least two names. |
| Text.JoinSplit | zoomin/disaggregation/disaggregation.py:43 | Joining the pieces of `split(c)` with `c` gives back the string. |
| Text.SplitPieces | zoomin/disaggregation/disaggregation.py:43 | `split(c)` has one more piece than there are separators, and no piece contains the separator. |
| Text.SplitJoin | zoomin/disaggregation/disaggregation.py:43 | Splitting the join of separator-free pieces gives back the pieces. |
| Text.NatToString | zoomin/database/db_access.py:56 | The decimal rendering of a number is a non-empty string of digits, starting with 0 only for 0. |
| Text.ParseNatToString | zoomin/database/db_access.py:56 | The decimal rendering can be read back to the number. |
| DbAccess.Assignment | zoomin/database/db_access.py:56 | `key='val'` for a string and `key=val` otherwise. The value is quoted exactly when it is a string. |
| DbAccess.Assignments | zoomin/database/db_access.py:54-58 | One assignment per criterion, in the dict's order. |
| DbAccess.SelectQuery | zoomin/database/db_access.py:51-61 | Without criteria the command is `SELECT col FROM table`. With criteria, the WHERE clause joins the assignments with " AND ". |
| DbAccess.WhereClauseAppend | zoomin/database/db_access.py:54-59 | The clause of two criteria lists is their clauses joined by " AND ". |
| DbAccess.WhereClauseSingle | zoomin/database/db_access.py:54-59 | The clause of one criterion is its assignment. |
| DbAccess.OneElementAllEqual | zoomin/database/db_access.py:73 | `np.unique` has length 1 exactly when all entries equal the first. |
| DbAccess.CollapseResult | zoomin/database/db_access.py:65-76 | An empty result raises ValueError. An all-equal result gives the single value. Anything else gives the whole list, in order. |
| DbAccess.PrimaryKey | zoomin/database/db_access.py:91-97 | Succeeds exactly when the lookup collapses to one integer. No match raises "the value/values do not exist in the DB". |
| DbAccess.RegionsQuery | zoomin/database/db_access.py:107-115 | The `get_regions` command. The country filter is on `parent_region_code` for LAU and on `region_code` otherwise. |
| DbAccess.GetRegions | zoomin/database/db_access.py:100-120 | The regions of exactly the resolution and country asked for. |
| DbAccess.GetRegionsCountryRule | zoomin/database/db_access.py:111-115 | With a country, a LAU region is kept iff its parent code starts with the country. Any other region is kept iff its own code does. |
| DbAccess.InItem | zoomin/database/db_access.py:325 | `key IN val` for more than one element and `key=val[0]` for one. Fails for an empty value or an integer. |
| DbAccess.InItemSingleton | zoomin/database/db_access.py:325 | A one-element tuple renders like the plain assignment of its element. |
| DbAccess.InItems | zoomin/database/db_access.py:323-328 | The WHERE items of `add_col_values`, one per criterion. They succeed iff every item does. |
| DbAccess.UpdateQuery | zoomin/database/db_access.py:307-332 | The `UPDATE table SET ...` command. It has a WHERE clause exactly when criteria are given, and fails exactly when an item fails. |
| DbAccess.IdsNamed | zoomin/database/db_access.py:130 | The keys of the variables with the given name. |
| DbAccess.JoinRegions | zoomin/database/db_access.py:131-141 | The inner join of one variable's values with the regions on `region_id = id`. It is sound and complete. |
| DbAccess.RegionsOfCount | zoomin/database/db_access.py:131-141 | One stored value yields exactly one row for each region carrying its `region_id`. |
| DbAccess.JoinRegionsCount | zoomin/database/db_access.py:131-141 | The join holds exactly one row per pair of a value of the variable and a region with its id. No pair is merged away or repeated, so repeated values per region stay repeated. |
| DbAccess.VarDataForDisaggregationRegions | zoomin/database/db_access.py:123-144 | A proxy series fails exactly when the name has no single key. It holds only LAU regions of the requested country. |
| Disaggregation.DisaggregateValue | zoomin/disaggregation/disaggregation.py:66-89 | An empty proxy raises ZeroDivisionError. Otherwise it keeps the proxy's regions in order and warns iff the total is 0. A zero total splits the value equally; otherwise each row gets `value * (p / total)`. |
| Disaggregation.Conservation | zoomin/disaggregation/disaggregation.py:71-87 | For any non-empty proxy, the spread values add up to the value. |
| Disaggregation.ProportionalExample | zoomin/disaggregation/disaggregation.py:78-87 | 100 over proxies 1 and 3 gives 25 and 75, with no warning. |
| Disaggregation.EqualSplitExample | zoomin/disaggregation/disaggregation.py:72-77 | 50 over two zero proxies gives 25 each, with the warning. |
| Disaggregation.Matches | zoomin/disaggregation/disaggregation.py:50-61 | The rows of the right table that match one left row on both codes. Each has the summed value and the right `region_id`. |
| Disaggregation.InnerJoinSound | zoomin/disaggregation/disaggregation.py:50-61 | Every joined row comes from a left and a right row with equal keys. Its value is their sum and its `region_id` is the right one. |
| Disaggregation.InnerJoinComplete | zoomin/disaggregation/disaggregation.py:50-61 | Every pair of rows with equal keys yields a joined row. |
| Disaggregation.MatchesCount | zoomin/disaggregation/disaggregation.py:50-56 | One left row yields exactly one joined row per right row with its key. |
| Disaggregation.InnerJoinCount | zoomin/disaggregation/disaggregation.py:50-56 | The join holds exactly one row per pair of left and right rows with equal keys, also when a key repeats on either side. |
| Disaggregation.InnerJoinUnique | zoomin/disaggregation/disaggregation.py:50-61 | Joining tables whose keys are unique gives a table whose keys are unique. |
| Disaggregation.InnerJoinLookup | zoomin/disaggregation/disaggregation.py:50-61 | A key's joined value is the sum of its two values when both tables hold it, and absent otherwise. |
| Disaggregation.CombineAllLookup | zoomin/disaggregation/disaggregation.py:45-61 | Folding the components gives, for every key, the sum over all components when every component holds it. |
| Disaggregation.CombineAllInEvery | zoomin/disaggregation/disaggregation.py:45-61 | A region in the combined proxy occurs in every component. |
| Disaggregation.ProxyFromEquationNames | zoomin/disaggregation/disaggregation.py:39-63 | Without "+" it raises "unknown operation.". Otherwise the returned names are the split of the equation: at least two, joining back to it. |
| Disaggregation.ProxyFromEquationErr | zoomin/disaggregation/disaggregation.py:45-46 | A failing lookup of the i-th name is the error of the whole call when the names before it succeed. |
| Disaggregation.CombineComponents | zoomin/disaggregation/disaggregation.py:45-61 | The merge loop computes the fold of the fetched components, or the first fetch error. |
| Disaggregation.AddProxyVars | zoomin/disaggregation/disaggregation.py:39-63 | `add_proxy_vars` step by step equals the equation's proxy and names. |
| Calculations.UniqueItem | zoomin/database/db_access_with_calculations.py:53-63 | `unique().item()` succeeds exactly on a single-valued column and gives that value. Otherwise it raises ValueError. |
| Calculations.Present | zoomin/database/db_access_with_calculations.py:68 | `value_counts` sees exactly the non-missing values, each as often as it occurs. |
| Calculations.Mode | zoomin/database/db_access_with_calculations.py:66-69 | `value_counts().idxmax()`: a most frequent value. An empty column raises ValueError. |
| Calculations.ModeExample | zoomin/database/db_access_with_calculations.py:68 | good, bad, good gives good. |
| Calculations.ParseAggMethod | zoomin/database/db_access_with_calculations.py:42-53 | The method is sum, mean or bool exactly when the stored value is that single string. |
| Calculations.AggregateValue | zoomin/database/db_access_with_calculations.py:46-53 | `sum` is the total. `mean` times the count is the total. `bool` succeeds iff the values are single-valued. An unknown method leaves `agg_val` unbound. |
| Calculations.OptionalItem | zoomin/database/db_access_with_calculations.py:71-79 | An optional column, when present, must be single-valued and gives its value. When absent it stays missing. |
| Calculations.AggregateGroup | zoomin/database/db_access_with_calculations.py:46-81 | A group reduces exactly when the value reduces, every descriptor is single-valued and a present quality column has a value. The row then carries the reduced value and the quality mode. An unknown method leaves `agg_val` unbound. |
| Calculations.AggregateGroupDescriptors | zoomin/database/db_access_with_calculations.py:55-79 | The aggregate carries every descriptor of every row of its group. A column the table lacks stays empty. |
| Calculations.SameGroupKey | zoomin/database/db_access_with_calculations.py:91-96 | Two rows share a group iff they agree on the parent code and on climate experiment and year where those columns exist. A missing key is a key of its own. |
| Calculations.DistinctKeys | zoomin/database/db_access_with_calculations.py:96 | Every key that occurs, each once. |
| Calculations.GroupRows | zoomin/database/db_access_with_calculations.py:96 | A group holds exactly the rows with its key, each as often as it occurs in the table. |
| Calculations.Groups | zoomin/database/db_access_with_calculations.py:96 | One non-empty group per distinct key. |
| Calculations.GroupsConserveSum | zoomin/database/db_access_with_calculations.py:96 | The group totals add up to the table's total. |
| Wrappers.MapResultsValues | zoomin/database/db_access_with_calculations.py:96 | `apply` succeeds iff every group does, giving their results in order. Otherwise it fails with the first group's error. |
| Calculations.CutFor | zoomin/database/db_access_with_calculations.py:87-89 | NUTS3 cuts nothing. Other levels cut `del_dict[level]` characters, and a level missing from `del_dict` raises KeyError. |
| Calculations.TruncateRows | zoomin/database/db_access_with_calculations.py:85-89 | The level's copy keeps every record and only cuts parent codes. |
| Calculations.LevelCutsDoNotCompound | zoomin/database/db_access_with_calculations.py:83-89 | Each level cuts the original parent code, not the previous level's. |
| Calculations.AggregatedSumConserved | zoomin/database/db_access_with_calculations.py:83-97 | A summed level carries exactly the total of the table it came from. |
| Calculations.AggregatedOnePerGroup | zoomin/database/db_access_with_calculations.py:91-97 | One aggregated row per distinct key, carrying that key. |
| Calculations.RegionsWithCode | zoomin/database/db_access_with_calculations.py:101-107 | The regions whose code is the row's parent code. |
| Calculations.MergeRegion | zoomin/database/db_access_with_calculations.py:101-117 | The left merge of one row: one row per matching region with its id, or the row kept without a region id. |
| Calculations.MergeRegionsUnique | zoomin/database/db_access_with_calculations.py:101-117 | With one region per code, the merge gives one record per aggregated row, with that region's id. |
| Calculations.RunLevels | zoomin/database/db_access_with_calculations.py:83-119 | One write per level, and all of them when nothing fails. |
| Calculations.RunLevelsWrites | zoomin/database/db_access_with_calculations.py:83-119 | The i-th write is the i-th level's batch. A failure is the exception of the first level that raised one. |
| Calculations.AggregateAndAddWritesRegionData | zoomin/database/db_access_with_calculations.py:83-119 | The aggregation writes only `region_data` batches. |
| Calculations.AggregateAndAddToDb | zoomin/database/db_access_with_calculations.py:38-119 | The level loop equals the aggregation of all four levels from the same table. It writes one batch per level when nothing fails. |
| Ingestion.CarriedColumns | zoomin/database/db_access_with_calculations.py:125-161 | The aggregated table has year, quality, confidence interval and climate id exactly when the input has them. |
| Ingestion.ClimateIds | zoomin/database/db_access_with_calculations.py:148-158 | The left merge with `climate_experiments` gives, per row, the ids of experiments with that name. |
| Ingestion.ClimateRows | zoomin/database/db_access_with_calculations.py:125-161 | Every row built from an input row carries its value and keys, with `chosen = 1`. |
| Ingestion.RegionRowsCover | zoomin/database/db_access_with_calculations.py:125-131 | Every matched region receives a row. |
| Ingestion.RowsForRegions | zoomin/database/db_access_with_calculations.py:125-131 | An input row without a matching region is kept without a region id. Otherwise its rows carry matched regions. |
| Ingestion.MergedRowsProvenance | zoomin/database/db_access_with_calculations.py:125-131 | Every merged row comes from one input row and from one of its matched regions, or from no region when none matched. |
| Ingestion.MergedRowsCoverage | zoomin/database/db_access_with_calculations.py:125-131 | Every matched region of every input row receives that row's value. |
| Ingestion.LauMatches | zoomin/database/db_access_with_calculations.py:125-131 | A LAU input row matches the regions with the same code and parent code. |
| Ingestion.LauRowsMatched | zoomin/database/db_access_with_calculations.py:122-183 | Every LAU row written comes from an input row and sits in a LAU region with that row's codes. |
| Ingestion.LauClimateDropFails | zoomin/database/db_access_with_calculations.py:148-159 | With a climate column, the code as written raises KeyError before any write. The intended path writes the LAU rows first. |
| Ingestion.LauAsWrittenAgrees | zoomin/database/db_access_with_calculations.py:148-159 | Without a climate column, the code as written and the intended path coincide. |
| Ingestion.ProxyFor | zoomin/database/db_access_with_calculations.py:193-203 | The proxy rows of an input row are those whose cut parent code is the row's code, each kept as often as it occurs in the proxy. |
| Ingestion.DisaggregateRow | zoomin/database/db_access_with_calculations.py:201-211 | An input row without proxy rows divides by zero. Otherwise it has exactly one child per proxy row under it, in order, in that row's region. Each child's share is the one `disaggregate_value` computes for its proxy row: in proportion to the proxy value, or an equal split when the proxy totals zero. The children add up to its value and inherit its quality and year. |
| Ingestion.DisaggregatedChildrenConserve | zoomin/database/db_access_with_calculations.py:200-213 | All children together add up to the input's total. |
| Ingestion.DisaggregatedChildrenInherit | zoomin/database/db_access_with_calculations.py:193-213 | Every child lies in a proxy region under its input row and carries that row's quality and year. |
| Ingestion.DisaggregatedChildrenComplete | zoomin/database/db_access_with_calculations.py:193-213 | Every proxy row under an input row receives a child of that row, carrying its quality and year. |
| Ingestion.DisaggregateRows | zoomin/database/db_access_with_calculations.py:200-213 | The row loop equals the concatenated disaggregation, or the first error. |
| Ingestion.DisaggregateAndAddData | zoomin/database/db_access_with_calculations.py:186-263 | The proxy path step by step equals its specification: LAU rows, the four levels, then the proxy record. |
| Ingestion.ChildRegions | zoomin/database/db_access_with_calculations.py:266-283 | The LAU regions whose cut parent code is the input code. |
| Ingestion.SameValueCoversChildren | zoomin/database/db_access_with_calculations.py:266-283 | Every LAU child of an input row receives its value unchanged. |
| Ingestion.SameValueRowsAreChildren | zoomin/database/db_access_with_calculations.py:266-336 | Every row written comes from an input row and lies in a LAU child of it. |
| Ingestion.KeepRows | zoomin/database/db_access_with_calculations.py:370-389 | Exactly the rows whose code starts with one of the country prefixes, each kept as often as it occurs. |
| Ingestion.CountrySubset | zoomin/database/db_access_with_calculations.py:370-389 | LAU data is filtered on `prnt_code` and other data on `reg_code`, and every kept row keeps its multiplicity. LAU data without `prnt_code` fails. |
| Ingestion.OutcomeAction | zoomin/database/db_access_with_calculations.py:354-440 | The branch taken is the one the dispatch rules choose. |
| Ingestion.DispatchRules | zoomin/database/db_access_with_calculations.py:354-425 | Skip on the fly, add LAU directly, disaggregate with a proxy, or copy the same value, each under exactly its condition. Otherwise it raises. |
| Ingestion.SubsetRejected | zoomin/database/db_access_with_calculations.py:414-425 | Non-LAU data with neither a proxy nor a same-value copy is refused before anything is written. |
| Ingestion.NothingWrittenWithoutPath | zoomin/database/db_access_with_calculations.py:391-440 | A skipped, empty or rejected unit writes nothing. It fails exactly when rejected. |
| Ingestion.NothingOutsideCountries | zoomin/database/db_access_with_calculations.py:370-391 | Data entirely outside the configured countries adds nothing. |
| Ingestion.ProcessAndAddInputData | zoomin/database/db_access_with_calculations.py:339-440 | `process_and_add_input_data` step by step equals the dispatch outcome. The LAU path is the corrected one (`ProcessLauData`). The code as written is `ProcessLauDataAsWritten`. |
| Ingestion.WriteSubset | zoomin/database/db_access_with_calculations.py:401-425 | The write of a non-empty subset equals the chosen path's log. |
| Ingestion.ZeroEverywhere | zoomin/database/db_access_with_calculations.py:469-470 | One distinct value, equal to zero, holds exactly on proxies that are zero everywhere. |
| Ingestion.EucalcProxy | zoomin/database/db_access_with_calculations.py:460-475 | A proxy that is zero everywhere is replaced by population. Any other proxy is kept. |
| Ingestion.FallbackAvoidsEqualSplit | zoomin/database/db_access_with_calculations.py:467-477 | A non-negative proxy that is not all zero has a positive total, so no equal split happens. |
| Ingestion.SameValueShares | zoomin/database/db_access_with_calculations.py:480-486 | Every LAU region given receives the same value. |
| Ingestion.EucalcSameValueLeavesCountry | zoomin/database/db_access_with_calculations.py:479-486 | As written, a LAU region outside the unit's country receives the unit's value. |
| Ingestion.EucalcSameValueStaysInCountry | zoomin/database/db_access_with_calculations.py:479-486 | As intended, the same value goes to exactly the LAU regions of the unit's country, and no proxy is recorded. |
| Ingestion.EucalcSameValueEndsInError | zoomin/database/db_access_with_calculations.py:479-544 | A same-value run of the code as written that writes the LAU batch and one batch per NUTS level still ends in UnboundLocalError. |
| Ingestion.EucalcSameValueWritesOnlyRegionData | zoomin/database/db_access_with_calculations.py:479-544 | Without a proxy, the intended run writes only `region_data` batches and records no proxy. |
| Ingestion.EucalcProxyConserves | zoomin/database/db_access_with_calculations.py:460-544 | The LAU rows of a proxy run add up to the value. A successful run writes the LAU rows, four levels and the proxy record. |
| Ingestion.ProcessAndAddEucalcData | zoomin/database/db_access_with_calculations.py:443-544 | `process_and_add_eucalc_data` step by step equals `ProcessEucalc`, the corrected code. The code as written is `ProcessEucalcAsWritten`. |
| Comparison.Apply | zoomin/data/comparison.py:139-167 | A write never changes the regions or variable details. An annotation marks exactly the listed rows chosen with its quality and leaves the others alone. An addition keeps the old rows and appends one chosen row per new value, with its quality, a fresh id and the source "disaggregated data". |
| Comparison.RegionsAndData | zoomin/data/comparison.py:43-62 | No region fails. Otherwise it returns the level's regions and exactly the values at them, filtered by variable when one is given. |
| Comparison.FilterCount | zoomin/data/comparison.py:51-59 | A selection keeps every selected row as often as it occurs, and no other row. |
| Comparison.CurrentParent | zoomin/data/comparison.py:91-96 | The LAU parent code cut by `n` characters, and uncut for `n == 0`. |
| Comparison.CutGuardNeeded | zoomin/data/comparison.py:91-96 | Without the `n != 0` guard, `[:-0]` would empty every code. |
| Comparison.LauIdsUnder | zoomin/data/comparison.py:98-111 | The LAU regions whose cut parent code is the region's code. |
| Comparison.MappedCodes | zoomin/data/comparison.py:98-116 | Exactly the codes of the level's regions that have LAU regions under them, each once. |
| Comparison.ObservedValuesRows | zoomin/data/comparison.py:118 | A region's observed values are the values of its stored rows, one per row and in table order, repeated values included. |
| Comparison.MappingsOf | zoomin/data/comparison.py:118 | The left merge with the values: one mapping per observed value, or a missing value when there is none. |
| Comparison.MapRegionDataToLau | zoomin/data/comparison.py:85-122 | No mapped region raises ValueError, and otherwise the mapping is non-empty. |
| Comparison.MapRegionDataToLauSound | zoomin/data/comparison.py:85-122 | Every mapping is the LAU set under one region, with that region's value or a missing one. |
| Comparison.MapRegionDataToLauComplete | zoomin/data/comparison.py:85-122 | Every region with LAU regions under it is mapped. |
| Comparison.SortedIds | zoomin/data/comparison.py:151 | `sorted(set)`: increasing, with the same elements. |
| Comparison.MissingIds | zoomin/data/comparison.py:149 | The regions without an observed value. |
| Comparison.FillRows | zoomin/data/comparison.py:151-165 | Each missing region gets 0, quality bad and the first row's year and climate model. |
| Comparison.LauWrites | zoomin/data/comparison.py:137-167 | Observed rows are annotated good. A second write appears iff a region is missing, and fills exactly those regions, in increasing order. |
| Comparison.LauStage | zoomin/data/comparison.py:125-167 | Population writes nothing. Any other variable with no rows fails, and otherwise gives the LAU writes. |
| Comparison.NaRowsAsWrittenIsEmpty | zoomin/data/comparison.py:217-220 | The mask as written selects no row, while the intended mask selects an unknown row inside the coarser region. |
| Comparison.MergeProperties | zoomin/data/comparison.py:222-247 | The residual keeps the covered LAU regions. The resolved rows stay in order, and no unresolved row remains among them. The unresolved rows are replaced by one new row whose set is their union, inside the coarser region. The known total becomes the coarser value. |
| Comparison.MergeExample | zoomin/data/comparison.py:222-247 | A coarser 200 over known 80 gives a residual of 120. |
| Comparison.GroupsFrom | zoomin/data/comparison.py:207-250 | The search over one coarser level stops early only when nothing is unknown. |
| Comparison.GroupsFromCovered | zoomin/data/comparison.py:207-250 | The search never gains or loses a LAU region. |
| Comparison.ResidualFromCovered | zoomin/data/comparison.py:189-253 | The search over all coarser levels never gains or loses a LAU region. |
| Comparison.ResidualAsWrittenNeverFills | zoomin/data/comparison.py:207-213 | As written, the first coarser level with data raises AttributeError, and otherwise nothing changes. |
| Comparison.MergeLevel | zoomin/data/comparison.py:207-250 | The loop over one coarser level's regions equals the search over that level. |
| Comparison.ResidualSearch | zoomin/data/comparison.py:189-253 | The nested loop, with its break and continue, equals the residual search. |
| Comparison.DisaggregateMapping | zoomin/data/comparison.py:258-261 | No proxy row divides by zero. A missing value gives missing shares. A known value gives each proxy row the share `disaggregate_value` computes for it, and is conserved over the proxy rows. |
| Comparison.DisaggregatedMappingsConserve | zoomin/data/comparison.py:256-264 | All shares add up to the known total of the mapping. |
| Comparison.DisaggregatedMappingsSound | zoomin/data/comparison.py:256-264 | Every share lies in a proxy region of its mapping and is missing iff the mapping's value is. |
| Comparison.DisaggregateMappings | zoomin/data/comparison.py:256-264 | The row loop equals the concatenated disaggregation, or the first error. |
| Comparison.Labelled | zoomin/data/comparison.py:266-295 | A missing share becomes 0 with quality bad, and any other share becomes okay, never good. Each row carries the first row's year and climate model. The total is preserved. |
| Comparison.ProxyData | zoomin/data/comparison.py:65-82 | Fails exactly when "population" has no single key. Otherwise every row lies at a LAU region. |
| Comparison.GhslValuesRows | zoomin/data/comparison.py:65-74 | The proxy values are the GHSL rows of the population variable, one per row and in table order, repeats included. |
| Comparison.ProxyDataRows | zoomin/data/comparison.py:65-82 | The proxy is exactly the GHSL population values joined with their LAU regions. |
| Comparison.ProxyDataCount | zoomin/data/comparison.py:65-82 | The proxy holds exactly one row per pair of a GHSL population value and a LAU region with its id, so repeated values stay repeated. |
| Comparison.NutsRowsAtLau | zoomin/data/comparison.py:255-298 | Every added row is at a LAU region, for this variable, and not good. |
| Comparison.NutsRowsConserve | zoomin/data/comparison.py:184-298 | The rows added total the known total after the residual search, over the same LAU regions as the first mapping. |
| Comparison.NutsStageLabels | zoomin/data/comparison.py:176-298 | Nothing is written iff the variable already has chosen rows. Otherwise one well-labelled batch is written. |
| Comparison.DisaggregateAndAnnotateNuts | zoomin/data/comparison.py:170-298 | `disaggregate_and_annotate_nuts_data` step by step equals the NUTS stage. |
| Comparison.UniqueVarIds | zoomin/data/comparison.py:308 | Each variable id of the level's values, once. |
| Comparison.LauWritesWellLabelled | zoomin/data/comparison.py:137-167 | The LAU writes annotate good or add non-good rows at LAU regions. |
| Comparison.VarsFromInvariant | zoomin/data/comparison.py:308-324 | After each variable, the store is the initial store with every write applied. The regions are unchanged and every write is well labelled. |
| Comparison.LevelsFromInvariant | zoomin/data/comparison.py:303-324 | The same invariant holds across all levels. |
| Comparison.AnnotateVariable | zoomin/data/comparison.py:314-324 | The per-variable branch equals the LAU or NUTS stage. |
| Comparison.AnnotateLevel | zoomin/data/comparison.py:308-324 | The variable loop equals its specification over the distinct variable ids. |
| Comparison.DisaggregateAndAnnotateData | zoomin/data/comparison.py:301-324 | The level loop equals its specification over every level but the last. The NUTS stage uses the corrected residual `ResidualFrom`. The code as written is `ResidualFromAsWritten`. |

## Left out

- Database I/O is left out: connections, SQL execution, `COPY` and the
  `with_db_connection` decorator. Reads are the `Database` and `Store` values
  passed in. Writes are the returned `Log` or `Run`, with `Comparison.Apply`
  giving their effect on the store.
- The memory throttle in `process_and_add_input_data` (sleep while resident
  memory exceeds 2 GB) is left out, because it waits on the operating system.
- Reading `data.csv` and `details.json` is left out. The parsed table and
  details are parameters.
- The `MINI_DB` environment switch is a parameter: the list of country
  prefixes.
- Logging and `warnings.warn` are left out. The zero-total warning of
  `disaggregate_value` is a flag on the result. The EUCalc population-fallback
  warning is not recorded.
- The worker pool that calls the ingestion functions is left out. Each call is
  modelled on its own, without concurrency.
- Floating point is left out: values are exact reals, so conservation holds
  exactly and not up to rounding. NaN values inside an aggregated
  `region_data` value column are not modelled.
- `del_dict`, `resolution_hierarchy` and the quality keys are parameters or
  enumerations, not read from `gen_utils`.
- The OSM processing, the report generator, the API layer, the table-creation
  and deletion scripts and the remaining getters of
  `zoomin/database/db_access.py` are outside the engine modelled here.
- Calculations.DistinctKeys: groups come in order of first appearance, while
  pandas sorts the group keys. Row order in the written batches may differ.
  Their contents do not.
- Comparison.MappedCodes: mapped regions come in the order of the level's
  regions, while pandas sorts the group keys.
- Calculations.Mode: promises only some value of maximal count. pandas picks
  the first by its own `value_counts` order, and the model takes the first in
  row order.
- Comparison.Merge: drops the unknown rows by position. pandas drops by index
  label, and after an earlier `concat` that can also drop a known row sharing
  the label.
- Ingestion.ChildRows: states only that there is one row per child. The
  column values are given by its definition.
- Ingestion.ProcessAndAddInputData: runs the corrected LAU path. As written, a LAU input with a `climate_experiment` column raises KeyError (`Ingestion.ProcessLauDataAsWritten`).
- Ingestion.ProcessAndAddEucalcData: runs the corrected EUCalc path, whose same-value branch stays inside the unit's country. As written, that branch writes every LAU region in the store and then ends in UnboundLocalError (`Ingestion.ProcessEucalcAsWritten`).
- Comparison.DisaggregateAndAnnotateData: runs the corrected residual search. As written, it raises AttributeError at the first coarser level with data (`Comparison.ResidualFromAsWritten`).
- Comparison.ProxyData: joins the GHSL values with the LAU regions as an inner join. `get_proxy_data` merges with `how="left"`, which also keeps GHSL rows without a region and gives them a missing id. The later `isin` selection on LAU ids (`zoomin/data/comparison.py:260`) never picks those rows, so the proxy used is the same.

## Findings

| source | as written | input that shows it | evidently intended | confidence | as-written member | corrected member |
|---|---|---|---|---|---|---|
| zoomin/database/db_access_with_calculations.py:159 | `drop(["climate_experiment"])` without `axis=1` drops an index label. It raises KeyError before anything is written. | LAU input with a `climate_experiment` column | drop the column, as line 317 does, and write the LAU rows | high; not executed | Ingestion.LauClimateDropFails | Ingestion.LauRowsMatched |
| zoomin/database/db_access_with_calculations.py:544 | `proxy_vars` is assigned only on the proxy branch. A same-value run ends in UnboundLocalError after all its writes. | EUCalc unit without proxy, with `post_calculation = "same value all regions"` | record proxy variables only when a proxy was used | high; not executed | Ingestion.EucalcSameValueEndsInError | Ingestion.EucalcSameValueWritesOnlyRegionData |
| zoomin/database/db_access_with_calculations.py:482 | The EUCalc same-value branch calls `get_regions("LAU")` without the country code, so one country's value is written to every LAU region in the store. | EUCalc unit for `DE` without proxy, with `post_calculation = "same value all regions"`, and a store that also holds a LAU region under `FR` | copy the value to the LAU regions of the unit's country, as the proxy branch fetches only that country | medium; not executed | Ingestion.EucalcSameValueLeavesCountry | Ingestion.EucalcSameValueStaysInCountry |
| zoomin/data/comparison.py:210 | `group["lau_region_ids"]` is a set, and `.values` on a set raises AttributeError. | NUTS data with a missing value and data at a coarser level | use the set of LAU ids itself | high; not executed | Comparison.ResidualAsWrittenNeverFills | Comparison.ResidualFromCovered |
| zoomin/data/comparison.py:219 | `series is True` is always false, so the mask selects no row and no residual is ever assigned. | mapping `[({1}, NaN)]` under a coarser region `{1, 2}` | select the unknown rows inside the coarser region | high; not executed | Comparison.NaRowsAsWrittenIsEmpty | Comparison.MergeProperties |
