/** zoomin/disaggregation/disaggregation.py: splitting one coarse value over
    child regions in proportion to a proxy, and building an additive proxy
    "a+b+c" by inner-joining the component series. */
module Disaggregation {
  import opened Wrappers
  import opened Text
  import opened DbAccess

  /** Sum of the `value` column. */
  function Total(rows: seq<ProxyRow>): real
    decreases |rows|
  {
    if rows == [] then 0.0 else rows[0].value + Total(rows[1..])
  }

  /** Two rows that differ at most in their value. */
  predicate SameRegion(a: ProxyRow, b: ProxyRow) {
    a.regionId == b.regionId && a.regionCode == b.regionCode && a.parentRegionCode == b.parentRegionCode
  }

  /** The proxy rows with their value replaced; `zeroTotalWarning` records the
      warning issued when the proxy sums to zero. */
  datatype Disaggregated = Disaggregated(rows: seq<ProxyRow>, zeroTotalWarning: bool)

  /** `disaggregate_value`. A zero proxy total splits the value equally; dividing
      by the row count of an empty proxy raises ZeroDivisionError. Otherwise each
      row gets `value * share`. The proxy itself is a value and is not changed. */
  function DisaggregateValue(value: real, proxy: seq<ProxyRow>): (r: Result<Disaggregated>)
    ensures r.Err? <==> proxy == []
    ensures r.Err? ==> r.error == ZeroDivisionError
    ensures r.Ok? ==> |r.value.rows| == |proxy|
                      && forall i :: 0 <= i < |proxy| ==> SameRegion(r.value.rows[i], proxy[i])
    ensures r.Ok? ==> (r.value.zeroTotalWarning <==> Total(proxy) == 0.0)
    ensures r.Ok? && Total(proxy) == 0.0 ==>
              forall i :: 0 <= i < |proxy| ==> r.value.rows[i].value == value / |proxy| as real
    ensures r.Ok? && Total(proxy) != 0.0 ==>
              forall i :: 0 <= i < |proxy| ==> r.value.rows[i].value == value * (proxy[i].value / Total(proxy))
  {
    var total := Total(proxy);
    if total == 0.0 then
      if proxy == [] then Err(ZeroDivisionError)
      else
        var share := value / |proxy| as real;
        Ok(Disaggregated(seq(|proxy|, i requires 0 <= i < |proxy| => proxy[i].(value := share)), true))
    else
      Ok(Disaggregated(
        seq(|proxy|, i requires 0 <= i < |proxy| => proxy[i].(value := value * (proxy[i].value / total))), false))
  }

  lemma {:induction false} TotalScaled(out: seq<ProxyRow>, proxy: seq<ProxyRow>, c: real)
    requires |out| == |proxy|
    requires forall i :: 0 <= i < |proxy| ==> out[i].value == c * proxy[i].value
    ensures Total(out) == c * Total(proxy)
    decreases |proxy|
  {
    if proxy != [] {
      TotalScaled(out[1..], proxy[1..], c);
    }
  }

  lemma {:induction false} TotalConstant(out: seq<ProxyRow>, c: real)
    requires forall i :: 0 <= i < |out| ==> out[i].value == c
    ensures Total(out) == |out| as real * c
    decreases |out|
  {
    if out != [] {
      TotalConstant(out[1..], c);
    }
  }

  lemma EqualShares(value: real, n: real)
    requires n > 0.0
    ensures n * (value / n) == value
  {
  }

  lemma ProportionalShares(value: real, total: real, x: real)
    requires total != 0.0
    ensures value * (x / total) == (value / total) * x
  {
  }

  lemma ScaledTotal(value: real, total: real)
    requires total != 0.0
    ensures (value / total) * total == value
  {
  }

  /** Conservation: whenever a value is disaggregated, in the proportional case
      as in the equal split, the child values add up to the value. */
  lemma Conservation(value: real, proxy: seq<ProxyRow>)
    requires proxy != []
    ensures DisaggregateValue(value, proxy).Ok?
    ensures Total(DisaggregateValue(value, proxy).value.rows) == value
  {
    var out := DisaggregateValue(value, proxy).value.rows;
    var total := Total(proxy);
    if total == 0.0 {
      var n := |proxy| as real;
      TotalConstant(out, value / n);
      EqualShares(value, n);
    } else {
      forall i | 0 <= i < |proxy|
        ensures out[i].value == (value / total) * proxy[i].value
      {
        ProportionalShares(value, total, proxy[i].value);
      }
      TotalScaled(out, proxy, value / total);
      ScaledTotal(value, total);
    }
  }

  /** The scenario "100 over the proxy {A: 1, B: 3}" gives {A: 25, B: 75}. */
  lemma ProportionalExample()
    ensures var proxy := [ProxyRow(1, "A", "P", 1.0), ProxyRow(2, "B", "P", 3.0)];
            DisaggregateValue(100.0, proxy)
            == Ok(Disaggregated([ProxyRow(1, "A", "P", 25.0), ProxyRow(2, "B", "P", 75.0)], false))
  {
    var proxy := [ProxyRow(1, "A", "P", 1.0), ProxyRow(2, "B", "P", 3.0)];
    assert Total(proxy) == 4.0;
    var r := DisaggregateValue(100.0, proxy).value.rows;
    assert r[0] == ProxyRow(1, "A", "P", 25.0);
    assert r[1] == ProxyRow(2, "B", "P", 75.0);
    assert r == [ProxyRow(1, "A", "P", 25.0), ProxyRow(2, "B", "P", 75.0)];
  }

  /** The scenario "50 over the proxy {A: 0, B: 0}" gives {A: 25, B: 25} and a warning. */
  lemma EqualSplitExample()
    ensures var proxy := [ProxyRow(1, "A", "P", 0.0), ProxyRow(2, "B", "P", 0.0)];
            DisaggregateValue(50.0, proxy)
            == Ok(Disaggregated([ProxyRow(1, "A", "P", 25.0), ProxyRow(2, "B", "P", 25.0)], true))
  {
    var proxy := [ProxyRow(1, "A", "P", 0.0), ProxyRow(2, "B", "P", 0.0)];
    assert Total(proxy) == 0.0;
    var r := DisaggregateValue(50.0, proxy).value.rows;
    assert r[0] == ProxyRow(1, "A", "P", 25.0);
    assert r[1] == ProxyRow(2, "B", "P", 25.0);
    assert r == [ProxyRow(1, "A", "P", 25.0), ProxyRow(2, "B", "P", 25.0)];
  }

  // ---------------------------------------------------------------------------
  // Additive proxies

  /** The join key of `add_proxy_vars`. */
  datatype Key = Key(regionCode: string, parentRegionCode: string)

  function KeyOf(p: ProxyRow): Key {
    Key(p.regionCode, p.parentRegionCode)
  }

  /** The rows of `right` matching one left row, each with the summed value and
      the right row's `region_id`. */
  function Matches(l: ProxyRow, right: seq<ProxyRow>): (rows: seq<ProxyRow>)
    ensures |rows| <= |right|
    ensures forall x :: x in rows <==>
              exists y :: y in right && KeyOf(y) == KeyOf(l)
                 && x == ProxyRow(y.regionId, l.regionCode, l.parentRegionCode, l.value + y.value)
    decreases |right|
  {
    if right == [] then []
    else
      var y := right[0];
      (if KeyOf(y) == KeyOf(l) then [ProxyRow(y.regionId, l.regionCode, l.parentRegionCode, l.value + y.value)] else [])
      + Matches(l, right[1..])
  }

  /** `pd.merge(left, right, on=["region_code", "parent_region_code"], how="inner")`
      followed by `value = value_x + value_y` and keeping `region_id_y`. */
  function InnerJoin(left: seq<ProxyRow>, right: seq<ProxyRow>): seq<ProxyRow>
    decreases |left|
  {
    if left == [] then [] else Matches(left[0], right) + InnerJoin(left[1..], right)
  }

  /** Every joined row comes from a left row and a right row with its key. */
  lemma {:induction false} InnerJoinSound(left: seq<ProxyRow>, right: seq<ProxyRow>, x: ProxyRow)
    requires x in InnerJoin(left, right)
    ensures exists l, y :: l in left && y in right && KeyOf(l) == KeyOf(y) == KeyOf(x)
              && x.value == l.value + y.value && x.regionId == y.regionId
    decreases |left|
  {
    if x in Matches(left[0], right) {
      var y :| y in right && KeyOf(y) == KeyOf(left[0])
                 && x == ProxyRow(y.regionId, left[0].regionCode, left[0].parentRegionCode, left[0].value + y.value);
      assert left[0] in left;
    } else {
      InnerJoinSound(left[1..], right, x);
      var l, y :| l in left[1..] && y in right && KeyOf(l) == KeyOf(y) == KeyOf(x)
                  && x.value == l.value + y.value && x.regionId == y.regionId;
      assert l in left;
    }
  }

  /** Every pair of rows with equal keys gives a joined row. */
  lemma {:induction false} InnerJoinComplete(left: seq<ProxyRow>, right: seq<ProxyRow>, l: ProxyRow, y: ProxyRow)
    requires l in left && y in right && KeyOf(l) == KeyOf(y)
    ensures ProxyRow(y.regionId, l.regionCode, l.parentRegionCode, l.value + y.value) in InnerJoin(left, right)
    decreases |left|
  {
    var x := ProxyRow(y.regionId, l.regionCode, l.parentRegionCode, l.value + y.value);
    if l == left[0] {
      assert x in Matches(left[0], right);
    } else {
      InnerJoinComplete(left[1..], right, l, y);
    }
  }

  /** How many right rows share the left row's key and give the joined row `x`. */
  function KeyMatchCount(l: ProxyRow, right: seq<ProxyRow>, x: ProxyRow): nat
    decreases |right|
  {
    if right == [] then 0
    else
      var y := right[0];
      (if KeyOf(y) == KeyOf(l) && x == ProxyRow(y.regionId, l.regionCode, l.parentRegionCode, l.value + y.value) then 1 else 0)
      + KeyMatchCount(l, right[1..], x)
  }

  /** How many pairs of a left and a right row with equal keys give `x`. */
  function KeyPairCount(left: seq<ProxyRow>, right: seq<ProxyRow>, x: ProxyRow): nat
    decreases |left|
  {
    if left == [] then 0 else KeyMatchCount(left[0], right, x) + KeyPairCount(left[1..], right, x)
  }

  /** How many right rows share the left row's key. */
  function KeyCount(l: ProxyRow, right: seq<ProxyRow>): nat
    decreases |right|
  {
    if right == [] then 0 else (if KeyOf(right[0]) == KeyOf(l) then 1 else 0) + KeyCount(l, right[1..])
  }

  /** How many pairs of a left and a right row have equal keys. */
  function KeyPairTotal(left: seq<ProxyRow>, right: seq<ProxyRow>): nat
    decreases |left|
  {
    if left == [] then 0 else KeyCount(left[0], right) + KeyPairTotal(left[1..], right)
  }

  lemma {:induction false} MatchesCount(l: ProxyRow, right: seq<ProxyRow>, x: ProxyRow)
    ensures |Matches(l, right)| == KeyCount(l, right)
    ensures multiset(Matches(l, right))[x] == KeyMatchCount(l, right, x)
    decreases |right|
  {
    if right != [] {
      MatchesCount(l, right[1..], x);
    }
  }

  /** The join holds one row per pair of rows with equal keys, also when a key
      repeats on either side. */
  lemma {:induction false} InnerJoinCount(left: seq<ProxyRow>, right: seq<ProxyRow>, x: ProxyRow)
    ensures |InnerJoin(left, right)| == KeyPairTotal(left, right)
    ensures multiset(InnerJoin(left, right))[x] == KeyPairCount(left, right, x)
    decreases |left|
  {
    if left != [] {
      MatchesCount(left[0], right, x);
      InnerJoinCount(left[1..], right, x);
    }
  }

  /** The value stored for a key, if any. */
  function Lookup(rows: seq<ProxyRow>, k: Key): Option<real>
    decreases |rows|
  {
    if rows == [] then None
    else if KeyOf(rows[0]) == k then Some(rows[0].value)
    else Lookup(rows[1..], k)
  }

  /** No key occurs twice: one row per region. */
  predicate UniqueKeys(rows: seq<ProxyRow>) {
    forall i, j :: 0 <= i < j < |rows| ==> KeyOf(rows[i]) != KeyOf(rows[j])
  }

  function KeySet(rows: seq<ProxyRow>): set<Key> {
    set p | p in rows :: KeyOf(p)
  }

  lemma {:induction false} LookupSome(rows: seq<ProxyRow>, k: Key)
    ensures Lookup(rows, k).Some? <==> k in KeySet(rows)
    decreases |rows|
  {
    if rows != [] {
      LookupSome(rows[1..], k);
      assert KeySet(rows) == {KeyOf(rows[0])} + KeySet(rows[1..]);
    }
  }

  lemma {:induction false} LookupAppend(a: seq<ProxyRow>, b: seq<ProxyRow>, k: Key)
    ensures Lookup(a + b, k) == if Lookup(a, k).Some? then Lookup(a, k) else Lookup(b, k)
    decreases |a|
  {
    if a != [] {
      assert (a + b)[1..] == a[1..] + b;
      LookupAppend(a[1..], b, k);
    } else {
      assert a + b == b;
    }
  }

  lemma {:induction false} MatchesUnique(l: ProxyRow, right: seq<ProxyRow>)
    requires UniqueKeys(right)
    ensures |Matches(l, right)| <= 1
    ensures Lookup(right, KeyOf(l)).Some? ==>
              Matches(l, right) == [ProxyRow(RegionIdAt(right, KeyOf(l)), l.regionCode, l.parentRegionCode,
                                             l.value + Lookup(right, KeyOf(l)).value)]
    ensures Lookup(right, KeyOf(l)).None? ==> Matches(l, right) == []
    decreases |right|
  {
    if right != [] {
      MatchesUnique(l, right[1..]);
      UniqueTail(right);
      if KeyOf(right[0]) == KeyOf(l) {
        LookupSome(right[1..], KeyOf(l));
      }
    }
  }

  /** The `region_id` of the first row with a key. */
  function RegionIdAt(rows: seq<ProxyRow>, k: Key): int
    decreases |rows|
  {
    if rows == [] then 0
    else if KeyOf(rows[0]) == k then rows[0].regionId
    else RegionIdAt(rows[1..], k)
  }

  lemma {:induction false} InnerJoinKeys(left: seq<ProxyRow>, right: seq<ProxyRow>)
    ensures KeySet(InnerJoin(left, right)) <= KeySet(left)
    decreases |left|
  {
    if left != [] {
      InnerJoinKeys(left[1..], right);
      var m := Matches(left[0], right);
      forall x | x in m ensures KeyOf(x) == KeyOf(left[0]) { }
      assert KeySet(left) == {KeyOf(left[0])} + KeySet(left[1..]);
      assert KeySet(m + InnerJoin(left[1..], right)) == KeySet(m) + KeySet(InnerJoin(left[1..], right));
    }
  }

  lemma UniqueTail(rows: seq<ProxyRow>)
    requires rows != [] && UniqueKeys(rows)
    ensures UniqueKeys(rows[1..]) && KeyOf(rows[0]) !in KeySet(rows[1..])
  {
    forall p | p in rows[1..] ensures KeyOf(p) != KeyOf(rows[0]) {
      var j :| 0 <= j < |rows[1..]| && rows[1..][j] == p;
      assert rows[j + 1] == p;
    }
  }

  lemma UniqueCons(x: ProxyRow, rest: seq<ProxyRow>)
    requires UniqueKeys(rest) && KeyOf(x) !in KeySet(rest)
    ensures UniqueKeys([x] + rest)
  {
    var s := [x] + rest;
    forall i, j | 0 <= i < j < |s| ensures KeyOf(s[i]) != KeyOf(s[j]) {
      assert s[j] == rest[j - 1];
      if i == 0 {
        assert rest[j - 1] in rest;
      } else {
        assert s[i] == rest[i - 1];
      }
    }
  }

  /** Joining two series with one row per region keeps one row per region. */
  lemma {:induction false} InnerJoinUnique(left: seq<ProxyRow>, right: seq<ProxyRow>)
    requires UniqueKeys(left) && UniqueKeys(right)
    ensures UniqueKeys(InnerJoin(left, right))
    decreases |left|
  {
    if left != [] {
      UniqueTail(left);
      InnerJoinUnique(left[1..], right);
      MatchesUnique(left[0], right);
      InnerJoinKeys(left[1..], right);
      var m := Matches(left[0], right);
      var rest := InnerJoin(left[1..], right);
      if m != [] {
        assert m == [m[0]];
        assert m[0] in m;
        assert KeyOf(m[0]) == KeyOf(left[0]);
        UniqueCons(m[0], rest);
      } else {
        assert m + rest == rest;
      }
    }
  }

  lemma LookupMatches(l: ProxyRow, right: seq<ProxyRow>, k: Key)
    requires UniqueKeys(right)
    ensures Lookup(Matches(l, right), k)
            == if KeyOf(l) == k && Lookup(right, k).Some? then Some(l.value + Lookup(right, k).value) else None
  {
    MatchesUnique(l, right);
  }

  /** With one row per region on each side, a region's joined value is the sum
      of its two values; a region missing from either side is missing from the
      join. */
  lemma {:induction false} InnerJoinLookup(left: seq<ProxyRow>, right: seq<ProxyRow>, k: Key)
    requires UniqueKeys(left) && UniqueKeys(right)
    ensures UniqueKeys(InnerJoin(left, right))
    ensures Lookup(InnerJoin(left, right), k)
            == if Lookup(left, k).Some? && Lookup(right, k).Some?
               then Some(Lookup(left, k).value + Lookup(right, k).value) else None
    decreases |left|
  {
    InnerJoinUnique(left, right);
    if left != [] {
      UniqueTail(left);
      InnerJoinLookup(left[1..], right, k);
      LookupMatches(left[0], right, k);
      LookupAppend(Matches(left[0], right), InnerJoin(left[1..], right), k);
    }
  }

  /** The combined series of the fetched components: the first component, then
      joined with each next one, as the loop of `add_proxy_vars` does. */
  function CombineAll(comps: seq<seq<ProxyRow>>): seq<ProxyRow>
    requires |comps| >= 1
    decreases |comps|
  {
    if |comps| == 1 then comps[0] else InnerJoin(CombineAll(comps[..|comps| - 1]), comps[|comps| - 1])
  }

  /** The value of a key summed over all components, or None when some
      component lacks it. */
  function SumOverComponents(comps: seq<seq<ProxyRow>>, k: Key): Option<real>
    requires |comps| >= 1
    decreases |comps|
  {
    var last := Lookup(comps[|comps| - 1], k);
    if |comps| == 1 then last
    else
      match SumOverComponents(comps[..|comps| - 1], k)
      case None => None
      case Some(s) => if last.Some? then Some(s + last.value) else None
  }

  /** When each component has one row per region, a region is in the combined
      series exactly when every component has it, and its value is the sum of
      the component values. */
  lemma {:induction false} CombineAllLookup(comps: seq<seq<ProxyRow>>, k: Key)
    requires |comps| >= 1
    requires forall i :: 0 <= i < |comps| ==> UniqueKeys(comps[i])
    ensures UniqueKeys(CombineAll(comps))
    ensures Lookup(CombineAll(comps), k) == SumOverComponents(comps, k)
    decreases |comps|
  {
    if |comps| > 1 {
      var init := comps[..|comps| - 1];
      CombineAllLookup(init, k);
      InnerJoinLookup(CombineAll(init), comps[|comps| - 1], k);
    }
  }

  /** Whatever the components, a region of the combined series occurs in every
      component (matched on region and parent code). */
  lemma {:induction false} CombineAllInEvery(comps: seq<seq<ProxyRow>>, x: ProxyRow, i: nat)
    requires |comps| >= 1 && i < |comps|
    requires x in CombineAll(comps)
    ensures exists y :: y in comps[i] && KeyOf(y) == KeyOf(x)
    decreases |comps|
  {
    if |comps| > 1 {
      var init := comps[..|comps| - 1];
      InnerJoinSound(CombineAll(init), comps[|comps| - 1], x);
      var l, y :| l in CombineAll(init) && y in comps[|comps| - 1] && KeyOf(l) == KeyOf(y) == KeyOf(x)
                  && x.value == l.value + y.value && x.regionId == y.regionId;
      if i < |comps| - 1 {
        CombineAllInEvery(init, l, i);
      }
    }
  }

  /** `get_var_data_for_disaggregation` for one component name. */
  function Fetcher(db: Database, country: string): string -> Result<seq<ProxyRow>> {
    (name: string) => VarDataForDisaggregation(db, name, country)
  }

  /** What `add_proxy_vars` returns: an equation without "+" is an error, any
      other one is split on "+" and its components fetched and combined. */
  function ProxyFromEquation(db: Database, equation: string, country: string): Result<(seq<ProxyRow>, seq<string>)> {
    if '+' !in equation then Err(ValueError("unknown operation."))
    else
      var names := Split(equation, '+');
      match MapResults(Fetcher(db, country), names)
      case Err(e) => Err(e)
      case Ok(comps) =>
        SplitMany(equation, '+');
        Ok((CombineAll(comps), names))
  }

  /** An equation without "+" is refused; otherwise the returned proxy list is
      the "+"-split of the equation, in order, with at least two names that join
      back to the equation. */
  lemma ProxyFromEquationNames(db: Database, equation: string, country: string)
    ensures '+' !in equation ==> ProxyFromEquation(db, equation, country) == Err(ValueError("unknown operation."))
    ensures ProxyFromEquation(db, equation, country).Ok? ==>
              var names := ProxyFromEquation(db, equation, country).value.1;
              names == Split(equation, '+') && |names| >= 2 && Join(names, '+') == equation
  {
    SplitMany(equation, '+');
    JoinSplit(equation, '+');
  }

  /** A proxy equation fails exactly when its first unknown component does. */
  lemma ProxyFromEquationErr(db: Database, equation: string, country: string, i: nat)
    requires '+' in equation && i < |Split(equation, '+')|
    requires forall j :: 0 <= j < i ==> VarDataForDisaggregation(db, Split(equation, '+')[j], country).Ok?
    requires VarDataForDisaggregation(db, Split(equation, '+')[i], country).Err?
    ensures ProxyFromEquation(db, equation, country)
            == Err(VarDataForDisaggregation(db, Split(equation, '+')[i], country).error)
  {
    var names := Split(equation, '+');
    var prefix := names[..i];
    assert forall j :: 0 <= j < i ==> prefix[j] == names[j];
    MapResultsValues(Fetcher(db, country), prefix);
    MapResultsFirstError(Fetcher(db, country), names, i);
  }

  /** The loop of `add_proxy_vars`: fetch each component in turn and join it
      to the accumulated result; the first failing fetch ends it. */
  method CombineComponents(fetch: string -> Result<seq<ProxyRow>>, names: seq<string>) returns (r: Result<seq<ProxyRow>>)
    requires names != []
    ensures MapResults(fetch, names).Err? ==> r == Err(MapResults(fetch, names).error)
    ensures MapResults(fetch, names).Ok? ==> r == Ok(CombineAll(MapResults(fetch, names).value))
  {
    var result: seq<ProxyRow> := [];
    ghost var comps: seq<seq<ProxyRow>> := [];
    var i := 0;
    while i < |names|
      invariant 0 <= i <= |names|
      invariant MapResults(fetch, names[..i]) == Ok(comps)
      invariant i >= 1 ==> result == CombineAll(comps)
    {
      var data := fetch(names[i]);
      if data.Err? {
        MapResultsFirstError(fetch, names, i);
        return Err(data.error);
      }
      if i == 0 {
        result := data.value;
      } else {
        result := InnerJoin(result, data.value);
      }
      MapResultsSnoc(fetch, names, i, comps, data.value);
      comps := comps + [data.value];
      i := i + 1;
    }
    assert names[..|names|] == names;
    return Ok(result);
  }

  /** `add_proxy_vars`. */
  method AddProxyVars(db: Database, equation: string, country: string)
      returns (r: Result<(seq<ProxyRow>, seq<string>)>)
    ensures r == ProxyFromEquation(db, equation, country)
  {
    if '+' !in equation {
      return Err(ValueError("unknown operation."));
    }
    var names := Split(equation, '+');
    SplitMany(equation, '+');
    var combined := CombineComponents(Fetcher(db, country), names);
    if combined.Err? {
      return Err(combined.error);
    }
    return Ok((combined.value, names));
  }
}
