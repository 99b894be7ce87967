/** The data getters of fixed_final_app.py, the later revision: the step by
    step code of each getter, proved to compute the resolver it implements,
    with the provenance labels and documented values of this revision. */
module FixedApp {
  import opened PyJson
  import opened Access
  import opened Format
  import opened Funding
  import opened Refugees
  import opened Displacement

  const HrpFallbackLabel: string := "OCHA FTS (March 2025) & Sudan HRP 2025"
  const IdpFallbackLabel: string := "IOM Displacement Tracking Matrix (October 2024)"
  const RefugeeLiveLabel: string := "UNHCR Refugee Statistics API"
  const RefugeeFallbackLabel: string := "UNHCR Refugee Statistics (October 2024)"
  const FallbackRefugees: int := 3500000

  /** The documented refugees per country of asylum. */
  const FallbackByAsylum: map<Json, int> :=
    map[Str("EGY") := 1200000, Str("TCD") := 980000, Str("SSD") := 840000, Str("CAF") := 175000,
        Str("UGA") := 105000, Str("KEN") := 60000, Str("ETH") := 35000]

  /** The host-country cards of the page: ISO code and the figure shown when
      the breakdown has no entry for it. */
  const HostCards: seq<(string, int)> :=
    [("EGY", 1200000), ("TCD", 980000), ("SSD", 840000), ("CAF", 175000),
     ("UGA", 105000), ("KEN", 60000), ("ETH", 35000)]

  // ---------------------------------------------------------------------
  // Funding

  /** `get_sudan_hrp_data()`: `funded` is reassigned by each strategy in turn. */
  method GetSudanHrpData(planData: Option<Json>) returns (r: HrpFunding)
    ensures r == FundingSpec(planData, HrpFallbackLabel)
    ensures r.source == LiveSource || r == Fallback(HrpFallbackLabel)
  {
    if planData.None? || !Truthy(planData.value) {
      return Fallback(HrpFallbackLabel);
    }
    var pd := planData.value;
    var required := SafeGet(pd, RequiredPath, Null);
    var funded := Null;
    if !Truthy(funded) {
      funded := SafeGet(pd, RevisedPath, Null);
    }
    if !Truthy(funded) {
      var allocations := SafeGet(pd, AllocationsPath, Null);
      if Truthy(allocations) && allocations.Arr? {
        var sum := SumAmounts(allocations.items);
        if sum.Raised? {
          return Fallback(HrpFallbackLabel);
        }
        funded := Num(sum.value);
      }
    }
    assert AfterAllocations(pd, Lookup(pd, RevisedPath, Null)) == Ok(funded);
    if !Truthy(funded) && Truthy(required) {
      var fundedPercentage := SafeGet(pd, PercentagePath, Null);
      if Truthy(fundedPercentage) {
        var p := Numeric(fundedPercentage);
        var q := Numeric(required);
        if p.None? || q.None? {
          return Fallback(HrpFallbackLabel);
        }
        funded := Num(q.value * (p.value / 100.0));
      }
    }
    assert ResolveFunded(pd, required) == Ok(funded);
    if Truthy(required) || Truthy(funded) {
      return HrpFunding(required, funded, LiveSource);
    }
    return Fallback(HrpFallbackLabel);
  }

  /** The documented values give the 6.4% the page shows. */
  lemma DocumentedShare(strToFloat: string -> Option<real>)
    ensures FundedPercent(Fallback(HrpFallbackLabel).required, Fallback(HrpFallbackLabel).funded, strToFloat)
            == Some(6.4)
  {
  }

  // ---------------------------------------------------------------------
  // Displacement

  /** One iteration of the loop over `DATASETS`, inside its `try`: it yields
      the figure `c` exactly when the dataset gives `c` (`DatasetGives`). */
  method TryDataset(packageData: Option<Json>, search: Json -> Option<Json>, toNumeric: Json -> Option<real>)
    returns (a: Attempt)
    ensures a == DatasetAttempt(packageData, search, toNumeric)
    ensures forall c :: a == Found(c) <==> DatasetGives(packageData, search, c, toNumeric)
  {
    forall c ensures DatasetAttempt(packageData, search, toNumeric) == Found(c) <==> DatasetGives(packageData, search, c, toNumeric) {
      DatasetFound(packageData, search, c, toNumeric);
    }
    if packageData.None? || !Truthy(packageData.value) {
      return NotFound;
    }
    var result := SafeGet(packageData.value, ["result"], Null);
    if !Truthy(result) {
      return NotFound;
    }
    var resources := SafeGet(result, ["resources"], Arr([]));
    a := FromResources(resources, search, toNumeric);
  }

  /** From the `resources` of a package to the search of the latest one: the
      figure `c` exactly when the latest active resource's search gives it. */
  method FromResources(resources: Json, search: Json -> Option<Json>, toNumeric: Json -> Option<real>)
    returns (a: Attempt)
    ensures a == ResourcesAttempt(resources, search, toNumeric)
    ensures forall c :: a == Found(c) <==> ResourcesGive(resources, search, c, toNumeric)
  {
    forall c ensures ResourcesAttempt(resources, search, toNumeric) == Found(c) <==> ResourcesGive(resources, search, c, toNumeric) {
      ResourcesFound(resources, search, c, toNumeric);
    }
    var items := Iterate(resources);
    if items.Raised? {
      return Failed;
    }
    var active := Active(items.value);
    if active.Raised? {
      return Failed;
    }
    if active.value == [] {
      return NotFound;
    }
    var latest := Latest(active.value);
    if latest.Raised? {
      return Failed;
    }
    var resource := active.value[latest.value];
    if !HasKey(resource.fields, "id") {
      return Failed;
    }
    var searchData := search(Field(resource.fields, "id"));
    a := FromSearch(searchData, toNumeric);
  }

  /** From the fetched datastore search to the figure: `c` exactly when the
      records' first IDP column ends in `c`. */
  method FromSearch(searchData: Option<Json>, toNumeric: Json -> Option<real>) returns (a: Attempt)
    ensures a == SearchAttempt(searchData, toNumeric)
    ensures forall c :: a == Found(c) <==> SearchGives(searchData, c, toNumeric)
  {
    forall c ensures SearchAttempt(searchData, toNumeric) == Found(c) <==> SearchGives(searchData, c, toNumeric) {
      SearchFound(searchData, c, toNumeric);
    }
    if searchData.None? || !Truthy(searchData.value) {
      return NotFound;
    }
    var result := SafeGet(searchData.value, ["result"], Null);
    if !Truthy(result) {
      return NotFound;
    }
    var records := SafeGet(result, ["records"], Arr([]));
    a := RecordsAttempt(records, toNumeric);
  }

  /** `get_idp_data()`: the first dataset that yields a figure ends the loop. */
  method GetIdpData(package: string -> Option<Json>, search: Json -> Option<Json>, toNumeric: Json -> Option<real>)
    returns (r: IdpFigure)
    ensures r == IdpSpec(Attempts(package, search, toNumeric), IdpFallbackLabel)
  {
    ghost var attempts := Attempts(package, search, toNumeric);
    for i := 0 to |Datasets|
      invariant forall j :: 0 <= j < i ==> !attempts[j].Found?
    {
      var name := Datasets[i];
      var a := TryDataset(package(name), search, toNumeric);
      assert a == attempts[i] by {
        assert i == 0 || i == 1;
      }
      if a.Found? {
        assert FirstFound(attempts) == Some(i);
        return IdpFigure(a.count, LiveLabel(name));
      }
    }
    return IdpFigure(FallbackIdps, IdpFallbackLabel);
  }

  // ---------------------------------------------------------------------
  // Refugees

  /** The dict `get_refugee_data()` returns. */
  datatype RefugeeData = RefugeeData(totalRefugees: int, byAsylum: map<Json, int>, source: string)

  function RefugeeFallback(): RefugeeData
  {
    RefugeeData(FallbackRefugees, FallbackByAsylum, RefugeeFallbackLabel)
  }

  /** The resolver: an accepted tally under the live label, else the
      documented values. */
  function RefugeeSpec(data: Option<Json>, strToFloat: string -> Option<real>): RefugeeData
  {
    match LiveTally(data, strToFloat)
    case None => RefugeeFallback()
    case Some(t) => RefugeeData(t.total, t.byAsylum, RefugeeLiveLabel)
  }

  /** `get_refugee_data()`: a truthy document whose rows tally to a
      positive total is reported live, anything else falls back. */
  method GetRefugeeData(data: Option<Json>, strToFloat: string -> Option<real>) returns (r: RefugeeData)
    ensures r == RefugeeSpec(data, strToFloat)
  {
    if data.None? || !Truthy(data.value) {
      return RefugeeFallback();
    }
    var rowsOrRaised := Rows(data.value);
    if rowsOrRaised.Raised? {
      return RefugeeFallback();
    }
    var tally := TallyRows(rowsOrRaised.value, strToFloat);
    if tally.Raised? {
      return RefugeeFallback();
    }
    if tally.value.total > 0 {
      return RefugeeData(tally.value.total, tally.value.byAsylum, RefugeeLiveLabel);
    }
    return RefugeeFallback();
  }

  /** The loop of `get_refugee_data()`: `total` and `by_asylum` are updated
      row by row; a row that is not a dict raises out of the loop. */
  method TallyRows(rows: seq<Json>, strToFloat: string -> Option<real>) returns (r: Result<Tally>)
    ensures r == Fold(rows, strToFloat)
  {
    var total := 0;
    var byAsylum: map<Json, int> := map[];
    for i := 0 to |rows|
      invariant Fold(rows[..i], strToFloat) == Ok(Tally(total, byAsylum))
    {
      var row := rows[i];
      assert rows[..i + 1] == rows[..i] + [row];
      FoldSnoc(rows[..i], row, strToFloat);
      if !row.Obj? {
        FoldRaisedIff(rows, strToFloat);
        return Raised;
      }
      total, byAsylum := CountRow(total, byAsylum, row, strToFloat);
    }
    assert rows[..|rows|] == rows;
    return Ok(Tally(total, byAsylum));
  }

  /** The body of that loop for a dict row: a row with a count adds it to
      `total` and, when it names a country of asylum, to that country's entry. */
  method CountRow(total: int, byAsylum: map<Json, int>, row: Json, strToFloat: string -> Option<real>)
    returns (total': int, byAsylum': map<Json, int>)
    requires row.Obj?
    ensures StepRow(Tally(total, byAsylum), row, strToFloat) == Ok(Tally(total', byAsylum'))
  {
    total', byAsylum' := total, byAsylum;
    var count := RowCount(row, strToFloat);
    if count.Some? {
      total' := total + count.value;
      var coa := Country(row);
      if coa.Some? {
        byAsylum' := byAsylum[coa.value := (if coa.value in byAsylum then byAsylum[coa.value] else 0) + count.value];
      }
    }
  }

  /** `get_refugee_count(iso_code, fallback_value)`: the breakdown entry for
      the country when there is one, else the card's own figure. */
  function RefugeeCount(byAsylum: map<Json, int>, iso: string, fallback: int): int
  {
    if byAsylum != map[] && Str(iso) in byAsylum then byAsylum[Str(iso)] else fallback
  }

  /** On live data a card shows the sum of the counts of the rows for its
      country; a country that no counted row names has no entry, so its card
      shows the card's own figure. */
  lemma CardShowsCountryTotal(data: Option<Json>, strToFloat: string -> Option<real>, iso: string, fallback: int)
    requires RefugeeSpec(data, strToFloat).source == RefugeeLiveLabel
    ensures data.Some? && Rows(data.value).Ok?
    ensures var rows := Rows(data.value).value;
            var byAsylum := RefugeeSpec(data, strToFloat).byAsylum;
            && (Str(iso) in byAsylum ==>
                  RefugeeCount(byAsylum, iso, fallback) == CountryTotal(rows, Str(iso), strToFloat))
            && (Str(iso) !in byAsylum ==>
                  RefugeeCount(byAsylum, iso, fallback) == fallback &&
                  CountryTotal(rows, Str(iso), strToFloat) == 0)
            && (Str(iso) in byAsylum <==>
                  exists i :: 0 <= i < |rows| && Credits(rows[i], Str(iso), strToFloat))
  {
    assert LiveTally(data, strToFloat).Some?;
    LiveTallyAccounts(data, strToFloat, Str(iso));
  }

  /** On the documented values every card shows its own figure: the cards
      and the documented breakdown agree. */
  lemma CardsMatchDocumentedBreakdown()
    ensures forall i :: 0 <= i < |HostCards| ==>
      Str(HostCards[i].0) in FallbackByAsylum &&
      FallbackByAsylum[Str(HostCards[i].0)] == HostCards[i].1 &&
      RefugeeCount(FallbackByAsylum, HostCards[i].0, HostCards[i].1) == HostCards[i].1
    ensures forall k :: k in FallbackByAsylum ==> exists i :: 0 <= i < |HostCards| && k == Str(HostCards[i].0)
  {
    forall k | k in FallbackByAsylum
      ensures exists i :: 0 <= i < |HostCards| && k == Str(HostCards[i].0)
    {
      if k == Str("EGY") { assert k == Str(HostCards[0].0); }
      else if k == Str("TCD") { assert k == Str(HostCards[1].0); }
      else if k == Str("SSD") { assert k == Str(HostCards[2].0); }
      else if k == Str("CAF") { assert k == Str(HostCards[3].0); }
      else if k == Str("UGA") { assert k == Str(HostCards[4].0); }
      else if k == Str("KEN") { assert k == Str(HostCards[5].0); }
      else { assert k == Str(HostCards[6].0); }
    }
  }

  /** The documented breakdown adds up to 3,395,000 of the documented
      3,500,000: 105,000 refugees are not attributed to a listed country. */
  lemma DocumentedBreakdownSum()
    ensures MapSum(FallbackByAsylum) == 3395000
    ensures MapSum(FallbackByAsylum) + 105000 == FallbackRefugees
  {
    var m1 := map[Str("EGY") := 1200000];
    var m2 := m1[Str("TCD") := 980000];
    var m3 := m2[Str("SSD") := 840000];
    var m4 := m3[Str("CAF") := 175000];
    var m5 := m4[Str("UGA") := 105000];
    var m6 := m5[Str("KEN") := 60000];
    var m7 := m6[Str("ETH") := 35000];
    MapSumAdd(map[], Str("EGY"), 1200000);
    assert AddTo(map[], Str("EGY"), 1200000) == m1;
    MapSumAdd(m1, Str("TCD"), 980000);
    MapSumAdd(m2, Str("SSD"), 840000);
    MapSumAdd(m3, Str("CAF"), 175000);
    MapSumAdd(m4, Str("UGA"), 105000);
    MapSumAdd(m5, Str("KEN"), 60000);
    MapSumAdd(m6, Str("ETH"), 35000);
    assert m7 == FallbackByAsylum;
  }
}
