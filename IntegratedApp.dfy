/** The data getters of integrated_app.py, the earlier revision: the same
    strategies with plainer labels, two-key `safe_get` paths in the IDP
    getter, and a refugee total without a breakdown. */
module IntegratedApp {
  import opened PyJson
  import opened Access
  import opened Funding
  import opened Refugees
  import opened Displacement

  const HrpFallbackLabel: string := "Documented values"
  const IdpFallbackLabel: string := "Documented value"
  const RefugeeLiveLabel: string := "UNHCR API"
  const RefugeeFallbackLabel: string := "Documented value"
  const FallbackRefugees: int := 3500000

  // ---------------------------------------------------------------------
  // Funding

  /** `get_sudan_hrp_data()`: the same chain of strategies as the later
      revision, with its own fallback label. */
  method GetSudanHrpData(planData: Option<Json>) returns (r: HrpFunding)
    ensures r == FundingSpec(planData, HrpFallbackLabel)
    ensures r.source == LiveSource || r == Fallback(HrpFallbackLabel)
  {
    if planData.None? || !Truthy(planData.value) {
      return Fallback(HrpFallbackLabel);
    }
    var pd := planData.value;
    var required := SafeGet(pd, RequiredPath, Null);
    var funded := Null;
    if !Truthy(funded) {
      funded := SafeGet(pd, RevisedPath, Null);
    }
    if !Truthy(funded) {
      var allocations := SafeGet(pd, AllocationsPath, Null);
      if Truthy(allocations) && allocations.Arr? {
        var sum := SumAmounts(allocations.items);
        if sum.Raised? {
          return Fallback(HrpFallbackLabel);
        }
        funded := Num(sum.value);
      }
    }
    assert AfterAllocations(pd, Lookup(pd, RevisedPath, Null)) == Ok(funded);
    if !Truthy(funded) && Truthy(required) {
      var fundedPercentage := SafeGet(pd, PercentagePath, Null);
      if Truthy(fundedPercentage) {
        var p := Numeric(fundedPercentage);
        var q := Numeric(required);
        if p.None? || q.None? {
          return Fallback(HrpFallbackLabel);
        }
        funded := Num(q.value * (p.value / 100.0));
      }
    }
    assert ResolveFunded(pd, required) == Ok(funded);
    if Truthy(required) || Truthy(funded) {
      return HrpFunding(required, funded, LiveSource);
    }
    return Fallback(HrpFallbackLabel);
  }

  // ---------------------------------------------------------------------
  // Displacement

  /** One iteration of the loop over `DATASETS`. Without the later
      revision's `if not result: continue`, a falsy `result` reaches the
      filter as `resources == []`; the outcome is the same. */
  method TryDataset(packageData: Option<Json>, search: Json -> Option<Json>, toNumeric: Json -> Option<real>)
    returns (a: Attempt)
    ensures a == DatasetAttempt(packageData, search, toNumeric)
    ensures forall c :: a == Found(c) <==> DatasetGives(packageData, search, c, toNumeric)
  {
    forall c ensures DatasetAttempt(packageData, search, toNumeric) == Found(c) <==>
      DatasetGives(packageData, search, c, toNumeric) {
      DatasetFound(packageData, search, c, toNumeric);
    }
    if packageData.None? || !Truthy(packageData.value) {
      return NotFound;
    }
    var resources := SafeGet(packageData.value, ["result", "resources"], Arr([]));
    var result := Lookup(packageData.value, ["result"], Null);
    ChainedLookup(packageData.value, ["result"], ["resources"], Arr([]));
    assert ["result"] + ["resources"] == ["result", "resources"];
    if !Truthy(result) {
      FalsyLevelYieldsDefault(packageData.value, ["result"], ["resources"], Arr([]));
      assert resources == Arr([]);
    }
    var items := Iterate(resources);
    if items.Raised? {
      return Failed;
    }
    var active := Active(items.value);
    if active.Raised? {
      return Failed;
    }
    if active.value == [] {
      return NotFound;
    }
    var latest := Latest(active.value);
    if latest.Raised? {
      return Failed;
    }
    var resource := active.value[latest.value];
    if !HasKey(resource.fields, "id") {
      return Failed;
    }
    var searchData := search(Field(resource.fields, "id"));
    a := FromSearch(searchData, toNumeric);
  }

  /** From the fetched datastore search to the figure, with the two-key path
      `safe_get(search_data, "result", "records", default=[])`. */
  method FromSearch(searchData: Option<Json>, toNumeric: Json -> Option<real>) returns (a: Attempt)
    ensures a == SearchAttempt(searchData, toNumeric)
    ensures forall c :: a == Found(c) <==> SearchGives(searchData, c, toNumeric)
  {
    forall c ensures SearchAttempt(searchData, toNumeric) == Found(c) <==> SearchGives(searchData, c, toNumeric) {
      SearchFound(searchData, c, toNumeric);
    }
    if searchData.None? || !Truthy(searchData.value) {
      return NotFound;
    }
    var records := SafeGet(searchData.value, ["result", "records"], Arr([]));
    ChainedLookup(searchData.value, ["result"], ["records"], Arr([]));
    assert ["result"] + ["records"] == ["result", "records"];
    if !Truthy(Lookup(searchData.value, ["result"], Null)) {
      FalsyLevelYieldsDefault(searchData.value, ["result"], ["records"], Arr([]));
    }
    return RecordsAttempt(records, toNumeric);
  }

  /** `get_idp_data()`: the first dataset that yields a figure ends the loop. */
  method GetIdpData(package: string -> Option<Json>, search: Json -> Option<Json>, toNumeric: Json -> Option<real>)
    returns (r: IdpFigure)
    ensures r == IdpSpec(Attempts(package, search, toNumeric), IdpFallbackLabel)
  {
    ghost var attempts := Attempts(package, search, toNumeric);
    for i := 0 to |Datasets|
      invariant forall j :: 0 <= j < i ==> !attempts[j].Found?
    {
      var name := Datasets[i];
      var a := TryDataset(package(name), search, toNumeric);
      assert a == attempts[i] by {
        assert i == 0 || i == 1;
      }
      if a.Found? {
        assert FirstFound(attempts) == Some(i);
        return IdpFigure(a.count, LiveLabel(name));
      }
    }
    return IdpFigure(FallbackIdps, IdpFallbackLabel);
  }

  // ---------------------------------------------------------------------
  // Refugees

  /** The dict `get_refugee_data()` returns: a total and its label. */
  datatype RefugeeTotal = RefugeeTotal(totalRefugees: int, source: string)

  /** The resolver: an accepted total under the live label, else the
      documented value. */
  function RefugeeSpec(data: Option<Json>, strToFloat: string -> Option<real>): RefugeeTotal
  {
    match LiveTotal(data, strToFloat)
    case None => RefugeeTotal(FallbackRefugees, RefugeeFallbackLabel)
    case Some(total) => RefugeeTotal(total, RefugeeLiveLabel)
  }

  /** `get_refugee_data()`: the loop adds each converted row to `total`. */
  method GetRefugeeData(data: Option<Json>, strToFloat: string -> Option<real>) returns (r: RefugeeTotal)
    ensures r == RefugeeSpec(data, strToFloat)
  {
    if data.None? || !Truthy(data.value) {
      return RefugeeTotal(FallbackRefugees, RefugeeFallbackLabel);
    }
    var rowsOrRaised := Rows(data.value);
    if rowsOrRaised.Raised? {
      return RefugeeTotal(FallbackRefugees, RefugeeFallbackLabel);
    }
    var rows := rowsOrRaised.value;
    var total := 0;
    for i := 0 to |rows|
      invariant TotalFold(rows[..i], strToFloat) == Ok(total)
    {
      var row := rows[i];
      assert rows[..i + 1][..i] == rows[..i];
      if !row.Obj? {
        TotalsAgree(rows, strToFloat);
        FoldRaisedIff(rows, strToFloat);
        return RefugeeTotal(FallbackRefugees, RefugeeFallbackLabel);
      }
      var count := RowCount(row, strToFloat);
      if count.Some? {
        total := total + count.value;
      }
    }
    assert rows[..|rows|] == rows;
    if total > 0 {
      return RefugeeTotal(total, RefugeeLiveLabel);
    }
    return RefugeeTotal(FallbackRefugees, RefugeeFallbackLabel);
  }

  /** A live total of the earlier revision is the sum of the converted
      counts of the rows, and the later revision reports the same total for
      the same document. */
  lemma LiveTotalIsCounted(data: Option<Json>, strToFloat: string -> Option<real>)
    requires RefugeeSpec(data, strToFloat).source == RefugeeLiveLabel
    ensures data.Some? && Rows(data.value).Ok?
    ensures RefugeeSpec(data, strToFloat).totalRefugees == Counted(Rows(data.value).value, strToFloat)
    ensures RefugeeSpec(data, strToFloat).totalRefugees > 0
    ensures LiveTally(data, strToFloat).Some? &&
            LiveTally(data, strToFloat).value.total == RefugeeSpec(data, strToFloat).totalRefugees
  {
    LiveTotalAgrees(data, strToFloat);
    LiveTallyAccounts(data, strToFloat, Null);
  }
}
