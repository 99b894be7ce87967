/** `get_sudan_hrp_data()`: the funding requirement and the funds received for
    the response plan, read from the decoded plan document by an ordered chain
    of strategies, with a documented fallback. */
module Funding {
  import opened PyJson
  import opened Access

  /** The dict the resolver returns: `required`, `funded` (raw values from the
      document, or numbers it computed) and the provenance label. */
  datatype HrpFunding = HrpFunding(required: Json, funded: Json, source: string)

  const LiveSource: string := "OCHA FTS API"
  const FallbackRequired: real := 4160000000.0
  const FallbackFunded: real := 266240000.0

  const RequiredPath: seq<string> := ["planVersion", "financialRequirements", "originalRequirements"]
  const RevisedPath: seq<string> := ["planVersion", "revisedFunding"]
  const AllocationsPath: seq<string> := ["planVersion", "allocationSources"]
  const PercentagePath: seq<string> := ["planVersion", "fundedPercentage"]

  /** The documented values, under the label of the revision. */
  function Fallback(source: string): HrpFunding
  {
    HrpFunding(Num(FallbackRequired), Num(FallbackFunded), source)
  }

  /** `safe_get(a, "amountUSD", default=0)`: a missing amount counts as 0. */
  function Amount(a: Json): Json
  {
    Lookup(a, ["amountUSD"], Num(0.0))
  }

  /** `sum([safe_get(a, "amountUSD", default=0) for a in allocations])`;
      adding a value that is not a number raises `TypeError`. */
  function SumAmounts(allocs: seq<Json>): Result<real>
  {
    if allocs == [] then Ok(0.0)
    else
      match SumAmounts(allocs[..|allocs| - 1])
      case Raised => Raised
      case Ok(s) =>
        match Numeric(Amount(allocs[|allocs| - 1]))
        case None => Raised
        case Some(a) => Ok(s + a)
  }

  /** Second strategy: only while `funded` is falsy, and only for a non-empty
      list of allocations, `funded` becomes their sum. */
  function AfterAllocations(pd: Json, funded: Json): Result<Json>
  {
    if Truthy(funded) then Ok(funded)
    else
      var allocs := Lookup(pd, AllocationsPath, Null);
      if Truthy(allocs) && allocs.Arr? then
        match SumAmounts(allocs.items)
        case Raised => Raised
        case Ok(s) => Ok(Num(s))
      else Ok(funded)
  }

  /** Third strategy: only while `funded` is falsy and `required` truthy, a
      truthy `fundedPercentage` gives `required * (fundedPercentage / 100)`;
      arithmetic on non-numbers raises `TypeError`. */
  function AfterPercentage(pd: Json, required: Json, funded: Json): Result<Json>
  {
    if !Truthy(funded) && Truthy(required) then
      var fp := Lookup(pd, PercentagePath, Null);
      if Truthy(fp) then
        match Numeric(fp)
        case None => Raised
        case Some(p) =>
          match Numeric(required)
          case None => Raised
          case Some(q) => Ok(Num(q * (p / 100.0)))
      else Ok(funded)
    else Ok(funded)
  }

  /** `funded` after the three strategies, the first being `revisedFunding`. */
  function ResolveFunded(pd: Json, required: Json): Result<Json>
  {
    match AfterAllocations(pd, Lookup(pd, RevisedPath, Null))
    case Raised => Raised
    case Ok(f) => AfterPercentage(pd, required, f)
  }

  /** The resolver as a whole, given the result of fetching the plan document
      and the fallback label of the revision. */
  function FundingSpec(plan: Option<Json>, fallbackSource: string): HrpFunding
  {
    if plan.None? || !Truthy(plan.value) then Fallback(fallbackSource)
    else
      var pd := plan.value;
      var required := Lookup(pd, RequiredPath, Null);
      match ResolveFunded(pd, required)
      case Raised => Fallback(fallbackSource)
      case Ok(funded) =>
        if Truthy(required) || Truthy(funded) then HrpFunding(required, funded, LiveSource)
        else Fallback(fallbackSource)
  }

  /** Allocations without an `amountUSD` add nothing to the sum. */
  lemma {:induction false} SumAmountsAppend(allocs: seq<Json>, more: seq<Json>)
    requires forall i :: 0 <= i < |more| ==> !(more[i].Obj? && HasKey(more[i].fields, "amountUSD"))
    ensures SumAmounts(allocs + more) == SumAmounts(allocs)
    decreases |more|
  {
    if more == [] {
      assert allocs + more == allocs;
    } else {
      var init := more[..|more| - 1];
      SumAmountsAppend(allocs, init);
      assert (allocs + more)[..|allocs + more| - 1] == allocs + init;
      var last := more[|more| - 1];
      var path := ["amountUSD"];
      assert path[..|path| - 1] == [];
      assert Step(last, "amountUSD").None?;
      assert Walk(last, path).None?;
      assert Amount(last) == Num(0.0);
    }
  }

  /** First strategy: a truthy `revisedFunding` wins, and the live result
      carries it with whatever requirement the document states. */
  lemma RevisedFundingWins(pd: Json, fallbackSource: string)
    requires Truthy(pd) && Truthy(Lookup(pd, RevisedPath, Null))
    ensures FundingSpec(Some(pd), fallbackSource) ==
      HrpFunding(Lookup(pd, RequiredPath, Null), Lookup(pd, RevisedPath, Null), LiveSource)
  {
  }

  /** Second strategy: without a truthy `revisedFunding`, a non-empty list of
      allocations whose amounts are numbers and add up to a non-zero total
      gives that total. */
  lemma AllocationSumIsNext(pd: Json, fallbackSource: string, total: real)
    requires Truthy(pd) && !Truthy(Lookup(pd, RevisedPath, Null))
    requires Truthy(Lookup(pd, AllocationsPath, Null)) && Lookup(pd, AllocationsPath, Null).Arr?
    requires SumAmounts(Lookup(pd, AllocationsPath, Null).items) == Ok(total) && total != 0.0
    ensures FundingSpec(Some(pd), fallbackSource) ==
      HrpFunding(Lookup(pd, RequiredPath, Null), Num(total), LiveSource)
  {
  }

  /** Third strategy: when the first two leave `funded` falsy (no value, an
      allocation list that is empty or not a list, or allocations summing to
      zero), a truthy numeric requirement and percentage give the derived
      amount. */
  lemma PercentageIsLast(pd: Json, fallbackSource: string, f: Json, q: real, p: real)
    requires Truthy(pd)
    requires AfterAllocations(pd, Lookup(pd, RevisedPath, Null)) == Ok(f) && !Truthy(f)
    requires Numeric(Lookup(pd, RequiredPath, Null)) == Some(q) && q != 0.0
    requires Numeric(Lookup(pd, PercentagePath, Null)) == Some(p) && p != 0.0
    ensures FundingSpec(Some(pd), fallbackSource) ==
      HrpFunding(Lookup(pd, RequiredPath, Null), Num(q * (p / 100.0)), LiveSource)
  {
    var required := Lookup(pd, RequiredPath, Null);
    assert Truthy(required) by {
      match required
      case Num(_) =>
      case Bool(_) =>
    }
    var fp := Lookup(pd, PercentagePath, Null);
    assert Truthy(fp) by {
      match fp
      case Num(_) =>
      case Bool(_) =>
    }
    PercentageStep(pd, required, f, q, p);
  }

  /** The third strategy changes nothing unless `funded` is still falsy and
      both the requirement and the percentage are truthy. */
  lemma PercentageNeedsBoth(pd: Json, required: Json, funded: Json)
    requires Truthy(funded) || !Truthy(required) || !Truthy(Lookup(pd, PercentagePath, Null))
    ensures AfterPercentage(pd, required, funded) == Ok(funded)
  {
  }

  /** The third strategy on a falsy `funded` with numeric operands. */
  lemma PercentageStep(pd: Json, required: Json, funded: Json, q: real, p: real)
    requires !Truthy(funded) && Truthy(required) && Truthy(Lookup(pd, PercentagePath, Null))
    requires Numeric(Lookup(pd, PercentagePath, Null)) == Some(p) && Numeric(required) == Some(q)
    ensures AfterPercentage(pd, required, funded) == Ok(Num(q * (p / 100.0)))
  {
  }

  /** The live label appears exactly when a truthy document was fetched, no
      strategy raised, and the requirement or the funding is truthy; every
      other case, exceptions included, gives the documented values. */
  lemma LiveOnlyWhenAccepted(plan: Option<Json>, fallbackSource: string)
    requires fallbackSource != LiveSource
    ensures FundingSpec(plan, fallbackSource).source == LiveSource <==>
      && plan.Some? && Truthy(plan.value)
      && ResolveFunded(plan.value, Lookup(plan.value, RequiredPath, Null)).Ok?
      && (Truthy(Lookup(plan.value, RequiredPath, Null)) ||
          Truthy(ResolveFunded(plan.value, Lookup(plan.value, RequiredPath, Null)).value))
    ensures FundingSpec(plan, fallbackSource).source == LiveSource ==>
      Truthy(FundingSpec(plan, fallbackSource).required) || Truthy(FundingSpec(plan, fallbackSource).funded)
    ensures FundingSpec(plan, fallbackSource).source != LiveSource ==>
      FundingSpec(plan, fallbackSource) == Fallback(fallbackSource)
  {
  }
}
