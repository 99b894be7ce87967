# Sudan crisis dashboard: the robust data getters

This project models the data layer of a Streamlit dashboard about the humanitarian
crisis in Sudan. The layer comes in two revisions of the same application,
`fixed_final_app.py` (the later one) and `integrated_app.py` (the earlier one).

The dashboard shows three headline figures. Each comes from a resolver that
queries a live public API, extracts the figure through an ordered chain of
strategies, and falls back to a documented constant. Every result carries a
provenance label.

- `get_sudan_hrp_data` reads the funding requirement and the funds received
  for the 2025 Sudan Humanitarian Response Plan from the OCHA FTS plan document.
- `get_idp_data` tries two HDX datasets in turn. For each one it fetches the
  package description, keeps the resources with an active datastore and picks
  the most recent one. It then searches that datastore, finds a column of total
  IDPs, and takes the column's last numeric value.
- `get_refugee_data` sums the refugee counts of the UNHCR population rows. The
  later revision also builds a breakdown by country of asylum, which feeds the
  host-country cards.

The helpers these rely on are modelled too:

- `fetch_json`, which never raises;
- `safe_get`, a path lookup through nested dicts;
- `fmt_num`, the K/M/B abbreviation;
- the guarded funded percentage.

Decoded JSON is the datatype `PyJson.Json`. Python's truthiness, `dict.get`,
`float`, `int` and iteration are written out over it. A caught exception is
the `Raised` case of `PyJson.Result`. The network and JSON decoding are not
modelled: each resolver takes the decoded document, or `None`, as a parameter.
Conversions Dafny cannot express natively are parameters as well: `float(str)`,
`pd.to_numeric` on one cell, and two-decimal printing.

Each resolver is a method in `FixedApp` or `IntegratedApp`, following the
Python step by step with `safe_get` as a loop method. Its postcondition ties
the result to a specification function. The funding and IDP resolvers of the
two revisions share one specification, and only the labels differ. The refugee
resolvers have a specification each: the later one carries the breakdown by
country and the earlier one only the total. `Refugees.LiveTotalAgrees` relates
the two. The properties the dashboard relies on are lemmas about
those specification functions. The per-dataset step of the IDP resolver is
proved to behave identically in both revisions. The later revision checks
`if not result: continue` and uses two one-key `safe_get` calls. The earlier
revision uses one two-key `safe_get` call, where a falsy `result` yields the
default `[]` and so reaches the same "nothing found" outcome.
`Access.ChainedLookup` and `Access.FalsyLevelYieldsDefault` carry that proof.

`safe_get`, `fmt_num` and the percentage are textually identical in the two
files (`integrated_app.py:157-177` and `integrated_app.py:379-384`), so one
definition models both.

## Model

| member | source | states |
|---|---|---|
| PyJson.Truthy | fixed_final_app.py:285 | Python truthiness of decoded JSON: `None`, `False`, zero, and the empty string, list and dict are falsy; every `if x:` and `x or y` of the resolvers uses it, and `PyJson.Iterate` states that a falsy iterable yields nothing |
| PyJson.DictGetField | fixed_final_app.py:419 | `d.get(k)` gives the value of the first entry with key `k` when the key is present, and `None` exactly when it is absent |
| PyJson.Or | fixed_final_app.py:419 | `a or b` is `a` when `a` is truthy and `b` otherwise; `Refugees.IsoValueCount` states its effect on a row's count |
| PyJson.Numeric | fixed_final_app.py:306 | the number a JSON value stands for in arithmetic (`True` as 1, `False` as 0, a number as itself), and none, a `TypeError`, for any other value; `Funding.AllocationSumIsNext` and `Funding.PercentageIsLast` state its use |
| PyJson.ToFloat | fixed_final_app.py:421 | `float(v)`: a number as itself, a boolean as 1 or 0, a string through `float(str)`, and an error for any other value; `Refugees.IsoValueCount` states its use on a numeric string |
| PyJson.Trunc | fixed_final_app.py:421 | `int(x)` truncates toward zero: the result lies within one of `x`, on the side of zero |
| PyJson.Iterate | fixed_final_app.py:417 | iterating a list yields its items, and iterating any falsy iterable yields nothing |
| PyJson.Lower | fixed_final_app.py:372 | `str.lower()` keeps the length, turns each upper-case letter into its lower-case letter, and leaves every other character unchanged |
| Access.Step | fixed_final_app.py:248-249 | one step of the path succeeds exactly when the current value is a dict holding the key |
| Access.SafeGet | fixed_final_app.py:245-252 | the loop returns the value at the end of the path, or the default once a step fails; an empty path returns the input itself |
| Access.WalkNoneExtends | fixed_final_app.py:250-251 | once a step fails, no longer path can recover a value (the early `return default`) |
| Access.WalkFailsIff | fixed_final_app.py:245-252 | the lookup yields the default exactly when, at some key of the path, the value reached is not a dict holding that key |
| Access.BlockingKey | fixed_final_app.py:248-251 | a failed lookup names the key at which it was blocked |
| Access.WalkAppend | fixed_final_app.py:245-252 | following path `a` and then path `b` is following `a + b` |
| Access.ChainedLookup | integrated_app.py:253 | a two-key `safe_get` equals two chained one-key calls |
| Access.FalsyLevelYieldsDefault | fixed_final_app.py:341-345 | a falsy intermediate value yields the default for every longer path |
| Access.TwoLevelDefault | integrated_app.py:253 | a missing or non-dict `result`, or a missing `resources`, gives the default `[]` |
| Fetch.LooksLikeJson | fixed_final_app.py:224-231 | the later revision's body guard: the stripped body starts with `{` or `[`; `Fetch.LooksLikeJsonIff` states it over the raw body |
| Fetch.FetchGuarded | fixed_final_app.py:219-240 | the later `fetch_json`: `None` on no reply, an error status, a body failing the guard, or a body that does not decode, and otherwise the decoded body; `Fetch.FailuresGiveNone` and `Fetch.GuardedRefinesPlain` state this |
| Fetch.FetchPlain | integrated_app.py:145-152 | the earlier `fetch_json`: `None` on no reply, an error status or a body that does not decode, and otherwise the decoded body; `Fetch.FailuresGiveNone` states this |
| Fetch.FailuresGiveNone | integrated_app.py:145-152 | `fetch_json` never raises: no reply, an error status or a body that does not decode gives `None`; a value is always the decoding of the body of a successful reply, which in the later revision also passed the guard |
| Fetch.LooksLikeJsonIff | fixed_final_app.py:224-231 | the body guard passes exactly when the body starts, after blanks, with `{` or `[` |
| Fetch.LeadingBlanksIgnored | fixed_final_app.py:224-228 | blanks before the body never change the verdict of the guard |
| Fetch.GuardedRefinesPlain | fixed_final_app.py:219-240 | the later `fetch_json` rejects every body that fails the guard and otherwise agrees with the earlier one, so it never yields a value the earlier one would not |
| Format.FmtNum | fixed_final_app.py:254-265 | `fmt_num` before printing: the placeholder, a mantissa with the K, M or B suffix, or a truncated whole number; `Format.FmtNumBuckets` states which bucket each value falls in |
| Format.FmtNumBuckets | fixed_final_app.py:254-265 | the placeholder appears exactly when conversion fails; a K/M/B mantissa times its unit gives the number back, with K and M mantissas in [1, 1000); whole numbers are exactly the values below 1000, truncated |
| Format.IntTextRoundTrip | fixed_final_app.py:263 | the text of the integer branch reads back as the integer, with a leading '-' exactly for negatives |
| Format.FmtNumExamples | integrated_app.py:166-175 | 1500 gives mantissa 1.5 with suffix K, 2.34 million mantissa 2.34 with suffix M, 4.16 billion mantissa 4.16 with suffix B (printed through `:.2f` as "1.50K", "2.34M", "4.16B"), and -5.7 the whole number -5 |
| Format.FmtTextExamples | integrated_app.py:166-177 | 999 is shown as the text "999", and a value that does not convert as the em-dash |
| Format.FundedPercent | fixed_final_app.py:491-496 | the guarded percentage `float(funded) / float(required) * 100`; `Format.FundedPercentGuard` states when it exists |
| Format.FundedPercentGuard | fixed_final_app.py:491-496 | the percentage exists exactly when both operands are truthy and convert and the requirement is not zero; it is then funded / required * 100, and a zero requirement gives no percentage and no exception |
| Funding.SumAmounts | fixed_final_app.py:300 | `sum(safe_get(a, "amountUSD", default=0) for a in allocations)`, raising on a non-numeric amount; `Funding.SumAmountsAppend` and `Funding.AllocationSumIsNext` state its properties |
| Funding.AfterAllocations | fixed_final_app.py:293-300 | the funded amount after the `revisedFunding` and allocation strategies; `Funding.RevisedFundingWins` and `Funding.AllocationSumIsNext` state its cases |
| Funding.AfterPercentage | fixed_final_app.py:303-306 | the percentage strategy, tried only when nothing is funded yet and the requirement and the percentage are both truthy; `Funding.PercentageIsLast` and `Funding.PercentageNeedsBoth` state its two halves |
| Funding.FundingSpec | fixed_final_app.py:272-322 | the HRP resolver: the chain of strategies on a fetched plan document, accepted when the requirement or the funding is truthy, else the documented values; `Funding.LiveOnlyWhenAccepted` states it |
| Funding.SumAmountsAppend | fixed_final_app.py:300 | allocations without an `amountUSD` add nothing to the sum |
| Funding.RevisedFundingWins | fixed_final_app.py:293-294 | a truthy `revisedFunding` is the funded amount of a live result |
| Funding.AllocationSumIsNext | fixed_final_app.py:297-300 | otherwise a non-empty allocation list with a non-zero numeric sum gives that sum |
| Funding.PercentageIsLast | fixed_final_app.py:303-306 | otherwise (no revised funding, and no allocations or a zero or falsy sum) a non-zero numeric requirement and funded percentage give requirement * percentage / 100 |
| Funding.PercentageNeedsBoth | fixed_final_app.py:303-305 | the percentage strategy changes nothing unless the funding is still falsy and both the requirement and the percentage are truthy |
| Funding.LiveOnlyWhenAccepted | fixed_final_app.py:308-322 | the live label appears exactly when a truthy document was fetched, no strategy raised, and the requirement or the funding is truthy; every other case gives exactly the documented values |
| Refugees.Rows | fixed_final_app.py:414 | `data.get("data") or data.get("items") or []`, raising when the document is not a dict; `Refugees.FoldRaisedIff` and `Refugees.LiveTallyAccounts` state what follows from it |
| Refugees.RowCount | fixed_final_app.py:419-421 | the count of a row: its first truthy field among `refugees`, `value` and `obs_value` (else 0), through `float` and `int`, and none when the conversion raises; `Refugees.IsoValueCount` states a case |
| Refugees.Country | fixed_final_app.py:424-425 | the first truthy field among `coa_iso`, `countryOfAsylum`, `coa` and `coa_name`, and none when none is truthy; `Refugees.IsoValueCountry` states a case |
| Refugees.StepRow | fixed_final_app.py:418-428 | one iteration: raise on a non-dict row, else credit the row's count to the total and its country; `Refugees.StepRowRaised` and `Refugees.CountedStep` state it |
| Refugees.Fold | fixed_final_app.py:417-428 | the later revision's loop from an empty tally; `Refugees.FoldTotal`, `Refugees.FoldBreakdown`, `Refugees.FoldBalance` and `Refugees.FoldRaisedIff` state its result |
| Refugees.TotalFold | integrated_app.py:318-326 | the earlier revision's loop, keeping only the total; `Refugees.TotalsAgree` relates it to `Refugees.Fold` |
| Refugees.LiveTally | fixed_final_app.py:412-435 | the accepted tally of a truthy document: rows that tally without raising to a positive total; `Refugees.LiveTallyAccounts` states it |
| Refugees.LiveTotal | integrated_app.py:318-332 | the earlier revision's accepted total; `Refugees.LiveTotalAgrees` and `IntegratedApp.LiveTotalIsCounted` state it |
| Refugees.MapSumAdd | fixed_final_app.py:426 | adding a count under one country adds it to the sum of the breakdown |
| Refugees.FoldTotal | fixed_final_app.py:417-428 | the loop's total is the sum of the counts of the rows that convert |
| Refugees.FoldBreakdown | fixed_final_app.py:424-426 | each breakdown entry is the sum of the counts of the rows naming that country, and a country has an entry exactly when some counted row names it |
| Refugees.FoldKeys | fixed_final_app.py:419-426 | a country is a key of the breakdown exactly when some dict row with a count that converts names it |
| Refugees.FoldBalance | fixed_final_app.py:417-428 | the breakdown plus the counts of rows without a usable country make up the total |
| Refugees.StepRowRaised | fixed_final_app.py:419 | one iteration raises exactly on a row that is not a dict |
| Refugees.FoldRaisedIff | fixed_final_app.py:417-419 | the loop raises, and the resolver falls back, exactly when some row is not a dict |
| Refugees.TotalsAgree | integrated_app.py:318-326 | the earlier revision's loop raises on the same rows and reaches the same total as the later one |
| Refugees.LiveTotalAgrees | integrated_app.py:328-332 | both revisions accept the same documents and report the same total |
| Refugees.LiveTallyAccounts | fixed_final_app.py:430-435 | an accepted tally has a positive total equal to the sum of the converted counts, per-country entries that are sums over rows and present exactly for the countries some counted row names, and a breakdown that balances with the rows lacking a country |
| Refugees.IsoValueCount | fixed_final_app.py:419-421 | a row with a numeric-string `value` and no `refugees` counts that number |
| Refugees.IsoValueCountry | fixed_final_app.py:424 | a row with a non-empty `coa_iso` is credited to that code |
| Refugees.FoldSnoc | fixed_final_app.py:417 | the loop over one more row is one more iteration |
| Refugees.FoldCountedRow | fixed_final_app.py:421-426 | a counted row with a country adds its count to the total and to that country's entry |
| Refugees.CountedStep | fixed_final_app.py:420-426 | one iteration over a counted row with a country updates both the total and the entry |
| Refugees.IsoRowStep | fixed_final_app.py:417-426 | one more row with an ISO code and a numeric-string value adds its count to the total and to that code's entry |
| Refugees.TwoRowExample | fixed_final_app.py:424-426 | two rows for EGY, 100 and 50, merge into one entry of 150 |
| Refugees.ThreeRowExample | fixed_final_app.py:414-428 | rows EGY 100, EGY 50 and TCD 30 give total 180 with EGY 150 and TCD 30 |
| Displacement.Active | fixed_final_app.py:347 | the filter raises exactly when some resource is not a dict, and otherwise keeps exactly the resources whose `datastore_active` is truthy |
| Displacement.ActiveAppend | fixed_final_app.py:347 | the filter works item by item: filtering a concatenation concatenates the filtered parts, so the kept resources stay in their original order |
| Displacement.ActiveSingle | fixed_final_app.py:347 | a single dict is kept exactly when its `datastore_active` is truthy |
| Displacement.SortKey | fixed_final_app.py:352 | the sort key `r.get("last_modified") or r.get("created") or ""`; `Displacement.StrKeys` and `Displacement.LatestIsGreatest` state how it orders the resources |
| Displacement.StrKeys | fixed_final_app.py:352 | the sort keys are all strings, or some resource's key is not a string |
| Displacement.LatestIndex | fixed_final_app.py:351-353 | the stable reverse sort puts first the position with the greatest key, and every earlier key is strictly smaller |
| Displacement.Latest | fixed_final_app.py:351-353 | the chosen position is a valid index, and a single resource is taken without comparing keys |
| Displacement.LatestIsGreatest | fixed_final_app.py:351-353 | the chosen resource has the greatest sort key of all active resources, and the first such one |
| Displacement.LatestIsLatest | fixed_final_app.py:351-353 | the chosen position is a lone resource, or one whose string key no other key exceeds and which no earlier resource ties |
| Displacement.LatestUnique | fixed_final_app.py:351-353 | at most one position satisfies `IsLatest`, so the description pins down the sort's choice |
| Displacement.LatestGivesIff | fixed_final_app.py:351-358 | the latest active resource, as `IsLatest` describes it, gives `c` exactly when the sort succeeds and the resource it picks has an `id` whose search gives `c` |
| Displacement.StrLtTransitive | fixed_final_app.py:351-353 | Python's string order is transitive |
| Displacement.StrLtTotal | fixed_final_app.py:351-353 | Python's string order is total on distinct strings |
| Displacement.Columns | fixed_final_app.py:368 | the DataFrame columns are each record key exactly once |
| Displacement.ColumnsPrefix | fixed_final_app.py:368 | the columns are in order of first appearance: the columns of the first n records come first, in the same order, and later records only append |
| Displacement.IsIdpColumn | fixed_final_app.py:371-372 | a column matches when its lower-cased name contains "idp" and "total" or "count"; `Displacement.FirstIdpColumn` states the choice among matches |
| Displacement.FirstIdpColumn | fixed_final_app.py:371-376 | `idp_cols[0]` is a matching column with no matching column before it, and there is none when no column matches |
| Displacement.Cell | fixed_final_app.py:377 | `pd.to_numeric` of one record's value in a column, NaN when the record lacks the column or holds null there; `Displacement.LastNumeric` states its use |
| Displacement.LastNumeric | fixed_final_app.py:377 | `.dropna().iloc[-1]` is the last numeric cell: every later cell is NaN, and there is none when all cells are NaN |
| Displacement.RecordsAttempt | fixed_final_app.py:366-381 | the records step: nothing for falsy records or records without an IDP column, an exception for records that are not a list of dicts or whose IDP column has no number, else the truncated last number; `Displacement.RecordsFound` and `Displacement.RecordsFail` state it |
| Displacement.SearchAttempt | fixed_final_app.py:357-381 | the search step: nothing for a falsy search or `result`, else the records step; `Displacement.SearchFound` and `Displacement.SearchFallsThrough` state it |
| Displacement.ResourcesAttempt | fixed_final_app.py:346-358 | the resources step: filter, sort, `resource["id"]` and the search; `Displacement.ResourcesFound` and `Displacement.ResourcesFail` state it |
| Displacement.LatestAttempt | fixed_final_app.py:349-358 | from the active resources: nothing when there are none, else sort, `resource["id"]` and the search; `Displacement.LatestFound` states it |
| Displacement.DatasetAttempt | fixed_final_app.py:335-384 | one dataset's outcome: a figure, nothing (try the next dataset) or a caught exception; `Displacement.DatasetFound` and `Displacement.NothingToTryFallsThrough` state it |
| Displacement.IdpSpec | fixed_final_app.py:334-393 | the IDP resolver: the first dataset figure under its name, else the documented figure; `Displacement.FirstSuccessWins` and `Displacement.FallbackIffNoneFound` state it |
| Displacement.RecordsFound | fixed_final_app.py:366-381 | the records yield `c` exactly when they are a list of dicts whose first IDP column has `c` as its truncated last numeric cell |
| Displacement.SearchFound | fixed_final_app.py:357-381 | the search yields `c` exactly when it and its `result` are truthy and its `records` yield `c` |
| Displacement.LatestFound | fixed_final_app.py:349-358 | the active resources yield `c` exactly when there is one and the latest one has an `id` whose search gives `c` |
| Displacement.ResourcesFound | fixed_final_app.py:346-358 | the resources yield `c` exactly when they are dicts, some are active, and the latest active one, the unique position `IsLatest` describes, has an `id` whose search yields `c` |
| Displacement.DatasetFound | fixed_final_app.py:335-381 | a dataset yields `c` exactly when its package and `result` are truthy and its resources yield `c` |
| Displacement.RecordsFail | fixed_final_app.py:366-384 | truthy records that are not a list of dicts, or a first IDP column without a numeric cell, raise and are caught |
| Displacement.ResourcesFail | fixed_final_app.py:346-384 | resources that cannot be iterated, a non-dict resource, several resources with a non-string key, or a latest resource without an `id` raise and are caught |
| Displacement.SearchFallsThrough | fixed_final_app.py:357-376 | a falsy search, a falsy `result`, falsy records, or records without an IDP column yield nothing, so the next dataset is tried |
| Displacement.FoundIsLastCellOfFirstColumn | fixed_final_app.py:366-381 | a figure is the truncated last numeric cell of the first matching column |
| Displacement.FirstFound | fixed_final_app.py:334-384 | the first dataset that yields a figure, with none before it; none when no dataset does |
| Displacement.FirstSuccessWins | fixed_final_app.py:334-393 | the first dataset that yields a figure provides the result under its name, and otherwise the documented 10.9 million is returned |
| Displacement.FallbackIffNoneFound | fixed_final_app.py:386-393 | the fallback label appears exactly when no dataset yields a figure, and always with the documented figure |
| Displacement.NothingToTryFallsThrough | fixed_final_app.py:340-349 | a missing or falsy package, a falsy `result`, or resources with no active one yield nothing, so the next dataset is tried |
| FixedApp.GetSudanHrpData | fixed_final_app.py:272-322 | the method computes the funding specification, so the result is live-labelled or exactly the documented values |
| FixedApp.DocumentedShare | fixed_final_app.py:318-320 | the documented funding is 6.4% of the documented requirement |
| FixedApp.TryDataset | fixed_final_app.py:335-384 | one dataset iteration, with `if not result: continue`, yields the figure `c` exactly when the dataset gives `c` (truthy package and `result`, latest active resource with an `id`, its search's first IDP column ending in `c`) |
| FixedApp.FromResources | fixed_final_app.py:346-358 | filter, latest resource and datastore search by `resource["id"]` yield `c` exactly when the latest active resource has an `id` whose search gives `c` |
| FixedApp.FromSearch | fixed_final_app.py:360-381 | the search step yields `c` exactly when the search and its `result` are truthy and the records' first IDP column has `c` as its truncated last numeric cell |
| FixedApp.GetIdpData | fixed_final_app.py:325-393 | the loop over the datasets computes the resolver specification: the first figure found, or the fallback |
| FixedApp.RefugeeSpec | fixed_final_app.py:412-452 | the refugee resolver: an accepted tally under the live label, else the documented total and breakdown; `Refugees.LiveTallyAccounts` states the tally |
| FixedApp.GetRefugeeData | fixed_final_app.py:396-452 | the method computes the live tally when it is accepted, and the documented figures otherwise |
| FixedApp.TallyRows | fixed_final_app.py:417-428 | the loop over the rows computes the later revision's fold: it raises on a non-dict row and otherwise ends with the fold's total and breakdown |
| FixedApp.CountRow | fixed_final_app.py:419-426 | the body of the loop for a dict row performs exactly one iteration of the fold |
| FixedApp.RefugeeCount | fixed_final_app.py:656-659 | `get_refugee_count`: the breakdown entry for the country when there is one, else the card's figure; `FixedApp.CardShowsCountryTotal` states it on live data |
| FixedApp.CardShowsCountryTotal | fixed_final_app.py:656-659 | on live data a host-country card shows the sum of the counts of the rows naming that country when the breakdown has an entry, and the card's default otherwise; the entry exists exactly when some counted row names the country, so a country with no such row shows the default rather than 0 |
| FixedApp.CardsMatchDocumentedBreakdown | fixed_final_app.py:440-450 | under the documented values, every card shows its default, which is the documented breakdown entry |
| FixedApp.DocumentedBreakdownSum | fixed_final_app.py:439-452 | the documented breakdown sums to 3,395,000, which is 105,000 short of the documented total of 3,500,000 |
| IntegratedApp.GetSudanHrpData | integrated_app.py:184-234 | the same funding specification as the later revision, under the label "Documented values" |
| IntegratedApp.TryDataset | integrated_app.py:246-288 | one dataset iteration with two-key paths computes the same per-dataset outcome as the later revision, so it too yields `c` exactly when the dataset gives `c` |
| IntegratedApp.FromSearch | integrated_app.py:268-285 | the two-key `records` path computes the same outcome as the later revision's search step, yielding `c` exactly when the search gives `c` |
| IntegratedApp.GetIdpData | integrated_app.py:237-297 | the loop over the datasets computes the shared resolver specification under "Documented value" |
| IntegratedApp.RefugeeSpec | integrated_app.py:317-340 | the earlier refugee resolver: an accepted total under "UNHCR API", else the documented 3.5 million; `Refugees.LiveTotalAgrees` and `IntegratedApp.LiveTotalIsCounted` state the total |
| IntegratedApp.GetRefugeeData | integrated_app.py:300-340 | the loop computes the accepted live total, and the documented value otherwise |
| IntegratedApp.LiveTotalIsCounted | integrated_app.py:318-332 | a live total of the earlier revision is positive, is the sum of the converted counts, and equals the later revision's total for the same document |

## Left out

- The network is not modelled: `requests.get`, its 30-second timeout, query parameters and headers. `fetch_json` takes the reply, or its absence, as input.
- `r.json()` is the `decode` parameter. JSON parsing is not modelled.
- `st.cache_data` time-to-live caching, `st.warning` diagnostics and all Streamlit rendering are not modelled. This includes the metric boxes, charts, sidebar, logo and timestamps (`now_utc`).
- The clock is not modelled. The refugee query's `yearTo` is only a request parameter.
- Python `float(str)` parsing is the `strToFloat` parameter, and `pd.to_numeric(..., errors="coerce")` on one cell is the `toNumeric` parameter. The same applies to the `:.2f` formatting in `Format.Text`.
- Floating point is not modelled. Numbers are exact reals, with no NaN, no infinities, no rounding, and no `OverflowError` from `int(inf)`.
- PyJson.Lower: lower-cases ASCII letters only. Other Unicode case mappings are not modelled.
- JSON objects with duplicate keys are not modelled separately: a lookup takes the first entry with the key.
- Python's equality of `True` with `1` and `False` with `0` as dict keys is not modelled. A breakdown keyed by both would merge their entries in Python, but keeps them apart here.
- `pd.DataFrame(records)` is modelled only for a list of dicts. Other record shapes are treated as a caught exception (`Failed`), whereas pandas accepts some of them, such as a list of lists.
- Displacement.Latest: with two or more active resources, any sort key that is not a string is modelled as a `TypeError`. Python would also sort all-numeric keys. A single resource is taken without comparing keys, as Python does.
- The documented refugee breakdown (`fixed_final_app.py:442-450`) sums to 105,000 less than the documented total. `FixedApp.DocumentedBreakdownSum` records this as a fact of the constants; it changes no behaviour.
