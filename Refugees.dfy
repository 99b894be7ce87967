/** The row fold of `get_refugee_data()`: each row of the population API
    contributes its count to a running total and, in the later revision, to a
    breakdown by country of asylum. */
module Refugees {
  import opened PyJson

  /** The running state of the loop: `total` and the `by_asylum` dict. */
  datatype Tally = Tally(total: int, byAsylum: map<Json, int>)

  /** `row.get(k)` on a dict. */
  function RowGet(row: Json, k: string): Json
    requires row.Obj?
  {
    DictGet(row.fields, k)
  }

  /** `int(float(row.get("refugees") or row.get("value") or row.get("obs_value") or 0))`;
      `None` where the conversion raises and the row is skipped. */
  function RowCount(row: Json, strToFloat: string -> Option<real>): Option<int>
    requires row.Obj?
  {
    var v := Or(RowGet(row, "refugees"), Or(RowGet(row, "value"), Or(RowGet(row, "obs_value"), Num(0.0))));
    match ToFloat(v, strToFloat)
    case None => None
    case Some(x) => Some(Trunc(x))
  }

  /** The key a counted row adds to `by_asylum`: the first truthy of
      `coa_iso`, `countryOfAsylum`, `coa`, `coa_name`. `None` when that value
      is falsy, or unhashable (the dict update raises and the bare `except`
      swallows it, after the total was already increased). */
  function Country(row: Json): Option<Json>
    requires row.Obj?
  {
    var coa := Or(RowGet(row, "coa_iso"), Or(RowGet(row, "countryOfAsylum"), Or(RowGet(row, "coa"), RowGet(row, "coa_name"))));
    if Truthy(coa) && Hashable(coa) then Some(coa) else None
  }

  /** `m[k] = m.get(k, 0) + c`. */
  function AddTo(m: map<Json, int>, k: Json, c: int): map<Json, int>
  {
    m[k := (if k in m then m[k] else 0) + c]
  }

  /** What a row adds to the tally, given its converted count (`None` when
      the row is skipped) and its country key. */
  function Credit(t: Tally, count: Option<int>, country: Option<Json>): Tally
  {
    match count
    case None => t
    case Some(c) =>
      Tally(t.total + c,
            match country
            case None => t.byAsylum
            case Some(k) => AddTo(t.byAsylum, k, c))
  }

  /** One iteration of the later revision's loop. A row that is not a dict
      makes `row.get` raise outside the inner `try`. */
  function StepRow(t: Tally, row: Json, strToFloat: string -> Option<real>): Result<Tally>
  {
    if !row.Obj? then Raised
    else Ok(Credit(t, RowCount(row, strToFloat), Country(row)))
  }

  /** The later revision's loop over `rows`, from `total = 0, by_asylum = {}`. */
  function Fold(rows: seq<Json>, strToFloat: string -> Option<real>): Result<Tally>
  {
    if rows == [] then Ok(Tally(0, map[]))
    else
      match Fold(rows[..|rows| - 1], strToFloat)
      case Raised => Raised
      case Ok(t) => StepRow(t, rows[|rows| - 1], strToFloat)
  }

  /** The earlier revision's loop, which keeps only the total. */
  function TotalFold(rows: seq<Json>, strToFloat: string -> Option<real>): Result<int>
  {
    if rows == [] then Ok(0)
    else
      match TotalFold(rows[..|rows| - 1], strToFloat)
      case Raised => Raised
      case Ok(total) =>
        var row := rows[|rows| - 1];
        if !row.Obj? then Raised
        else
          match RowCount(row, strToFloat)
          case None => Ok(total)
          case Some(c) => Ok(total + c)
  }

  /** The rows to loop over: `data.get("data") or data.get("items") or []`;
      `data.get` raises unless the document is a dict. */
  function Rows(data: Json): Result<seq<Json>>
  {
    if !data.Obj? then Raised
    else Iterate(Or(RowGet(data, "data"), Or(RowGet(data, "items"), Arr([]))))
  }

  /** The count a row contributes: its converted count, 0 when it is skipped. */
  function Contribution(row: Json, strToFloat: string -> Option<real>): int
  {
    if row.Obj? && RowCount(row, strToFloat).Some? then RowCount(row, strToFloat).value else 0
  }

  /** The sum of the counts of all converted rows. */
  function Counted(rows: seq<Json>, strToFloat: string -> Option<real>): int
  {
    if rows == [] then 0
    else Counted(rows[..|rows| - 1], strToFloat) + Contribution(rows[|rows| - 1], strToFloat)
  }

  /** The sum of the counts of converted rows whose country key is `k`. */
  function CountryTotal(rows: seq<Json>, k: Json, strToFloat: string -> Option<real>): int
  {
    if rows == [] then 0
    else
      var row := rows[|rows| - 1];
      CountryTotal(rows[..|rows| - 1], k, strToFloat) +
        (if row.Obj? && Country(row) == Some(k) then Contribution(row, strToFloat) else 0)
  }

  /** The sum of the counts of converted rows without a usable country key. */
  function Unattributed(rows: seq<Json>, strToFloat: string -> Option<real>): int
  {
    if rows == [] then 0
    else
      var row := rows[|rows| - 1];
      Unattributed(rows[..|rows| - 1], strToFloat) +
        (if row.Obj? && Country(row).None? then Contribution(row, strToFloat) else 0)
  }

  /** The sum of the values of a breakdown. */
  ghost function MapSum(m: map<Json, int>): int
    decreases |m|
  {
    if m == map[] then 0
    else
      var k :| k in m;
      assert |m - {k}| < |m| by {
        assert (m - {k}).Keys == m.Keys - {k};
      }
      m[k] + MapSum(m - {k})
  }

  /** Any entry can be taken out of the sum first. */
  lemma {:induction false} MapSumRemove(m: map<Json, int>, k: Json)
    requires k in m
    ensures MapSum(m) == m[k] + MapSum(m - {k})
    decreases |m|
  {
    var j :| j in m && MapSum(m) == m[j] + MapSum(m - {j});
    if j != k {
      assert (m - {j}).Keys == m.Keys - {j};
      assert (m - {k}).Keys == m.Keys - {k};
      MapSumRemove(m - {j}, k);
      MapSumRemove(m - {k}, j);
      assert m - {j} - {k} == m - {k} - {j};
    }
  }

  /** Adding `c` under one key adds `c` to the sum. */
  lemma MapSumAdd(m: map<Json, int>, k: Json, c: int)
    ensures MapSum(AddTo(m, k, c)) == MapSum(m) + c
  {
    var m' := AddTo(m, k, c);
    MapSumRemove(m', k);
    if k in m {
      MapSumRemove(m, k);
      assert m' - {k} == m - {k};
    } else {
      assert m' - {k} == m;
    }
  }

  /** The total is the sum of the counts of the rows that convert. */
  lemma {:induction false} FoldTotal(rows: seq<Json>, strToFloat: string -> Option<real>)
    requires Fold(rows, strToFloat).Ok?
    ensures Fold(rows, strToFloat).value.total == Counted(rows, strToFloat)
  {
    if rows != [] {
      FoldTotal(rows[..|rows| - 1], strToFloat);
    }
  }

  /** The row is counted and credited to country `k`. */
  predicate Credits(row: Json, k: Json, strToFloat: string -> Option<real>)
  {
    row.Obj? && RowCount(row, strToFloat).Some? && Country(row) == Some(k)
  }

  /** A country has an entry exactly when some counted row names it. */
  lemma {:induction false} FoldKeys(rows: seq<Json>, k: Json, strToFloat: string -> Option<real>)
    requires Fold(rows, strToFloat).Ok?
    ensures k in Fold(rows, strToFloat).value.byAsylum <==>
      exists i :: 0 <= i < |rows| && Credits(rows[i], k, strToFloat)
  {
    if rows != [] {
      var init := rows[..|rows| - 1];
      FoldKeys(init, k, strToFloat);
      if exists i :: 0 <= i < |rows| && Credits(rows[i], k, strToFloat) {
        var i :| 0 <= i < |rows| && Credits(rows[i], k, strToFloat);
        if i < |init| {
          assert Credits(init[i], k, strToFloat);
        }
      }
      if exists i :: 0 <= i < |init| && Credits(init[i], k, strToFloat) {
        var i :| 0 <= i < |init| && Credits(init[i], k, strToFloat);
        assert Credits(rows[i], k, strToFloat);
      }
    }
  }

  /** Each entry of the breakdown is the sum of the counts of the rows naming
      that country, and a country has an entry exactly when some counted row
      names it. */
  lemma {:induction false} FoldBreakdown(rows: seq<Json>, k: Json, strToFloat: string -> Option<real>)
    requires Fold(rows, strToFloat).Ok?
    ensures CountryTotal(rows, k, strToFloat) ==
      (if k in Fold(rows, strToFloat).value.byAsylum then Fold(rows, strToFloat).value.byAsylum[k] else 0)
    ensures k in Fold(rows, strToFloat).value.byAsylum <==>
      exists i :: 0 <= i < |rows| && Credits(rows[i], k, strToFloat)
  {
    if rows != [] {
      FoldBreakdown(rows[..|rows| - 1], k, strToFloat);
    }
    FoldKeys(rows, k, strToFloat);
  }

  /** The breakdown and the rows without a usable country add up to the total. */
  lemma {:induction false} FoldBalance(rows: seq<Json>, strToFloat: string -> Option<real>)
    requires Fold(rows, strToFloat).Ok?
    ensures MapSum(Fold(rows, strToFloat).value.byAsylum) + Unattributed(rows, strToFloat) ==
      Fold(rows, strToFloat).value.total
  {
    if rows != [] {
      var init := rows[..|rows| - 1];
      var row := rows[|rows| - 1];
      FoldBalance(init, strToFloat);
      var t := Fold(init, strToFloat).value;
      if RowCount(row, strToFloat).Some? && Country(row).Some? {
        MapSumAdd(t.byAsylum, Country(row).value, RowCount(row, strToFloat).value);
      }
    }
  }

  /** One iteration raises exactly on a row that is not a dict. */
  lemma StepRowRaised(t: Tally, row: Json, strToFloat: string -> Option<real>)
    ensures StepRow(t, row, strToFloat).Raised? <==> !row.Obj?
  {
  }

  /** The loop raises exactly when some row is not a dict. */
  lemma {:induction false} FoldRaisedIff(rows: seq<Json>, strToFloat: string -> Option<real>)
    ensures Fold(rows, strToFloat).Raised? <==> exists i :: 0 <= i < |rows| && !rows[i].Obj?
  {
    if rows != [] {
      var init := rows[..|rows| - 1];
      var row := rows[|rows| - 1];
      FoldRaisedIff(init, strToFloat);
      if Fold(init, strToFloat).Raised? {
        var i :| 0 <= i < |init| && !init[i].Obj?;
        assert rows[i] == init[i];
      } else {
        StepRowRaised(Fold(init, strToFloat).value, row, strToFloat);
        assert Fold(rows, strToFloat) == StepRow(Fold(init, strToFloat).value, row, strToFloat);
        if row.Obj? {
          forall i | 0 <= i < |rows| ensures rows[i].Obj? {
            if i < |init| {
              assert rows[i] == init[i];
            }
          }
        }
      }
    }
  }

  /** Both revisions compute the same total from the same rows, and raise on
      the same rows. */
  lemma {:induction false} TotalsAgree(rows: seq<Json>, strToFloat: string -> Option<real>)
    ensures TotalFold(rows, strToFloat).Raised? <==> Fold(rows, strToFloat).Raised?
    ensures TotalFold(rows, strToFloat).Ok? ==>
      TotalFold(rows, strToFloat).value == Fold(rows, strToFloat).value.total
  {
    if rows != [] {
      TotalsAgree(rows[..|rows| - 1], strToFloat);
    }
  }

  /** The tally the later revision accepts: a truthy document whose rows
      fold without an exception to a positive total; `None` sends the
      resolver to its documented values. */
  function LiveTally(data: Option<Json>, strToFloat: string -> Option<real>): Option<Tally>
  {
    if data.None? || !Truthy(data.value) then None
    else
      match Rows(data.value)
      case Raised => None
      case Ok(rows) =>
        match Fold(rows, strToFloat)
        case Raised => None
        case Ok(t) => if t.total > 0 then Some(t) else None
  }

  /** The total the earlier revision accepts, under the same conditions. */
  function LiveTotal(data: Option<Json>, strToFloat: string -> Option<real>): Option<int>
  {
    if data.None? || !Truthy(data.value) then None
    else
      match Rows(data.value)
      case Raised => None
      case Ok(rows) =>
        match TotalFold(rows, strToFloat)
        case Raised => None
        case Ok(total) => if total > 0 then Some(total) else None
  }

  /** The two revisions accept the same documents and report the same total. */
  lemma LiveTotalAgrees(data: Option<Json>, strToFloat: string -> Option<real>)
    ensures LiveTotal(data, strToFloat).Some? <==> LiveTally(data, strToFloat).Some?
    ensures LiveTotal(data, strToFloat).Some? ==>
      LiveTotal(data, strToFloat).value == LiveTally(data, strToFloat).value.total
  {
    if data.Some? && Truthy(data.value) && Rows(data.value).Ok? {
      TotalsAgree(Rows(data.value).value, strToFloat);
    }
  }

  /** An accepted tally accounts for its rows: a positive total that is the
      sum of the converted counts, entries that are per-country sums present
      exactly for the countries some counted row names, and a breakdown that together with the rows without a country makes up
      the total. */
  lemma LiveTallyAccounts(data: Option<Json>, strToFloat: string -> Option<real>, k: Json)
    requires LiveTally(data, strToFloat).Some?
    ensures data.Some? && Rows(data.value).Ok?
    ensures var rows := Rows(data.value).value;
            var t := LiveTally(data, strToFloat).value;
            && t.total > 0
            && t.total == Counted(rows, strToFloat)
            && CountryTotal(rows, k, strToFloat) == (if k in t.byAsylum then t.byAsylum[k] else 0)
            && (k in t.byAsylum <==> exists i :: 0 <= i < |rows| && Credits(rows[i], k, strToFloat))
            && MapSum(t.byAsylum) + Unattributed(rows, strToFloat) == t.total
  {
    var rows := Rows(data.value).value;
    FoldTotal(rows, strToFloat);
    FoldBreakdown(rows, k, strToFloat);
    FoldBalance(rows, strToFloat);
  }

  /** The row `{"coa_iso": iso, "value": text}`. */
  function IsoRow(iso: string, text: string): Json
  {
    Obj([("coa_iso", Str(iso)), ("value", Str(text))])
  }

  /** A row `{"coa_iso": iso, "value": text}` counts `float(text)`. */
  lemma IsoValueCount(iso: string, text: string, n: nat, strToFloat: string -> Option<real>)
    requires text != [] && strToFloat(text) == Some(n as real)
    ensures IsoRow(iso, text).Obj? && RowCount(IsoRow(iso, text), strToFloat) == Some(n)
  {
    var fields := [("coa_iso", Str(iso)), ("value", Str(text))];
    assert fields[1..] == [("value", Str(text))] && fields[1..][1..] == [];
    assert DictGet(fields[1..], "refugees") == Null;
    assert DictGet(fields, "refugees") == Null;
    assert DictGet(fields, "value") == Str(text);
    assert Trunc(n as real) == n;
  }

  /** A row `{"coa_iso": iso, ...}` is counted for the country `iso`. */
  lemma IsoValueCountry(iso: string, text: string)
    requires iso != []
    ensures IsoRow(iso, text).Obj? && Country(IsoRow(iso, text)) == Some(Str(iso))
  {
  }

  /** The loop over `rows + [row]` is one more iteration after the loop over `rows`. */
  lemma FoldSnoc(rows: seq<Json>, row: Json, strToFloat: string -> Option<real>)
    ensures Fold(rows + [row], strToFloat) ==
      match Fold(rows, strToFloat) case Raised => Raised case Ok(t) => StepRow(t, row, strToFloat)
  {
    var rs := rows + [row];
    assert rs[..|rs| - 1] == rows && rs[|rs| - 1] == row;
  }

  /** The loop adds a counted row with a country to the total and to the
      entry of that country. */
  lemma FoldCountedRow(rows: seq<Json>, row: Json, t: Tally, c: int, k: Json, strToFloat: string -> Option<real>)
    requires Fold(rows, strToFloat) == Ok(t)
    requires row.Obj? && RowCount(row, strToFloat) == Some(c) && Country(row) == Some(k)
    ensures Fold(rows + [row], strToFloat) == Ok(Tally(t.total + c, AddTo(t.byAsylum, k, c)))
  {
    FoldSnoc(rows, row, strToFloat);
    CountedStep(t, row, c, k, strToFloat);
  }

  /** One iteration over a counted row with a country. */
  lemma CountedStep(t: Tally, row: Json, c: int, k: Json, strToFloat: string -> Option<real>)
    requires row.Obj? && RowCount(row, strToFloat) == Some(c) && Country(row) == Some(k)
    ensures StepRow(t, row, strToFloat).Ok?
    ensures StepRow(t, row, strToFloat).value == Tally(t.total + c, AddTo(t.byAsylum, k, c))
  {
  }

  /** The loop over one more `{"coa_iso": iso, "value": text}` row. */
  lemma IsoRowStep(rows: seq<Json>, t: Tally, iso: string, text: string, n: nat,
                   strToFloat: string -> Option<real>)
    requires Fold(rows, strToFloat) == Ok(t)
    requires iso != [] && text != [] && strToFloat(text) == Some(n as real)
    ensures Fold(rows + [IsoRow(iso, text)], strToFloat) == Ok(Tally(t.total + n, AddTo(t.byAsylum, Str(iso), n)))
  {
    IsoValueCount(iso, text, n, strToFloat);
    IsoValueCountry(iso, text);
    FoldCountedRow(rows, IsoRow(iso, text), t, n, Str(iso), strToFloat);
  }

  /** Two rows for the same country add up in one entry. */
  lemma TwoRowExample(strToFloat: string -> Option<real>)
    requires strToFloat("100") == Some(100.0) && strToFloat("50") == Some(50.0)
    ensures Fold([IsoRow("EGY", "100"), IsoRow("EGY", "50")], strToFloat)
            == Ok(Tally(150, map[Str("EGY") := 150]))
  {
    var r1, r2 := IsoRow("EGY", "100"), IsoRow("EGY", "50");
    var m1 := map[Str("EGY") := 100];
    assert Fold([], strToFloat) == Ok(Tally(0, map[]));
    IsoRowStep([], Tally(0, map[]), "EGY", "100", 100, strToFloat);
    assert [] + [r1] == [r1];
    assert AddTo(map[], Str("EGY"), 100) == m1;
    IsoRowStep([r1], Tally(100, m1), "EGY", "50", 50, strToFloat);
    assert [r1] + [r2] == [r1, r2];
    assert AddTo(m1, Str("EGY"), 50) == map[Str("EGY") := 150];
  }

  /** The breakdown example: two Egyptian rows and one Chadian row. */
  lemma ThreeRowExample(strToFloat: string -> Option<real>)
    requires strToFloat("100") == Some(100.0) && strToFloat("50") == Some(50.0) && strToFloat("30") == Some(30.0)
    ensures Fold([IsoRow("EGY", "100"), IsoRow("EGY", "50"), IsoRow("TCD", "30")], strToFloat)
            == Ok(Tally(180, map[Str("EGY") := 150, Str("TCD") := 30]))
  {
    var r1, r2, r3 := IsoRow("EGY", "100"), IsoRow("EGY", "50"), IsoRow("TCD", "30");
    var m2 := map[Str("EGY") := 150];
    TwoRowExample(strToFloat);
    IsoRowStep([r1, r2], Tally(150, m2), "TCD", "30", 30, strToFloat);
    assert [r1, r2] + [r3] == [r1, r2, r3];
    assert AddTo(m2, Str("TCD"), 30) == map[Str("EGY") := 150, Str("TCD") := 30];
  }
}
