/** `get_idp_data()`: for each candidate HDX dataset, pick the most recent
    datastore resource, find the column of total IDPs in its records and read
    its last numeric value; the first dataset that yields a value wins. */
module Displacement {
  import opened PyJson
  import opened Access

  /** What one dataset gives: a figure, nothing (a `continue` or a fall
      through to the next dataset) or an exception caught by the per-dataset
      `try`. */
  datatype Attempt = Found(count: int) | NotFound | Failed

  /** The dict the resolver returns. */
  datatype IdpFigure = IdpFigure(totalIdps: int, source: string)

  const Datasets: seq<string> := ["sudan-displacement-situation-idps-iom-dtm", "sudan-displacement-data-idps-iom-dtm"]
  const FallbackIdps: int := 10900000

  /** The label of a live figure. */
  function LiveLabel(name: string): string
  {
    "IOM DTM via HDX (" + name + ")"
  }

  // ---------------------------------------------------------------------
  // Resources with an active datastore

  /** `r.get("datastore_active")` is truthy. */
  predicate IsActive(r: Json)
  {
    r.Obj? && Truthy(DictGet(r.fields, "datastore_active"))
  }

  /** `[r for r in resources if r.get("datastore_active")]`; `r.get` raises on
      an element that is not a dict. */
  function Active(items: seq<Json>): (r: Result<seq<Json>>)
    ensures r.Raised? <==> exists i :: 0 <= i < |items| && !items[i].Obj?
    ensures r.Ok? ==> forall i :: 0 <= i < |r.value| ==> IsActive(r.value[i])
    ensures r.Ok? ==> forall x :: x in r.value <==> x in items && IsActive(x)
  {
    if items == [] then Ok([])
    else
      var init := items[..|items| - 1];
      var x := items[|items| - 1];
      assert items == init + [x];
      match Active(init)
      case Raised =>
        assert exists i :: 0 <= i < |init| && !init[i].Obj?;
        Raised
      case Ok(a) =>
        assert forall i :: 0 <= i < |init| ==> init[i].Obj?;
        if !x.Obj? then Raised
        else if IsActive(x) then Ok(a + [x])
        else Ok(a)
  }

  /** The filter keeps the active resources in their order: filtering a
      concatenation concatenates the filtered parts. */
  lemma {:induction false} ActiveAppend(a: seq<Json>, b: seq<Json>)
    requires Active(a).Ok? && Active(b).Ok?
    ensures Active(a + b) == Ok(Active(a).value + Active(b).value)
    decreases |b|
  {
    if b == [] {
      assert a + b == a;
      assert Active(b) == Ok([]);
      assert Active(a).value + [] == Active(a).value;
    } else {
      var b' := b[..|b| - 1];
      var x := b[|b| - 1];
      assert b == b' + [x];
      assert Active(b').Ok?;
      ActiveAppend(a, b');
      var fa, fb := Active(a).value, Active(b').value;
      assert (a + b)[..|a + b| - 1] == a + b' && (a + b)[|a + b| - 1] == x;
      assert Active(a + b) == (if IsActive(x) then Ok((fa + fb) + [x]) else Ok(fa + fb));
      assert Active(b) == (if IsActive(x) then Ok(fb + [x]) else Ok(fb));
      assert (fa + fb) + [x] == fa + (fb + [x]);
    }
  }

  /** A single dict is kept exactly when it is active. */
  lemma ActiveSingle(x: Json)
    requires x.Obj?
    ensures Active([x]) == Ok(if IsActive(x) then [x] else [])
  {
    assert [x][..0] == [] && [x][0] == x;
    assert Active([]) == Ok([]);
    assert [] + [x] == [x];
  }

  // ---------------------------------------------------------------------
  // The most recent resource

  /** Python's `a < b` on strings: lexicographic on code points. */
  predicate StrLt(a: string, b: string)
  {
    if a == [] then b != []
    else if b == [] then false
    else if a[0] != b[0] then a[0] < b[0]
    else StrLt(a[1..], b[1..])
  }

  lemma StrLtIrreflexive(a: string)
    ensures !StrLt(a, a)
  {
  }

  lemma {:induction false} StrLtTransitive(a: string, b: string, c: string)
    requires StrLt(a, b) && StrLt(b, c)
    ensures StrLt(a, c)
  {
    if a != [] && b != [] && c != [] && a[0] == b[0] && b[0] == c[0] {
      StrLtTransitive(a[1..], b[1..], c[1..]);
    }
  }

  lemma StrLtAsymmetric(a: string, b: string)
    requires StrLt(a, b)
    ensures !StrLt(b, a)
  {
    if StrLt(b, a) {
      StrLtTransitive(a, b, a);
      StrLtIrreflexive(a);
    }
  }

  lemma {:induction false} StrLtTotal(a: string, b: string)
    ensures a == b || StrLt(a, b) || StrLt(b, a)
  {
    if a != [] && b != [] && a[0] == b[0] {
      StrLtTotal(a[1..], b[1..]);
      if a[1..] == b[1..] {
        assert a == [a[0]] + a[1..] && b == [b[0]] + b[1..];
      }
    }
  }

  /** The sort key `r.get("last_modified") or r.get("created") or ""`. */
  function SortKey(r: Json): Json
    requires r.Obj?
  {
    Or(DictGet(r.fields, "last_modified"), Or(DictGet(r.fields, "created"), Str("")))
  }

  predicate AllObj(items: seq<Json>)
  {
    forall i :: 0 <= i < |items| ==> items[i].Obj?
  }

  /** The sort keys as strings; `None` when one of them is not a string. */
  function StrKeys(rs: seq<Json>): (ks: Option<seq<string>>)
    requires AllObj(rs)
    ensures ks.Some? ==> |ks.value| == |rs| && forall i :: 0 <= i < |rs| ==> SortKey(rs[i]) == Str(ks.value[i])
    ensures ks.None? ==> exists i :: 0 <= i < |rs| && !SortKey(rs[i]).Str?
  {
    if rs == [] then Some([])
    else
      var init := rs[..|rs| - 1];
      var k := SortKey(rs[|rs| - 1]);
      match StrKeys(init)
      case None => None
      case Some(ks) => if k.Str? then Some(ks + [k.s]) else None
  }

  /** `sorted(keys, reverse=True)[0]`: the sort is stable, so the position
      chosen holds the greatest key and every earlier key is strictly smaller. */
  function LatestIndex(keys: seq<string>): (i: nat)
    requires keys != []
    ensures i < |keys|
    ensures forall j :: 0 <= j < |keys| ==> !StrLt(keys[i], keys[j])
    ensures forall j :: 0 <= j < i ==> StrLt(keys[j], keys[i])
  {
    if |keys| == 1 then
      StrLtIrreflexive(keys[0]);
      0
    else
      var n := |keys| - 1;
      var init := keys[..n];
      var i := LatestIndex(init);
      if StrLt(keys[i], keys[n]) then
        assert forall j :: 0 <= j < n ==> StrLt(keys[j], keys[n]) && !StrLt(keys[n], keys[j]) by {
          forall j | 0 <= j < n ensures StrLt(keys[j], keys[n]) && !StrLt(keys[n], keys[j]) {
            assert !StrLt(init[i], init[j]);
            StrLtTotal(keys[j], keys[i]);
            if StrLt(keys[j], keys[i]) {
              StrLtTransitive(keys[j], keys[i], keys[n]);
            }
            StrLtAsymmetric(keys[j], keys[n]);
          }
        }
        assert !StrLt(keys[n], keys[n]) by { StrLtIrreflexive(keys[n]); }
        n
      else
        assert forall j :: 0 <= j < n ==> !StrLt(keys[i], keys[j]) by {
          forall j | 0 <= j < n ensures !StrLt(keys[i], keys[j]) {
            assert !StrLt(init[i], init[j]);
          }
        }
        assert forall j :: 0 <= j < i ==> StrLt(keys[j], keys[i]) by {
          forall j | 0 <= j < i ensures StrLt(keys[j], keys[i]) {
            assert StrLt(init[j], init[i]);
          }
        }
        i
  }

  /** The position of the resource `sorted(..., reverse=True)[0]` picks. A
      single resource is taken without comparing keys; comparing a string
      key with a key of another type raises `TypeError`. */
  function Latest(rs: seq<Json>): (r: Result<nat>)
    requires rs != [] && AllObj(rs)
    ensures r.Ok? ==> r.value < |rs|
    ensures |rs| == 1 ==> r == Ok(0)
  {
    if |rs| == 1 then Ok(0)
    else
      match StrKeys(rs)
      case None => Raised
      case Some(ks) => Ok(LatestIndex(ks))
  }

  // ---------------------------------------------------------------------
  // The records of the datastore search

  predicate NoDup(s: seq<string>)
  {
    forall i, j :: 0 <= i < j < |s| ==> s[i] != s[j]
  }

  /** Appending the keys of one record not seen before, in their order. */
  function AddKeys(cols: seq<string>, fields: seq<(string, Json)>): (r: seq<string>)
    ensures cols <= r
    ensures forall c :: c in r <==> c in cols || HasKey(fields, c)
    ensures NoDup(cols) ==> NoDup(r)
    decreases |fields|
  {
    if fields == [] then cols
    else
      var k := fields[0].0;
      var r := AddKeys(if k in cols then cols else cols + [k], fields[1..]);
      assert forall c :: HasKey(fields, c) <==> c == k || HasKey(fields[1..], c) by {
        forall c ensures HasKey(fields, c) <==> c == k || HasKey(fields[1..], c) {
          if HasKey(fields, c) && c != k {
            var i :| 0 <= i < |fields| && fields[i].0 == c;
            assert fields[1..][i - 1].0 == c;
          }
          if HasKey(fields[1..], c) {
            var i :| 0 <= i < |fields[1..]| && fields[1..][i].0 == c;
            assert fields[i + 1].0 == c;
          }
          if c == k {
            assert fields[0].0 == c;
          }
        }
      }
      r
  }

  /** Some record holds the key `c`. */
  predicate KeyIn(records: seq<Json>, c: string)
    requires AllObj(records)
  {
    exists i :: 0 <= i < |records| && HasKey(records[i].fields, c)
  }

  /** `pd.DataFrame(records).columns` for a list of dicts: every key of every
      record, once, in the order of first appearance (`ColumnsPrefix`). */
  function Columns(records: seq<Json>): (cols: seq<string>)
    requires AllObj(records)
    ensures NoDup(cols)
    ensures forall c :: c in cols <==> KeyIn(records, c)
  {
    if records == [] then []
    else
      var init := records[..|records| - 1];
      var last := records[|records| - 1];
      var cols := AddKeys(Columns(init), last.fields);
      assert forall c :: KeyIn(records, c) <==> KeyIn(init, c) || HasKey(last.fields, c) by {
        forall c ensures KeyIn(records, c) <==> KeyIn(init, c) || HasKey(last.fields, c) {
          if KeyIn(records, c) {
            var i :| 0 <= i < |records| && HasKey(records[i].fields, c);
            if i < |init| {
              assert init[i] == records[i];
            }
          }
          if KeyIn(init, c) {
            var i :| 0 <= i < |init| && HasKey(init[i].fields, c);
            assert records[i] == init[i];
          }
        }
      }
      cols
  }

  /** The columns are in order of first appearance: those of the first `n`
      records come first, in the same order, and later records only append. */
  lemma {:induction false} ColumnsPrefix(records: seq<Json>, n: nat)
    requires AllObj(records) && n <= |records|
    ensures Columns(records[..n]) <= Columns(records)
    decreases |records|
  {
    if n < |records| {
      var init := records[..|records| - 1];
      assert init[..n] == records[..n];
      ColumnsPrefix(init, n);
    } else {
      assert records[..n] == records;
    }
  }

  /** `"idp" in col.lower() and ("total" in col.lower() or "count" in col.lower())`. */
  predicate IsIdpColumn(col: string)
  {
    var l := Lower(col);
    Contains(l, "idp") && (Contains(l, "total") || Contains(l, "count"))
  }

  /** `idp_cols[0]`: the position of the first matching column. */
  function FirstIdpColumn(cols: seq<string>): (r: Option<nat>)
    ensures r.Some? ==> r.value < |cols| && IsIdpColumn(cols[r.value])
    ensures r.Some? ==> forall j :: 0 <= j < r.value ==> !IsIdpColumn(cols[j])
    ensures r.None? ==> forall j :: 0 <= j < |cols| ==> !IsIdpColumn(cols[j])
  {
    if cols == [] then None
    else if IsIdpColumn(cols[0]) then Some(0)
    else
      match FirstIdpColumn(cols[1..])
      case None => None
      case Some(i) => Some(i + 1)
  }

  /** The cell of `pd.to_numeric(df[col], errors="coerce")` for one record:
      a missing key and a JSON null are NaN; `toNumeric` is the coercion of
      any other value, `None` for NaN. */
  function Cell(record: Json, col: string, toNumeric: Json -> Option<real>): Option<real>
    requires record.Obj?
  {
    var v := DictGet(record.fields, col);
    if v.Null? then None else toNumeric(v)
  }

  /** `.dropna().iloc[-1]`: the position of the last numeric cell; `None`
      where `iloc[-1]` raises `IndexError`. */
  function LastNumeric(records: seq<Json>, col: string, toNumeric: Json -> Option<real>): (r: Option<nat>)
    requires AllObj(records)
    ensures r.Some? ==> r.value < |records| && Cell(records[r.value], col, toNumeric).Some?
    ensures r.Some? ==> forall j :: r.value < j < |records| ==> Cell(records[j], col, toNumeric).None?
    ensures r.None? ==> forall j :: 0 <= j < |records| ==> Cell(records[j], col, toNumeric).None?
  {
    if records == [] then None
    else
      var n := |records| - 1;
      if Cell(records[n], col, toNumeric).Some? then Some(n)
      else
        var init := records[..n];
        assert forall j :: 0 <= j < n ==> init[j] == records[j];
        LastNumeric(init, col, toNumeric)
  }

  /** From `records = safe_get(result, "records", default=[])` to the
      figure: falsy records or no matching column fall through; records that
      are not a list of dicts, or a column without a numeric cell, raise. */
  function RecordsAttempt(records: Json, toNumeric: Json -> Option<real>): Attempt
  {
    if !Truthy(records) then NotFound
    else if !records.Arr? || !AllObj(records.items) then Failed
    else
      var rows := records.items;
      var cols := Columns(rows);
      match FirstIdpColumn(cols)
      case None => NotFound
      case Some(c) =>
        match LastNumeric(rows, cols[c], toNumeric)
        case None => Failed
        case Some(i) => Found(Trunc(Cell(rows[i], cols[c], toNumeric).value))
  }

  /** From the fetched datastore search to the figure. */
  function SearchAttempt(searchData: Option<Json>, toNumeric: Json -> Option<real>): Attempt
  {
    if searchData.None? || !Truthy(searchData.value) then NotFound
    else
      var result := Lookup(searchData.value, ["result"], Null);
      if !Truthy(result) then NotFound
      else RecordsAttempt(Lookup(result, ["records"], Arr([])), toNumeric)
  }

  /** From `resources = safe_get(result, "resources", default=[])`: filter,
      pick the latest, search its datastore by `resource["id"]` (a missing
      id raises `KeyError`). */
  function ResourcesAttempt(resources: Json, search: Json -> Option<Json>, toNumeric: Json -> Option<real>): Attempt
  {
    match Iterate(resources)
    case Raised => Failed
    case Ok(items) =>
      match Active(items)
      case Raised => Failed
      case Ok(active) => LatestAttempt(active, search, toNumeric)
  }

  /** From the active resources: none means nothing to search; otherwise
      the latest one is searched by `resource["id"]`. */
  function LatestAttempt(active: seq<Json>, search: Json -> Option<Json>, toNumeric: Json -> Option<real>): Attempt
    requires AllObj(active)
  {
    if active == [] then NotFound
    else
      match Latest(active)
      case Raised => Failed
      case Ok(i) =>
        match Step(active[i], "id")
        case None => Failed
        case Some(id) => SearchAttempt(search(id), toNumeric)
  }

  /** One dataset, from its fetched package description. */
  function DatasetAttempt(packageData: Option<Json>, search: Json -> Option<Json>,
                          toNumeric: Json -> Option<real>): Attempt
  {
    if packageData.None? || !Truthy(packageData.value) then NotFound
    else
      var result := Lookup(packageData.value, ["result"], Null);
      if !Truthy(result) then NotFound
      else ResourcesAttempt(Lookup(result, ["resources"], Arr([])), search, toNumeric)
  }

  /** The attempts on the candidate datasets, in order; `package` is the
      fetch of a dataset's description by name. */
  function Attempts(package: string -> Option<Json>, search: Json -> Option<Json>,
                    toNumeric: Json -> Option<real>): (a: seq<Attempt>)
    ensures |a| == |Datasets|
  {
    [DatasetAttempt(package(Datasets[0]), search, toNumeric),
     DatasetAttempt(package(Datasets[1]), search, toNumeric)]
  }

  /** The position of the first attempt that yields a figure. */
  function FirstFound(attempts: seq<Attempt>): (r: Option<nat>)
    ensures r.Some? ==> r.value < |attempts| && attempts[r.value].Found?
    ensures r.Some? ==> forall j :: 0 <= j < r.value ==> !attempts[j].Found?
    ensures r.None? ==> forall j :: 0 <= j < |attempts| ==> !attempts[j].Found?
  {
    if attempts == [] then None
    else if attempts[0].Found? then Some(0)
    else
      match FirstFound(attempts[1..])
      case None => None
      case Some(i) =>
        assert forall j :: 1 <= j < |attempts| ==> attempts[j] == attempts[1..][j - 1];
        Some(i + 1)
  }

  /** The resolver as a whole, given the attempts on the candidate datasets,
      under the fallback label of the revision. */
  function IdpSpec(attempts: seq<Attempt>, fallbackLabel: string): IdpFigure
    requires |attempts| == |Datasets|
  {
    match FirstFound(attempts)
    case None => IdpFigure(FallbackIdps, fallbackLabel)
    case Some(i) => IdpFigure(attempts[i].count, LiveLabel(Datasets[i]))
  }

  // ---------------------------------------------------------------------
  // Properties

  /** The chosen resource has the greatest sort key of all active resources,
      and no earlier resource has the same key. */
  lemma LatestIsGreatest(rs: seq<Json>)
    requires rs != [] && AllObj(rs) && Latest(rs).Ok? && |rs| > 1
    ensures StrKeys(rs).Some?
    ensures forall j :: 0 <= j < |rs| ==>
      !StrLt(SortKey(rs[Latest(rs).value]).s, SortKey(rs[j]).s)
    ensures forall j :: 0 <= j < Latest(rs).value ==>
      StrLt(SortKey(rs[j]).s, SortKey(rs[Latest(rs).value]).s)
  {
  }

  /** A figure needs a matching column and a numeric cell in it: it is the
      last numeric cell of the first matching column, truncated. */
  lemma FoundIsLastCellOfFirstColumn(records: Json, toNumeric: Json -> Option<real>)
    requires RecordsAttempt(records, toNumeric).Found?
    ensures records.Arr? && AllObj(records.items)
    ensures FirstIdpColumn(Columns(records.items)).Some?
    ensures var cols := Columns(records.items);
            var c := FirstIdpColumn(cols).value;
            && LastNumeric(records.items, cols[c], toNumeric).Some?
            && RecordsAttempt(records, toNumeric).count ==
               Trunc(Cell(records.items[LastNumeric(records.items, cols[c], toNumeric).value], cols[c], toNumeric).value)
  {
  }

  /** The first dataset that yields a figure provides the result, labelled
      with its name; when none does, the documented figure is returned. */
  lemma FirstSuccessWins(attempts: seq<Attempt>, fallbackLabel: string)
    requires |attempts| == |Datasets|
    ensures attempts[0].Found? ==>
      IdpSpec(attempts, fallbackLabel) == IdpFigure(attempts[0].count, LiveLabel(Datasets[0]))
    ensures !attempts[0].Found? && attempts[1].Found? ==>
      IdpSpec(attempts, fallbackLabel) == IdpFigure(attempts[1].count, LiveLabel(Datasets[1]))
    ensures !attempts[0].Found? && !attempts[1].Found? ==>
      IdpSpec(attempts, fallbackLabel) == IdpFigure(FallbackIdps, fallbackLabel)
  {
  }

  /** The documented figure appears exactly when no dataset yields one. */
  lemma FallbackIffNoneFound(attempts: seq<Attempt>, fallbackLabel: string)
    requires |attempts| == |Datasets|
    requires fallbackLabel != LiveLabel(Datasets[0]) && fallbackLabel != LiveLabel(Datasets[1])
    ensures IdpSpec(attempts, fallbackLabel).source == fallbackLabel <==>
      forall j :: 0 <= j < |attempts| ==> !attempts[j].Found?
    ensures IdpSpec(attempts, fallbackLabel).source == fallbackLabel ==>
      IdpSpec(attempts, fallbackLabel).totalIdps == FallbackIdps
  {
  }

  /** A falsy package, a falsy `result`, and a resource list with no active
      resource never stop the search: the next dataset is tried. */
  lemma NothingToTryFallsThrough(packageData: Option<Json>, search: Json -> Option<Json>,
                                 toNumeric: Json -> Option<real>)
    ensures packageData.None? || !Truthy(packageData.value) ==>
      DatasetAttempt(packageData, search, toNumeric) == NotFound
    ensures packageData.Some? && !Truthy(Lookup(packageData.value, ["result"], Null)) ==>
      DatasetAttempt(packageData, search, toNumeric) == NotFound
    ensures (packageData.Some? &&
      var resources := Lookup(Lookup(packageData.value, ["result"], Null), ["resources"], Arr([]));
      Iterate(resources).Ok? && Active(Iterate(resources).value) == Ok([])) ==>
      DatasetAttempt(packageData, search, toNumeric) == NotFound
  {
  }

  // ---------------------------------------------------------------------
  // What one dataset yields

  /** The records give the figure `c`: they are a list of dicts with an IDP
      column, and `c` is the truncated last numeric cell of the first one. */
  predicate IsFigure(records: Json, c: int, toNumeric: Json -> Option<real>)
  {
    && records.Arr? && AllObj(records.items)
    && var cols := Columns(records.items);
       && FirstIdpColumn(cols).Some?
       && var col := cols[FirstIdpColumn(cols).value];
          && LastNumeric(records.items, col, toNumeric).Some?
          && c == Trunc(Cell(records.items[LastNumeric(records.items, col, toNumeric).value], col, toNumeric).value)
  }

  /** Position `i` holds the resource the stable reverse sort puts first: a
      lone resource, or else one whose string key no other key exceeds and
      which no earlier resource ties. */
  predicate IsLatest(active: seq<Json>, i: nat)
    requires AllObj(active)
  {
    && i < |active|
    && (|active| > 1 ==>
         && (forall j :: 0 <= j < |active| ==> SortKey(active[j]).Str?)
         && (forall j :: 0 <= j < |active| ==> !StrLt(SortKey(active[i]).s, SortKey(active[j]).s))
         && (forall j :: 0 <= j < i ==> StrLt(SortKey(active[j]).s, SortKey(active[i]).s)))
  }

  /** The datastore search gives `c`: a truthy document with a truthy
      `result` whose `records` give the figure `c`. */
  predicate SearchGives(searchData: Option<Json>, c: int, toNumeric: Json -> Option<real>)
  {
    && searchData.Some? && Truthy(searchData.value)
    && Truthy(Lookup(searchData.value, ["result"], Null))
    && IsFigure(Lookup(Lookup(searchData.value, ["result"], Null), ["records"], Arr([])), c, toNumeric)
  }

  /** Among the active resources, the latest one has an `id` and the search
      by that id gives `c`. */
  predicate LatestGives(active: seq<Json>, search: Json -> Option<Json>, c: int,
                        toNumeric: Json -> Option<real>)
    requires AllObj(active)
  {
    exists i :: 0 <= i < |active| && IsLatest(active, i) && HasKey(active[i].fields, "id")
              && SearchGives(search(Field(active[i].fields, "id")), c, toNumeric)
  }

  /** The resources give `c`: they iterate to dicts, some are active, and
      the latest active one gives `c`. */
  predicate ResourcesGive(resources: Json, search: Json -> Option<Json>, c: int,
                          toNumeric: Json -> Option<real>)
  {
    && Iterate(resources).Ok? && AllObj(Iterate(resources).value)
    && Active(Iterate(resources).value).Ok?
    && AllObj(Active(Iterate(resources).value).value)
    && LatestGives(Active(Iterate(resources).value).value, search, c, toNumeric)
  }

  /** A dataset gives `c`: a truthy package with a truthy `result` whose
      `resources` give `c`. */
  predicate DatasetGives(packageData: Option<Json>, search: Json -> Option<Json>, c: int,
                         toNumeric: Json -> Option<real>)
  {
    && packageData.Some? && Truthy(packageData.value)
    && Truthy(Lookup(packageData.value, ["result"], Null))
    && ResourcesGive(Lookup(Lookup(packageData.value, ["result"], Null), ["resources"], Arr([])),
                     search, c, toNumeric)
  }

  /** The records yield `c` exactly when they give the figure `c`. */
  lemma RecordsFound(records: Json, c: int, toNumeric: Json -> Option<real>)
    ensures RecordsAttempt(records, toNumeric) == Found(c) <==> IsFigure(records, c, toNumeric)
  {
    if IsFigure(records, c, toNumeric) {
      assert records.items != [];
    }
  }

  /** The search yields `c` exactly when it gives `c`. */
  lemma SearchFound(searchData: Option<Json>, c: int, toNumeric: Json -> Option<real>)
    ensures SearchAttempt(searchData, toNumeric) == Found(c) <==> SearchGives(searchData, c, toNumeric)
  {
    if searchData.Some? && Truthy(searchData.value) && Truthy(Lookup(searchData.value, ["result"], Null)) {
      RecordsFound(Lookup(Lookup(searchData.value, ["result"], Null), ["records"], Arr([])), c, toNumeric);
    }
  }

  /** The sort picks the position that `IsLatest` describes. */
  lemma LatestIsLatest(active: seq<Json>)
    requires active != [] && AllObj(active) && Latest(active).Ok?
    ensures IsLatest(active, Latest(active).value)
  {
    if |active| > 1 {
      LatestIsGreatest(active);
      var ks := StrKeys(active).value;
      assert forall j :: 0 <= j < |active| ==> SortKey(active[j]) == Str(ks[j]);
    }
  }

  /** At most one position is the latest. */
  lemma LatestUnique(active: seq<Json>, i: nat, j: nat)
    requires AllObj(active) && IsLatest(active, i) && IsLatest(active, j)
    ensures i == j
  {
    if |active| > 1 {
      var ki, kj := SortKey(active[i]).s, SortKey(active[j]).s;
      // Neither key exceeds the other, yet an earlier key would be smaller.
      assert !StrLt(ki, kj) && !StrLt(kj, ki);
    }
  }

  /** The latest active resource gives `c` exactly when the sort succeeds
      and the resource it picks has an `id` whose search gives `c`. */
  lemma LatestGivesIff(active: seq<Json>, search: Json -> Option<Json>, c: int,
                       toNumeric: Json -> Option<real>)
    requires active != [] && AllObj(active)
    ensures LatestGives(active, search, c, toNumeric) <==>
      && Latest(active).Ok?
      && HasKey(active[Latest(active).value].fields, "id")
      && SearchGives(search(Field(active[Latest(active).value].fields, "id")), c, toNumeric)
  {
    if Latest(active).Ok? {
      LatestIsLatest(active);
      var l := Latest(active).value;
      forall i | 0 <= i < |active| && IsLatest(active, i) ensures i == l {
        LatestUnique(active, i, l);
      }
    }
  }

  /** The active resources yield `c` exactly when the latest one gives `c`. */
  lemma LatestFound(active: seq<Json>, search: Json -> Option<Json>, c: int, toNumeric: Json -> Option<real>)
    requires AllObj(active)
    ensures LatestAttempt(active, search, toNumeric) == Found(c) <==>
      active != [] && LatestGives(active, search, c, toNumeric)
  {
    if active != [] {
      LatestGivesIff(active, search, c, toNumeric);
      if Latest(active).Ok? {
        var l := Latest(active).value;
        if HasKey(active[l].fields, "id") {
          SearchFound(search(Field(active[l].fields, "id")), c, toNumeric);
        }
      }
    }
  }

  /** The resources yield `c` exactly when they give `c`. */
  lemma ResourcesFound(resources: Json, search: Json -> Option<Json>, c: int, toNumeric: Json -> Option<real>)
    ensures ResourcesAttempt(resources, search, toNumeric) == Found(c) <==> ResourcesGive(resources, search, c, toNumeric)
  {
    if Iterate(resources).Ok? && Active(Iterate(resources).value).Ok? {
      LatestFound(Active(Iterate(resources).value).value, search, c, toNumeric);
    }
  }

  /** A dataset yields the figure `c` exactly when its package is truthy
      with a truthy `result`, the latest active resource (the first with the
      greatest key) has an `id`, and the search by that id returns records
      whose first IDP column has `c` as its truncated last numeric cell. */
  lemma DatasetFound(packageData: Option<Json>, search: Json -> Option<Json>, c: int,
                     toNumeric: Json -> Option<real>)
    ensures DatasetAttempt(packageData, search, toNumeric) == Found(c) <==>
      DatasetGives(packageData, search, c, toNumeric)
  {
    if packageData.Some? && Truthy(packageData.value) && Truthy(Lookup(packageData.value, ["result"], Null)) {
      ResourcesFound(Lookup(Lookup(packageData.value, ["result"], Null), ["resources"], Arr([])),
                     search, c, toNumeric);
    }
  }

  /** A dataset whose search comes back empty, or holds no records, or
      records with no IDP column, is passed over. */
  lemma SearchFallsThrough(searchData: Option<Json>, toNumeric: Json -> Option<real>)
    ensures searchData.None? || !Truthy(searchData.value) ==> SearchAttempt(searchData, toNumeric) == NotFound
    ensures searchData.Some? && !Truthy(Lookup(searchData.value, ["result"], Null)) ==>
      SearchAttempt(searchData, toNumeric) == NotFound
    ensures (searchData.Some? &&
      var records := Lookup(Lookup(searchData.value, ["result"], Null), ["records"], Arr([]));
      (!Truthy(records) ||
       (records.Arr? && AllObj(records.items) && FirstIdpColumn(Columns(records.items)).None?))) ==>
      SearchAttempt(searchData, toNumeric) == NotFound
  {
  }

  /** The exceptions the per-dataset `try` catches: resources that cannot be
      iterated, a resource that is not a dict, several resources with a sort
      key that is not a string, a latest resource without an `id`. */
  lemma ResourcesFail(resources: Json, search: Json -> Option<Json>, toNumeric: Json -> Option<real>)
    ensures Iterate(resources).Raised? ==> ResourcesAttempt(resources, search, toNumeric) == Failed
    ensures Iterate(resources).Ok? && (exists i :: 0 <= i < |Iterate(resources).value| && !Iterate(resources).value[i].Obj?) ==>
      ResourcesAttempt(resources, search, toNumeric) == Failed
    ensures (Iterate(resources).Ok? && Active(Iterate(resources).value).Ok? &&
      var active := Active(Iterate(resources).value).value;
      |active| > 1 && (exists j :: 0 <= j < |active| && !SortKey(active[j]).Str?)) ==>
      ResourcesAttempt(resources, search, toNumeric) == Failed
    ensures (Iterate(resources).Ok? && Active(Iterate(resources).value).Ok? &&
      var active := Active(Iterate(resources).value).value;
      active != [] && Latest(active).Ok? && !HasKey(active[Latest(active).value].fields, "id")) ==>
      ResourcesAttempt(resources, search, toNumeric) == Failed
  {
  }

  /** The exceptions of the records step: records that are not a list of
      dicts, and a first IDP column without a numeric cell (`iloc[-1]` on an
      empty series). */
  lemma RecordsFail(records: Json, toNumeric: Json -> Option<real>)
    ensures Truthy(records) && !(records.Arr? && AllObj(records.items)) ==>
      RecordsAttempt(records, toNumeric) == Failed
    ensures (records.Arr? && AllObj(records.items) && records.items != [] &&
      var cols := Columns(records.items);
      FirstIdpColumn(cols).Some? && LastNumeric(records.items, cols[FirstIdpColumn(cols).value], toNumeric).None?) ==>
      RecordsAttempt(records, toNumeric) == Failed
  {
  }
}
