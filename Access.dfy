/** `safe_get(d, *keys, default=None)`: follow a path of keys through nested
    dicts, giving `default` as soon as a key is missing or the current value
    is not a dict. */
module Access {
  import opened PyJson

  /** One step of the path: `x[k]` when `x` is a dict holding `k`. */
  function Step(x: Json, k: string): (r: Option<Json>)
    ensures r.Some? <==> x.Obj? && HasKey(x.fields, k)
  {
    if x.Obj? && HasKey(x.fields, k) then Some(Field(x.fields, k)) else None
  }

  /** The value reached by following `keys` from `d`; `None` once a step fails. */
  function Walk(d: Json, keys: seq<string>): Option<Json>
  {
    if keys == [] then Some(d)
    else
      match Walk(d, keys[..|keys| - 1])
      case None => None
      case Some(x) => Step(x, keys[|keys| - 1])
  }

  /** The value `safe_get(d, *keys, default=default)` returns. */
  function Lookup(d: Json, keys: seq<string>, default: Json): Json
  {
    match Walk(d, keys)
    case Some(x) => x
    case None => default
  }

  /** A failed step ends the walk: no later key can recover a value. */
  lemma {:induction false} WalkNoneExtends(d: Json, keys: seq<string>, j: nat)
    requires j <= |keys| && Walk(d, keys[..j]).None?
    ensures Walk(d, keys).None?
    decreases |keys| - j
  {
    if j == |keys| {
      assert keys[..j] == keys;
    } else {
      var p := keys[..j + 1];
      assert p[..|p| - 1] == keys[..j];
      WalkNoneExtends(d, keys, j + 1);
    }
  }

  method SafeGet(d: Json, keys: seq<string>, default: Json) returns (r: Json)
    ensures r == Lookup(d, keys, default)
    ensures keys == [] ==> r == d
  {
    var x := d;
    for i := 0 to |keys|
      invariant Walk(d, keys[..i]) == Some(x)
    {
      var p := keys[..i + 1];
      assert p[..|p| - 1] == keys[..i];
      if x.Obj? && HasKey(x.fields, keys[i]) {
        x := Field(x.fields, keys[i]);
      } else {
        WalkNoneExtends(d, keys, i + 1);
        return default;
      }
    }
    assert keys[..|keys|] == keys;
    return x;
  }

  /** The walk reaches the `i`-th key and cannot take it: the value reached
      so far is not a dict holding `keys[i]`. */
  predicate BlockedAt(d: Json, keys: seq<string>, i: nat)
    requires i < |keys|
  {
    Walk(d, keys[..i]).Some? && Step(Walk(d, keys[..i]).value, keys[i]).None?
  }

  /** The walk fails exactly when it is blocked at some key of the path. */
  lemma {:induction false} WalkFailsIff(d: Json, keys: seq<string>)
    ensures Walk(d, keys).None? <==> exists i :: 0 <= i < |keys| && BlockedAt(d, keys, i)
  {
    if Walk(d, keys).None? {
      var i := BlockingKey(d, keys);
    } else {
      forall i | 0 <= i < |keys| ensures !BlockedAt(d, keys, i) {
        if BlockedAt(d, keys, i) {
          var p := keys[..i + 1];
          assert p[..|p| - 1] == keys[..i];
          WalkNoneExtends(d, keys, i + 1);
        }
      }
    }
  }

  /** The position of the key at which a failed walk is blocked. */
  lemma {:induction false} BlockingKey(d: Json, keys: seq<string>) returns (i: nat)
    requires Walk(d, keys).None?
    ensures i < |keys| && BlockedAt(d, keys, i)
  {
    var n := |keys| - 1;
    var init := keys[..n];
    if Walk(d, init).None? {
      i := BlockingKey(d, init);
      assert keys[..i] == init[..i];
    } else {
      i := n;
    }
  }

  /** Following `a` and then `b` is following `a + b`. */
  lemma {:induction false} WalkAppend(d: Json, a: seq<string>, b: seq<string>)
    ensures Walk(d, a + b) == match Walk(d, a) case None => None case Some(x) => Walk(x, b)
    decreases |b|
  {
    if b == [] {
      assert a + b == a;
    } else {
      var b' := b[..|b| - 1];
      WalkAppend(d, a, b');
      assert (a + b)[..|a + b| - 1] == a + b';
    }
  }

  /** Two chained calls, `safe_get(safe_get(d, *a), *b, default=v)`, agree with
      the single call `safe_get(d, *a, *b, default=v)` whenever `b` is not empty. */
  lemma ChainedLookup(d: Json, a: seq<string>, b: seq<string>, default: Json)
    requires b != []
    ensures Lookup(d, a + b, default) == Lookup(Lookup(d, a, Null), b, default)
  {
    WalkAppend(d, a, b);
    if Walk(d, a).None? {
      assert b[..1][..0] == [];
      assert Walk(Null, b[..1]).None?;
      WalkNoneExtends(Null, b, 1);
    }
  }

  /** A falsy intermediate value (`None`, `0`, `""`, `[]`, `{}` ...) holds no
      key, so a longer path through it yields the default. */
  lemma FalsyLevelYieldsDefault(d: Json, a: seq<string>, b: seq<string>, default: Json)
    requires b != [] && !Truthy(Lookup(d, a, Null))
    ensures Lookup(d, a + b, default) == default
  {
    ChainedLookup(d, a, b, default);
    var x := Lookup(d, a, Null);
    assert b[..1][..0] == [];
    assert Walk(x, b[..1]).None?;
    WalkNoneExtends(x, b, 1);
  }

  /** `safe_get(package_data, "result", "resources", default=[])` gives `[]`
      when "result" is missing or not a dict, or holds no "resources". */
  lemma TwoLevelDefault(d: Json, k1: string, k2: string, default: Json)
    requires !(d.Obj? && HasKey(d.fields, k1)) ||
             !(Field(d.fields, k1).Obj? && HasKey(Field(d.fields, k1).fields, k2))
    ensures Lookup(d, [k1, k2], default) == default
  {
    var path := [k1, k2];
    assert path[..|path| - 1] == [k1];
    assert [k1][..0] == [];
    assert Walk(d, [k1]) == Step(d, k1);
  }
}
