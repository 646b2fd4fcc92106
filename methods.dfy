/** The two helpers of `APIMethods` in `telefone_types/methods.py` that hold
    logic: `get_params`, which turns a method's `locals()` into the flat
    parameter dictionary of a request, and `get_response`, which adds the
    `json_` alias to a response dictionary in place. */
module Methods {
  import opened Values

  /** Why `get_params` fails: `loc["kwargs"]` raises `KeyError` when the key
      is missing, and `n.update(...)` rejects a value that is not a
      dictionary. */
  datatype ParamsError = MissingKwargs | KwargsNotDict

  /** Whether a local is passed on: not `self`, not `kwargs`, not `None`. */
  predicate Passed(k: string, v: Json) {
    k != "self" && k != "kwargs" && v != Null
  }

  /** The comprehension of `get_params`: the passed locals, in their order. */
  function PassedLocals(loc: Entries): (r: Entries)
    ensures |r| <= |loc|
    ensures forall p | p in r :: p in loc && Passed(p.0, p.1)
  {
    if loc == [] then []
    else if Passed(loc[0].0, loc[0].1) then [loc[0]] + PassedLocals(loc[1..])
    else PassedLocals(loc[1..])
  }

  /** `APIMethods.get_params(loc)`: the passed locals, then `kwargs` merged
      over them. The result is a fresh dictionary; `loc` is a value here,
      so it cannot change. */
  function GetParams(loc: Entries): (r: Result<Entries, ParamsError>)
    ensures r.Ok? <==> "kwargs" in KeysOf(loc) && Lookup(loc, "kwargs").value.Dict?
  {
    match Lookup(loc, "kwargs")
    case None => Err(MissingKwargs)
    case Some(kw) =>
      if kw.Dict? then Ok(UpdateWith(PassedLocals(loc), kw.entries)) else Err(KwargsNotDict)
  }

  /** What the comprehension keeps under a key. */
  function PassedValue(loc: Entries, k: string): Option<Json> {
    match Lookup(loc, k)
    case None => None
    case Some(v) => if Passed(k, v) then Some(v) else None
  }

  lemma {:induction false} PassedLocalsLookup(loc: Entries, k: string)
    requires UniqueKeys(loc)
    ensures Lookup(PassedLocals(loc), k) == PassedValue(loc, k)
  {
    if loc != [] {
      var tail := loc[1..];
      assert UniqueKeys(tail) by {
        forall a, b | 0 <= a < b < |tail| ensures tail[a].0 != tail[b].0 {
          assert tail[a] == loc[a + 1] && tail[b] == loc[b + 1];
        }
      }
      PassedLocalsLookup(tail, k);
      var passed := Passed(loc[0].0, loc[0].1);
      assert PassedLocals(loc) == if passed then [loc[0]] + PassedLocals(tail) else PassedLocals(tail);
      if loc[0].0 == k {
        assert Lookup(loc, k) == Some(loc[0].1);
        assert k !in KeysOf(tail) by {
          forall i | 0 <= i < |tail| ensures KeysOf(tail)[i] != k {
            assert tail[i] == loc[i + 1];
          }
        }
        assert Lookup(tail, k) == None;
      } else {
        assert Lookup(loc, k) == Lookup(tail, k);
      }
    }
  }

  lemma {:induction false} PassedLocalsKeys(loc: Entries, k: string)
    requires k in KeysOf(PassedLocals(loc))
    ensures k in KeysOf(loc)
  {
    if loc != [] {
      if k != loc[0].0 {
        var p := PassedLocals(loc);
        if Passed(loc[0].0, loc[0].1) {
          assert KeysOf(p) == [loc[0].0] + KeysOf(PassedLocals(loc[1..]));
        }
        PassedLocalsKeys(loc[1..], k);
        assert KeysOf(loc) == [loc[0].0] + KeysOf(loc[1..]);
      } else {
        assert KeysOf(loc)[0] == k;
      }
    }
  }

  lemma {:induction false} PassedLocalsUnique(loc: Entries)
    requires UniqueKeys(loc)
    ensures UniqueKeys(PassedLocals(loc))
  {
    if loc != [] {
      assert UniqueKeys(loc[1..]) by {
        forall a, b | 0 <= a < b < |loc[1..]| ensures loc[1..][a].0 != loc[1..][b].0 {
          assert loc[1..][a] == loc[a + 1] && loc[1..][b] == loc[b + 1];
        }
      }
      PassedLocalsUnique(loc[1..]);
      if Passed(loc[0].0, loc[0].1) {
        var r := PassedLocals(loc);
        var tail := PassedLocals(loc[1..]);
        assert r[1..] == tail;
        forall a, b | 0 <= a < b < |r| ensures r[a].0 != r[b].0 {
          if a > 0 {
            assert r[a] == tail[a - 1] && r[b] == tail[b - 1];
          } else {
            assert r[b] == tail[b - 1] && KeysOf(tail)[b - 1] == r[b].0;
            PassedLocalsKeys(loc[1..], r[b].0);
            var i :| 0 <= i < |loc[1..]| && KeysOf(loc[1..])[i] == r[b].0;
            assert loc[1..][i] == loc[i + 1];
          }
        }
      }
    }
  }

  /** `get_params` fails exactly when `loc` has no `kwargs` entry, or when
      that entry is not a dictionary. */
  lemma GetParamsFails(loc: Entries)
    ensures GetParams(loc) == Err(MissingKwargs) <==> "kwargs" !in KeysOf(loc)
    ensures GetParams(loc) == Err(KwargsNotDict)
        <==> "kwargs" in KeysOf(loc) && !Lookup(loc, "kwargs").value.Dict?
  {
  }

  /** The `kwargs` dictionary of a call that succeeds. */
  function Kwargs(loc: Entries): Entries
    requires GetParams(loc).Ok?
  {
    Lookup(loc, "kwargs").value.entries
  }

  /** Key by key: a `kwargs` entry wins; otherwise a local is passed on with
      its own value unless it is `self`, `kwargs` or `None`. A `None` that
      comes from `kwargs` is kept. */
  lemma GetParamsLookup(loc: Entries, k: string)
    requires UniqueKeys(loc)
    requires GetParams(loc).Ok?
    requires UniqueKeys(Kwargs(loc))
    ensures Lookup(GetParams(loc).value, k)
         == if k in KeysOf(Kwargs(loc)) then Lookup(Kwargs(loc), k) else PassedValue(loc, k)
  {
    var kw := Kwargs(loc);
    UpdateWithLookup(PassedLocals(loc), kw, k);
    PassedLocalsLookup(loc, k);
  }

  /** The keys of the result: the passed locals and the keys of `kwargs`. */
  lemma GetParamsKeys(loc: Entries, k: string)
    requires UniqueKeys(loc)
    requires GetParams(loc).Ok?
    ensures k in KeysOf(GetParams(loc).value)
        <==> (k in KeysOf(loc) && Passed(k, Lookup(loc, k).value)) || k in KeysOf(Kwargs(loc))
  {
    var kw := Kwargs(loc);
    UpdateWithKeys(PassedLocals(loc), kw, k);
    PassedLocalsLookup(loc, k);
  }

  /** The result is a dictionary: its keys are distinct. */
  lemma GetParamsUnique(loc: Entries)
    requires UniqueKeys(loc)
    requires GetParams(loc).Ok?
    ensures UniqueKeys(GetParams(loc).value)
  {
    PassedLocalsUnique(loc);
    UpdateWithUnique(PassedLocals(loc), Lookup(loc, "kwargs").value.entries);
  }

  /** A Python `dict` object: callers hold it by reference, so an update
      made through one reference is seen through every other. */
  class PyDict {
    var entries: Entries

    constructor (es: Entries)
      ensures entries == es
    {
      entries := es;
    }

    /** `d[k] = v` */
    method SetItem(k: string, v: Json)
      modifies this
      ensures entries == Assign(old(entries), k, v)
    {
      entries := Assign(entries, k, v);
    }
  }

  /** The dictionary that `get_response` leaves behind: `json_` set to the
      value of `json` when `json` is present, and the input otherwise. */
  function Aliased(es: Entries): (r: Entries)
    ensures "json" !in KeysOf(es) ==> r == es
    ensures KeysOf(r) == if "json" in KeysOf(es) && "json_" !in KeysOf(es) then KeysOf(es) + ["json_"] else KeysOf(es)
  {
    match Lookup(es, "json")
    case None => es
    case Some(v) => Assign(es, "json_", v)
  }

  /** After aliasing, `json_` holds what `json` holds. */
  lemma AliasedCopiesJson(es: Entries)
    requires "json" in KeysOf(es)
    ensures Lookup(Aliased(es), "json_") == Lookup(es, "json")
    ensures Lookup(Aliased(es), "json") == Lookup(es, "json")
  {
    AssignLookup(es, "json_", Lookup(es, "json").value, "json_");
    AssignLookup(es, "json_", Lookup(es, "json").value, "json");
  }

  /** Aliasing touches no key but `json_`, and touches nothing at all when
      `json` is absent. Existing keys keep their positions; `json_` is
      appended when it was not there. */
  lemma AliasedFrame(es: Entries, k: string)
    ensures k != "json_" ==> Lookup(Aliased(es), k) == Lookup(es, k)
    ensures "json" !in KeysOf(es) ==> Aliased(es) == es
    ensures KeysOf(Aliased(es))
         == if "json" !in KeysOf(es) || "json_" in KeysOf(es) then KeysOf(es) else KeysOf(es) + ["json_"]
  {
    if "json" in KeysOf(es) {
      AssignLookup(es, "json_", Lookup(es, "json").value, k);
    }
  }

  /** Aliasing twice is aliasing once. */
  lemma AliasedIdempotent(es: Entries)
    ensures Aliased(Aliased(es)) == Aliased(es)
  {
    if "json" in KeysOf(es) {
      var v := Lookup(es, "json").value;
      AliasedCopiesJson(es);
      AssignSame(Aliased(es), "json_", v);
    }
  }

  /** `APIMethods.get_response(r)`: writes `r["json_"] = r["json"]` into the
      caller's dictionary when `json` is a key, and returns that same
      dictionary object. */
  method GetResponse(r: PyDict) returns (same: PyDict)
    modifies r
    ensures same == r
    ensures r.entries == Aliased(old(r.entries))
    ensures "json" in KeysOf(old(r.entries)) ==> Lookup(r.entries, "json_") == Lookup(old(r.entries), "json")
    ensures forall k :: k != "json_" ==> Lookup(r.entries, k) == Lookup(old(r.entries), k)
    ensures "json" !in KeysOf(old(r.entries)) ==> r.entries == old(r.entries)
  {
    ghost var before := r.entries;
    var json := Lookup(r.entries, "json");
    if json.Some? {
      r.SetItem("json_", json.value);
      AliasedCopiesJson(before);
    }
    forall k | k != "json_" ensures Lookup(r.entries, k) == Lookup(before, k) {
      AliasedFrame(before, k);
    }
    same := r;
  }
}
