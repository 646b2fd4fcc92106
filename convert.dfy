/** The None-pruning serialiser of `telefone_types/objects/base.py`:
    `convert` walks a tree of models, dictionaries and lists, drops every
    dictionary entry whose value is `None`, and turns each model into the
    dictionary of its fields. */
module Convert {
  import opened Values

  /** `convert(d)`: a model becomes its pruned field dictionary, a
      dictionary is pruned, a list is converted element by element, and
      anything else is returned as it is. */
  function Convert(j: Json): (r: Json)
    ensures r == Null <==> j == Null
    ensures (j.Model? || j.Dict?) ==> r.Dict? && forall p | p in r.entries :: p.1 != Null
    decreases j, 2
  {
    match j
    case Model(fs) => ConvertToDict(fs)
    case Dict(es) => Dict(Prune(es))
    case List(xs) => List(seq(|xs|, i requires 0 <= i < |xs| => Convert(xs[i])))
    case _ => j
  }

  /** `BaseObject.convert_to_dict()`, given the field dictionary that the
      model's `.dict()` yields. */
  function ConvertToDict(fs: Entries): (r: Json)
    ensures r.Dict? && |r.entries| <= |fs|
    ensures forall p | p in r.entries :: p.1 != Null
    decreases fs, 1
  {
    Dict(Prune(fs))
  }

  /** `{k: convert(v) for k, v in d.items() if v is not None}` */
  function Prune(es: Entries): (r: Entries)
    ensures |r| <= |es|
    ensures forall p | p in r :: p.1 != Null
    decreases es, 0
  {
    if es == [] then []
    else if es[0].1 == Null then Prune(es[1..])
    else
      assert es[0] in es && es[0].1 < es[0];
      [(es[0].0, Convert(es[0].1))] + Prune(es[1..])
  }

  /** A tree that `convert` can produce: no model instances, and no
      dictionary entry whose value is `None` at any depth. `None` elements
      of lists are allowed. */
  predicate Pruned(j: Json)
    decreases j, 1
  {
    match j
    case Model(_) => false
    case Dict(es) => PrunedEntries(es)
    case List(xs) => forall x | x in xs :: Pruned(x)
    case _ => true
  }

  predicate PrunedEntries(es: Entries)
    decreases es, 0
  {
    forall i | 0 <= i < |es| :: es[i].1 != Null && (assert es[i] in es && es[i].1 < es[i]; Pruned(es[i].1))
  }

  /** Only `None` converts to `None`. */
  lemma ConvertNull(j: Json)
    ensures Convert(j) == Null <==> j == Null
  {
  }

  /** No `None` survives in any dictionary `convert` produces, and no model
      instance either. */
  lemma {:induction false} ConvertIsPruned(j: Json)
    ensures Pruned(Convert(j))
    decreases j, 1
  {
    match j
    case Model(fs) =>
      assert Convert(j) == Dict(Prune(fs));
      PruneIsPruned(fs);
    case Dict(es) => PruneIsPruned(es);
    case List(xs) =>
      var ys := Convert(j).items;
      forall y | y in ys ensures Pruned(y) {
        var i :| 0 <= i < |ys| && ys[i] == y;
        ConvertIsPruned(xs[i]);
      }
    case _ =>
  }

  lemma {:induction false} PruneIsPruned(es: Entries)
    ensures PrunedEntries(Prune(es))
    decreases es, 0
  {
    if es != [] {
      PruneIsPruned(es[1..]);
      if es[0].1 != Null {
        assert es[0] in es && es[0].1 < es[0];
        ConvertIsPruned(es[0].1);
        ConvertNull(es[0].1);
        var r := Prune(es);
        assert r == [(es[0].0, Convert(es[0].1))] + Prune(es[1..]);
        forall i | 0 <= i < |r| ensures r[i].1 != Null && Pruned(r[i].1) {
          if i > 0 {
            assert r[i] == Prune(es[1..])[i - 1];
          }
        }
      }
    }
  }

  /** A tree that is already pruned is returned unchanged; in particular
      every scalar, and `None` itself, is its own conversion. */
  lemma {:induction false} PrunedIsFixpoint(j: Json)
    requires Pruned(j)
    ensures Convert(j) == j
    decreases j, 1
  {
    match j
    case Dict(es) => PrunedEntriesFixpoint(es);
    case List(xs) =>
      forall i | 0 <= i < |xs| ensures Convert(xs[i]) == xs[i] {
        assert xs[i] in xs;
        PrunedIsFixpoint(xs[i]);
      }
    case _ =>
  }

  lemma {:induction false} PrunedEntriesFixpoint(es: Entries)
    requires PrunedEntries(es)
    ensures Prune(es) == es
    decreases es, 0
  {
    if es != [] {
      assert es[0].1 != Null && Pruned(es[0].1);
      assert es[0] in es && es[0].1 < es[0];
      PrunedIsFixpoint(es[0].1);
      assert PrunedEntries(es[1..]) by {
        forall i | 0 <= i < |es[1..]| ensures es[1..][i].1 != Null && Pruned(es[1..][i].1) {
          assert es[1..][i] == es[i + 1];
        }
      }
      PrunedEntriesFixpoint(es[1..]);
    }
  }

  /** Scalars and `None` pass through `convert` unchanged. */
  lemma ScalarUnchanged(j: Json)
    requires !j.List? && !j.Dict? && !j.Model?
    ensures Convert(j) == j
  {
  }

  /** `convert` is idempotent. */
  lemma ConvertIdempotent(j: Json)
    ensures Convert(Convert(j)) == Convert(j)
  {
    ConvertIsPruned(j);
    PrunedIsFixpoint(Convert(j));
  }

  /** A key survives pruning exactly when some entry under it holds a value
      other than `None`. */
  lemma {:induction false} PruneKeys(es: Entries, k: string)
    ensures k in KeysOf(Prune(es)) <==> exists i :: 0 <= i < |es| && es[i].0 == k && es[i].1 != Null
  {
    if es != [] {
      PruneKeys(es[1..], k);
      if exists i :: 0 <= i < |es[1..]| && es[1..][i].0 == k && es[1..][i].1 != Null {
        var i :| 0 <= i < |es[1..]| && es[1..][i].0 == k && es[1..][i].1 != Null;
        assert es[i + 1] == es[1..][i];
      }
      if exists i :: 0 <= i < |es| && es[i].0 == k && es[i].1 != Null {
        var i :| 0 <= i < |es| && es[i].0 == k && es[i].1 != Null;
        if i > 0 {
          assert es[1..][i - 1] == es[i];
        }
      }
      if es[0].1 != Null {
        assert KeysOf(Prune(es)) == [es[0].0] + KeysOf(Prune(es[1..]));
      }
    }
  }

  /** Pruning never introduces a key. */
  lemma PruneKeysSubset(es: Entries, k: string)
    requires k in KeysOf(Prune(es))
    ensures k in KeysOf(es)
  {
    PruneKeys(es, k);
    var i :| 0 <= i < |es| && es[i].0 == k && es[i].1 != Null;
    assert KeysOf(es)[i] == k;
  }

  /** What pruning leaves under a key: nothing where the input held `None`
      or nothing, and the converted value otherwise. */
  lemma {:induction false} PruneLookup(es: Entries, k: string)
    requires UniqueKeys(es)
    ensures Lookup(Prune(es), k) == match Lookup(es, k)
                                    case None => None
                                    case Some(v) => if v == Null then None else Some(Convert(v))
  {
    if es != [] {
      assert UniqueKeys(es[1..]) by {
        forall a, b | 0 <= a < b < |es[1..]| ensures es[1..][a].0 != es[1..][b].0 {
          assert es[1..][a] == es[a + 1] && es[1..][b] == es[b + 1];
        }
      }
      PruneLookup(es[1..], k);
      if es[0].0 == k && es[0].1 == Null {
        assert k !in KeysOf(es[1..]) by {
          forall i | 0 <= i < |es[1..]| ensures KeysOf(es[1..])[i] != k {
            assert es[1..][i] == es[i + 1];
          }
        }
      }
    }
  }

  /** Without distinct keys: a key whose first entry holds a value other
      than `None` keeps that value, converted. */
  lemma {:induction false} PruneLookupFirst(es: Entries, k: string)
    requires Lookup(es, k).Some? && Lookup(es, k).value != Null
    ensures Lookup(Prune(es), k) == Some(Convert(Lookup(es, k).value))
  {
    if es[0].0 != k {
      PruneLookupFirst(es[1..], k);
    }
  }

  /** `a` is `b` with some elements left out, the rest in their order. */
  predicate Subsequence<T(==)>(a: seq<T>, b: seq<T>)
    decreases |b|
  {
    if a == [] then true
    else if b == [] then false
    else if a[0] == b[0] then Subsequence(a[1..], b[1..])
    else Subsequence(a, b[1..])
  }

  lemma {:induction false} SubsequenceDropHead<T>(a: seq<T>, b: seq<T>)
    requires b != [] && Subsequence(a, b[1..])
    ensures Subsequence(a, b)
    decreases |b|, 1
  {
    if a != [] && a[0] == b[0] {
      SubsequenceTail(a, b[1..]);
    }
  }

  lemma {:induction false} SubsequenceTail<T>(a: seq<T>, c: seq<T>)
    requires a != [] && Subsequence(a, c)
    ensures Subsequence(a[1..], c)
    decreases |c|, 2
  {
    if a[0] == c[0] {
      if a[1..] != [] {
        SubsequenceDropHead(a[1..], c);
      }
    } else {
      SubsequenceTail(a, c[1..]);
      if a[1..] != [] {
        SubsequenceDropHead(a[1..], c);
      }
    }
  }

  /** The surviving keys keep their input order. */
  lemma {:induction false} PruneKeepsOrder(es: Entries)
    ensures Subsequence(KeysOf(Prune(es)), KeysOf(es))
  {
    if es != [] {
      PruneKeepsOrder(es[1..]);
      var ks := KeysOf(es);
      assert ks[1..] == KeysOf(es[1..]);
      if es[0].1 == Null {
        if KeysOf(Prune(es)) != [] {
          SubsequenceDropHead(KeysOf(Prune(es)), ks);
        }
      } else {
        var ps := KeysOf(Prune(es));
        assert ps[0] == ks[0] && ps[1..] == KeysOf(Prune(es[1..]));
      }
    }
  }

  /** Pruning a dictionary yields a dictionary: its keys stay distinct. */
  lemma {:induction false} PruneUnique(es: Entries)
    requires UniqueKeys(es)
    ensures UniqueKeys(Prune(es))
  {
    if es != [] {
      assert UniqueKeys(es[1..]) by {
        forall a, b | 0 <= a < b < |es[1..]| ensures es[1..][a].0 != es[1..][b].0 {
          assert es[1..][a] == es[a + 1] && es[1..][b] == es[b + 1];
        }
      }
      PruneUnique(es[1..]);
      if es[0].1 != Null {
        var r := Prune(es);
        var tail := Prune(es[1..]);
        forall j | 0 < j < |r| ensures r[0].0 != r[j].0 {
          assert r[j] == tail[j - 1] && KeysOf(tail)[j - 1] == r[j].0;
          PruneKeysSubset(es[1..], r[j].0);
          var i :| 0 <= i < |es[1..]| && KeysOf(es[1..])[i] == r[j].0;
          assert es[1..][i] == es[i + 1];
        }
        assert r[1..] == tail;
        forall a, b | 0 <= a < b < |r| ensures r[a].0 != r[b].0 {
          if a > 0 {
            assert r[a] == tail[a - 1] && r[b] == tail[b - 1];
          }
        }
      }
    }
  }

  /** A list keeps its length and order; each element is converted, and a
      `None` element stays `None` rather than being dropped. */
  lemma ListShapeKept(xs: seq<Json>)
    ensures Convert(List(xs)).List?
    ensures |Convert(List(xs)).items| == |xs|
    ensures forall i :: 0 <= i < |xs| ==> Convert(List(xs)).items[i] == Convert(xs[i])
    ensures forall i :: 0 <= i < |xs| && xs[i] == Null ==> Convert(List(xs)).items[i] == Null
  {
  }

  /** A dictionary whose values are all `None` becomes `{}`; it is not
      dropped from an enclosing dictionary, because the filter looks at the
      value before it is converted. */
  lemma {:induction false} AllNoneBecomesEmpty(es: Entries)
    requires forall i :: 0 <= i < |es| ==> es[i].1 == Null
    ensures Convert(Dict(es)) == Dict([])
  {
    if es != [] {
      AllNoneBecomesEmpty(es[1..]);
    }
  }

  lemma EmptiedDictIsKept(k: string, es: Entries)
    requires es != [] && forall i :: 0 <= i < |es| ==> es[i].1 == Null
    ensures Convert(Dict([(k, Dict(es))])) == Dict([(k, Dict([]))])
  {
    var outer := [(k, Dict(es))];
    assert Prune(outer) == [(k, Convert(Dict(es)))] + Prune(outer[1..]);
    AllNoneBecomesEmpty(es);
  }

  /** `convert_to_dict` on a model is `convert` on its field dictionary:
      a dictionary without `None` fields, each surviving field converted. */
  lemma ConvertToDictIsConvert(fs: Entries, k: string)
    requires UniqueKeys(fs)
    ensures ConvertToDict(fs) == Convert(Dict(fs)) == Convert(Model(fs))
    ensures ConvertToDict(fs).Dict? && UniqueKeys(ConvertToDict(fs).entries)
    ensures Lookup(ConvertToDict(fs).entries, k) == match Lookup(fs, k)
                                                    case None => None
                                                    case Some(v) => if v == Null then None else Some(Convert(v))
  {
    PruneLookup(fs, k);
    PruneUnique(fs);
  }
}
