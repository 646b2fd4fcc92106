/** The Python values the serialiser and the request helpers work on, and
    the dictionary operations they use.

    A Python `dict` keeps its keys in insertion order, so it is modelled as
    a sequence of (key, value) entries. Every dictionary a Python program
    can build has pairwise distinct keys (`UniqueKeys`); the operations
    below keep that invariant. */
module Values {

  datatype Option<+T> = None | Some(value: T)

  datatype Result<+T, +E> = Ok(value: T) | Err(error: E)

  /** A value as the serialiser sees it: `None`, a scalar, a list, a plain
      dictionary, or an instance of a pydantic model, given by the field
      dictionary that its `.dict()` yields. Floats are opaque: nothing in
      the modelled code computes with them. */
  datatype Json =
    | Null
    | Bool(b: bool)
    | Int(i: int)
    | Str(s: string)
    | Num(repr: string)
    | List(items: seq<Json>)
    | Dict(entries: seq<(string, Json)>)
    | Model(fields: seq<(string, Json)>)

  type Entries = seq<(string, Json)>

  /** The keys of a dictionary, in insertion order. */
  function KeysOf(es: Entries): (ks: seq<string>)
    ensures |ks| == |es|
    ensures forall i :: 0 <= i < |es| ==> ks[i] == es[i].0
  {
    if es == [] then [] else [es[0].0] + KeysOf(es[1..])
  }

  predicate UniqueKeys(es: Entries) {
    forall i, j :: 0 <= i < j < |es| ==> es[i].0 != es[j].0
  }

  /** `d[k]`, and `k in d`: the value stored under `k`, if any. */
  function Lookup(es: Entries, k: string): (r: Option<Json>)
    ensures r.Some? <==> k in KeysOf(es)
    ensures r.Some? ==> exists i :: 0 <= i < |es| && es[i] == (k, r.value)
  {
    if es == [] then None
    else if es[0].0 == k then Some(es[0].1)
    else Lookup(es[1..], k)
  }

  /** In a dictionary, the entry at a position is what a lookup of its key finds. */
  lemma {:induction false} LookupAt(es: Entries, i: int)
    requires UniqueKeys(es)
    requires 0 <= i < |es|
    ensures Lookup(es, es[i].0) == Some(es[i].1)
  {
    if i > 0 {
      assert es[0].0 != es[i].0;
      assert UniqueKeys(es[1..]) by {
        forall a, b | 0 <= a < b < |es[1..]| ensures es[1..][a].0 != es[1..][b].0 {
          assert es[1..][a] == es[a + 1] && es[1..][b] == es[b + 1];
        }
      }
      LookupAt(es[1..], i - 1);
    }
  }

  /** The entry at a position is what a lookup of its key finds when no
      earlier entry has the same key. */
  lemma {:induction false} LookupFirst(es: Entries, i: int)
    requires 0 <= i < |es|
    requires forall j | 0 <= j < i :: es[j].0 != es[i].0
    ensures Lookup(es, es[i].0) == Some(es[i].1)
  {
    if i > 0 {
      assert es[1..][i - 1] == es[i];
      forall j | 0 <= j < i - 1 ensures es[1..][j].0 != es[1..][i - 1].0 {
        assert es[1..][j] == es[j + 1];
      }
      LookupFirst(es[1..], i - 1);
    }
  }

  /** `d[k] = v`: an existing key keeps its position and gets the new value;
      a new key is appended at the end. */
  function Assign(es: Entries, k: string, v: Json): (r: Entries)
    ensures KeysOf(r) == if k in KeysOf(es) then KeysOf(es) else KeysOf(es) + [k]
  {
    if es == [] then [(k, v)]
    else if es[0].0 == k then [(k, v)] + es[1..]
    else [es[0]] + Assign(es[1..], k, v)
  }

  lemma {:induction false} AssignLookup(es: Entries, k: string, v: Json, k': string)
    ensures Lookup(Assign(es, k, v), k') == if k' == k then Some(v) else Lookup(es, k')
  {
    if es != [] && es[0].0 != k {
      AssignLookup(es[1..], k, v, k');
    }
  }

  lemma UniqueKeysByKeys(es: Entries, es': Entries, k: string)
    requires UniqueKeys(es)
    requires KeysOf(es') == KeysOf(es) || (KeysOf(es') == KeysOf(es) + [k] && k !in KeysOf(es))
    ensures UniqueKeys(es')
  {
    forall i, j | 0 <= i < j < |es'| ensures es'[i].0 != es'[j].0 {
      assert KeysOf(es')[i] == es'[i].0 && KeysOf(es')[j] == es'[j].0;
      if j < |es| {
        assert KeysOf(es)[i] == es[i].0 && KeysOf(es)[j] == es[j].0;
      } else {
        assert KeysOf(es)[i] == es[i].0;
      }
    }
  }

  lemma AssignUnique(es: Entries, k: string, v: Json)
    requires UniqueKeys(es)
    ensures UniqueKeys(Assign(es, k, v))
  {
    UniqueKeysByKeys(es, Assign(es, k, v), k);
  }

  /** Assigning a key the value it already has changes nothing. */
  lemma {:induction false} AssignSame(es: Entries, k: string, v: Json)
    requires Lookup(es, k) == Some(v)
    ensures Assign(es, k, v) == es
  {
    if es[0].0 != k {
      AssignSame(es[1..], k, v);
    }
  }

  /** `d.update(other)`: the entries of `other` are assigned one by one, in
      their order. */
  function UpdateWith(es: Entries, other: Entries): (r: Entries)
    ensures forall k | k in KeysOf(es) :: k in KeysOf(r)
    ensures forall k | k in KeysOf(other) :: k in KeysOf(r)
    decreases |other|
  {
    if other == [] then es
    else UpdateWith(Assign(es, other[0].0, other[0].1), other[1..])
  }

  /** After `d.update(other)`, a key of `other` holds `other`'s value and
      any other key holds what it held before. */
  lemma {:induction false} UpdateWithLookup(es: Entries, other: Entries, k: string)
    requires UniqueKeys(other)
    ensures Lookup(UpdateWith(es, other), k)
         == if k in KeysOf(other) then Lookup(other, k) else Lookup(es, k)
    decreases |other|
  {
    if other != [] {
      var es' := Assign(es, other[0].0, other[0].1);
      assert UniqueKeys(other[1..]) by {
        forall a, b | 0 <= a < b < |other[1..]| ensures other[1..][a].0 != other[1..][b].0 {
          assert other[1..][a] == other[a + 1] && other[1..][b] == other[b + 1];
        }
      }
      UpdateWithLookup(es', other[1..], k);
      AssignLookup(es, other[0].0, other[0].1, k);
      if k == other[0].0 {
        assert k !in KeysOf(other[1..]) by {
          forall i | 0 <= i < |other[1..]| ensures KeysOf(other[1..])[i] != k {
            assert other[1..][i] == other[i + 1];
          }
        }
      }
    }
  }

  lemma {:induction false} UpdateWithUnique(es: Entries, other: Entries)
    requires UniqueKeys(es)
    ensures UniqueKeys(UpdateWith(es, other))
    decreases |other|
  {
    if other != [] {
      AssignUnique(es, other[0].0, other[0].1);
      UpdateWithUnique(Assign(es, other[0].0, other[0].1), other[1..]);
    }
  }

  /** The keys after `d.update(other)` are those of `d` and those of `other`. */
  lemma {:induction false} UpdateWithKeys(es: Entries, other: Entries, k: string)
    ensures k in KeysOf(UpdateWith(es, other)) <==> k in KeysOf(es) || k in KeysOf(other)
    decreases |other|
  {
    if other != [] {
      var es' := Assign(es, other[0].0, other[0].1);
      UpdateWithKeys(es', other[1..], k);
      assert KeysOf(other) == [other[0].0] + KeysOf(other[1..]);
    }
  }
}
