/** JSON-shaped values as the example tool receives and returns them: Python's
    None, bool, int, str, list and dict. A dict is kept as the sequence of its
    entries, so that insertion order is part of the value, and the two dict
    operations the tool uses (`d[k] = v` and `d.update(u)`) are defined here. */
module Json {

  datatype Option<+T> = None | Some(value: T)

  datatype Value =
    | Null
    | Bool(b: bool)
    | Int(i: int)
    | Str(s: string)
    | Arr(elems: seq<Value>)
    | Obj(fields: seq<(string, Value)>)

  /** The entries of a dict, in insertion order. */
  type Fields = seq<(string, Value)>

  /** The keys of a dict, in insertion order (`list(d.keys())`). */
  function Keys(o: Fields): (ks: seq<string>)
    ensures |ks| == |o|
    ensures forall i {:trigger ks[i]} :: 0 <= i < |o| ==> ks[i] == o[i].0
  {
    if o == [] then [] else [o[0].0] + Keys(o[1..])
  }

  predicate Distinct(ks: seq<string>)
  {
    forall i, j :: 0 <= i < j < |ks| ==> ks[i] != ks[j]
  }

  /** A Python dict never holds a key twice. */
  predicate DistinctKeys(o: Fields)
  {
    Distinct(Keys(o))
  }

  /** `d.get(k)`: the value of the first entry with key `k`. */
  function Lookup(o: Fields, k: string): (r: Option<Value>)
    ensures r.Some? <==> k in Keys(o)
    ensures r.Some? ==> (k, r.value) in o
  {
    if o == [] then None
    else if o[0].0 == k then Some(o[0].1)
    else Lookup(o[1..], k)
  }

  /** In a dict, the entry `(k, v)` is what `d[k]` finds. */
  lemma {:induction false} LookupDistinct(o: Fields, k: string, v: Value)
    requires DistinctKeys(o)
    requires (k, v) in o
    ensures Lookup(o, k) == Some(v)
  {
    if o[0] != (k, v) {
      assert o[0].0 != k by {
        var i :| 0 <= i < |o| && o[i] == (k, v);
        assert Keys(o)[0] != Keys(o)[i];
      }
      assert DistinctKeys(o[1..]) by {
        forall i, j | 0 <= i < j < |o[1..]| ensures Keys(o[1..])[i] != Keys(o[1..])[j] {
          assert Keys(o)[i + 1] != Keys(o)[j + 1];
        }
      }
      LookupDistinct(o[1..], k, v);
    }
  }

  lemma KeysConcat(o: Fields, p: Fields)
    ensures Keys(o + p) == Keys(o) + Keys(p)
  {
  }

  /** Looking a key up in a concatenation finds it in the first part if it is there. */
  lemma {:induction false} LookupConcat(o: Fields, p: Fields, k: string)
    ensures Lookup(o + p, k) == if k in Keys(o) then Lookup(o, k) else Lookup(p, k)
  {
    if o != [] {
      assert (o + p)[1..] == o[1..] + p;
      LookupConcat(o[1..], p, k);
    } else {
      assert o + p == p;
    }
  }

  /** `d[k] = v`: an existing key keeps its position and takes the new value;
      a new key is appended after all others. */
  function Set(o: Fields, k: string, v: Value): Fields
  {
    if o == [] then [(k, v)]
    else if o[0].0 == k then [(k, v)] + o[1..]
    else [o[0]] + Set(o[1..], k, v)
  }

  /** After `d[k] = v`, `d[k]` is `v` and every other key maps to what it did before. */
  lemma {:induction false} SetLookup(o: Fields, k: string, v: Value, k': string)
    ensures Lookup(Set(o, k, v), k') == if k' == k then Some(v) else Lookup(o, k')
  {
    if o != [] && o[0].0 != k {
      var r := Set(o, k, v);
      assert r[0] == o[0] && r[1..] == Set(o[1..], k, v);
      SetLookup(o[1..], k, v, k');
    }
  }

  /** `d[k] = v` leaves the key order alone when `k` is present and appends `k` otherwise. */
  lemma {:induction false} SetKeys(o: Fields, k: string, v: Value)
    ensures Keys(Set(o, k, v)) == if k in Keys(o) then Keys(o) else Keys(o) + [k]
  {
    if o != [] {
      var r := Set(o, k, v);
      if o[0].0 == k {
        assert Keys(r) == [k] + Keys(o[1..]);
      } else {
        assert r[0] == o[0] && r[1..] == Set(o[1..], k, v);
        SetKeys(o[1..], k, v);
        assert Keys(r) == [o[0].0] + Keys(Set(o[1..], k, v));
        assert Keys(o) == [o[0].0] + Keys(o[1..]);
      }
    }
  }

  /** Setting a key the dict does not have appends exactly one entry. */
  lemma {:induction false} SetAbsent(o: Fields, k: string, v: Value)
    requires k !in Keys(o)
    ensures Set(o, k, v) == o + [(k, v)]
  {
    if o != [] {
      assert Keys(o) == [o[0].0] + Keys(o[1..]);
      SetAbsent(o[1..], k, v);
      assert [o[0]] + (o[1..] + [(k, v)]) == o + [(k, v)];
    }
  }

  /** Setting keeps a dict's keys distinct. */
  lemma SetDistinct(o: Fields, k: string, v: Value)
    requires DistinctKeys(o)
    ensures DistinctKeys(Set(o, k, v))
  {
    SetKeys(o, k, v);
  }

  /** `d.update(u)`: the entries of `u` are set into `d` one by one, in order. */
  function Update(o: Fields, u: Fields): Fields
    decreases |u|
  {
    if u == [] then o
    else Set(Update(o, u[..|u| - 1]), u[|u| - 1].0, u[|u| - 1].1)
  }

  /** An update keeps every key of the target in its place and only appends. */
  lemma {:induction false} UpdateKeepsOrder(o: Fields, u: Fields)
    ensures |Update(o, u)| >= |o|
    ensures Keys(Update(o, u))[..|o|] == Keys(o)
    decreases |u|
  {
    if u != [] {
      var front, last := u[..|u| - 1], u[|u| - 1];
      var before := Update(o, front);
      UpdateKeepsOrder(o, front);
      SetKeys(before, last.0, last.1);
      if last.0 !in Keys(before) {
        assert (Keys(before) + [last.0])[..|o|] == Keys(before)[..|o|];
      }
    }
  }

  /** An update loses no key and adds exactly the keys of `u`. */
  lemma {:induction false} UpdateHasKey(o: Fields, u: Fields, k: string)
    ensures k in Keys(Update(o, u)) <==> k in Keys(o) || k in Keys(u)
    decreases |u|
  {
    if u != [] {
      var front, last := u[..|u| - 1], u[|u| - 1];
      UpdateHasKey(o, front, k);
      SetKeys(Update(o, front), last.0, last.1);
      assert u == front + [last];
      KeysConcat(front, [last]);
    }
  }

  /** After `d.update(u)` with `u` a dict, every key of `u` maps to the value `u`
      gives it, and every other key maps to what it mapped to before. */
  lemma {:induction false} UpdateLookup(o: Fields, u: Fields, k: string)
    requires DistinctKeys(u)
    ensures Lookup(Update(o, u), k) == if k in Keys(u) then Lookup(u, k) else Lookup(o, k)
    decreases |u|
  {
    if u != [] {
      var front, last := u[..|u| - 1], u[|u| - 1];
      assert u == front + [last];
      assert Keys(u) == Keys(front) + [last.0];
      assert DistinctKeys(front) by {
        forall i, j | 0 <= i < j < |front| ensures Keys(front)[i] != Keys(front)[j] {
          assert Keys(u)[i] != Keys(u)[j];
        }
      }
      UpdateLookup(o, front, k);
      SetLookup(Update(o, front), last.0, last.1, k);
      LookupConcat(front, [last], k);
      if k == last.0 {
        LookupDistinct(u, k, last.1);
      }
    }
  }

  /** Updating a dict with a dict yields a dict. */
  lemma {:induction false} UpdateDistinct(o: Fields, u: Fields)
    requires DistinctKeys(o)
    ensures DistinctKeys(Update(o, u))
    decreases |u|
  {
    if u != [] {
      UpdateDistinct(o, u[..|u| - 1]);
      SetDistinct(Update(o, u[..|u| - 1]), u[|u| - 1].0, u[|u| - 1].1);
    }
  }
}
