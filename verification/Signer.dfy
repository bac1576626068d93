/** The strings a request's signature is over (downloader/signer.go). */
module Signer {
  import opened Strings
  import opened Order
  import opened Escaping
  import opened Query

  // ---- The canonical query string ----

  /** query holds the values of each key, in order. */
  ghost predicate Groups(query: map<string, seq<string>>, ps: seq<Pair>)
  {
    forall k :: (k in query <==> HasKey(ps, k)) && (k in query ==> query[k] == ValuesOf(ps, k))
  }

  function AddValue(query: map<string, seq<string>>, p: Pair): map<string, seq<string>>
  {
    query[p.0 := (if p.0 in query then query[p.0] else []) + [p.1]]
  }

  lemma GroupsLonger(query: map<string, seq<string>>, ps: seq<Pair>, p: Pair)
    requires Groups(query, ps)
    ensures Groups(AddValue(query, p), ps + [p])
  {
    var qs := ps + [p];
    assert qs[..|qs| - 1] == ps && qs[|qs| - 1] == p;
    KeysOfLonger(ps, p);
    if p.0 !in query { NoValues(ps, p.0); }
    forall k
      ensures (k in AddValue(query, p) <==>
          HasKey(qs, k)) && (k in AddValue(query, p) ==> AddValue(query, p)[k] == ValuesOf(qs, k))
    {
      assert ValuesOf(qs, k) == ValuesOf(ps, k) + (if p.0 == k then [p.1] else []);
    }
  }

  /** u.Query(). */
  method ParseQuery(raw: string) returns (query: map<string, seq<string>>)
    ensures Groups(query, ParsePairs(raw))
  {
    var parts := Split(raw, '&');
    query := map[];
    for i := 0 to |parts|
      invariant Groups(query, Collect(parts[..i]))
    {
      var one := ParsePart(parts[i]);
      CollectLonger(parts, i);
      if one != [] {
        GroupsLonger(query, Collect(parts[..i]), one[0]);
        query := AddValue(query, one[0]);
      }
    }
    assert parts[..|parts|] == parts;
  }

  lemma CollectLonger(parts: seq<string>, i: nat)
    requires i < |parts|
    ensures Collect(parts[..i + 1]) == Collect(parts[..i]) + ParsePart(parts[i])
    ensures ParsePart(parts[i]) == [] ==> Collect(parts[..i + 1]) == Collect(parts[..i])
    ensures ParsePart(parts[i]) != [] ==> Collect(parts[..i + 1]) == Collect(parts[..i]) + [ParsePart(parts[i])[0]]
  {
    assert parts[..i + 1] == parts[..i] + [parts[i]];
    CollectAppend(parts[..i], [parts[i]]);
    assert [parts[i]][1..] == [];
    assert Collect([parts[i]]) == ParsePart(parts[i]);
  }

  lemma KeysOfLonger(ps: seq<Pair>, p: Pair)
    ensures forall k :: HasKey(ps + [p], k) <==> HasKey(ps, k) || k == p.0
  {
    forall k
      ensures HasKey(ps + [p], k) <==> HasKey(ps, k) || k == p.0
    {
      if HasKey(ps, k) {
        var i :| 0 <= i < |ps| && ps[i].0 == k;
        assert (ps + [p])[i].0 == k;
      }
      if k == p.0 { assert (ps + [p])[|ps|].0 == k; }
    }
  }

  lemma {:induction false} NoValues(ps: seq<Pair>, k: string)
    requires !HasKey(ps, k)
    ensures ValuesOf(ps, k) == []
  {
    if ps != [] {
      var front := ps[..|ps| - 1];
      forall i | 0 <= i < |front| ensures front[i].0 != k { assert front[i] == ps[i]; }
      NoValues(ps[..|ps| - 1], k);
    }
  }

  /** The keys of a map, in whatever order the range loop yields them. */
  method RangeKeys<V>(m: map<string, V>) returns (keys: seq<string>)
    ensures Distinct(keys) && forall k :: k in keys <==> k in m
  {
    keys := [];
    var todo := m.Keys;
    while todo != {}
      invariant Distinct(keys) && todo <= m.Keys
      invariant forall k :: k in m.Keys <==> k in keys || k in todo
      invariant forall k :: k in keys ==> k !in todo
      decreases |todo|
    {
      var k :| k in todo;
      keys := keys + [k];
      todo := todo - {k};
    }
  }

  lemma DistinctCounts(keys: seq<string>)
    ensures Distinct(keys) <==> forall k :: multiset(keys)[k] <= 1
  {
    if Distinct(keys) {
      forall k ensures multiset(keys)[k] <= 1 { CountAtMostOne(keys, k); }
    } else {
      var i, j :| 0 <= i < j < |keys| && keys[i] == keys[j];
      assert keys == keys[..i] + [keys[i]] + keys[i + 1..j] + [keys[j]] + keys[j + 1..];
      assert multiset(keys)[keys[i]] >= 2;
    }
  }

  lemma {:induction false} CountAtMostOne(keys: seq<string>, k: string)
    requires Distinct(keys)
    ensures multiset(keys)[k] <= 1
  {
    if keys != [] {
      CountAtMostOne(keys[1..], k);
      assert keys == [keys[0]] + keys[1..];
    }
  }

  lemma SortedKeys(keys: seq<string>)
    requires Distinct(keys)
    ensures Sorted(Leq, Sort(Leq, keys)) && Distinct(Sort(Leq, keys))
    ensures forall k :: k in Sort(Leq, keys) <==> k in keys
  {
    StringsOrdered();
    SortKeeps(Leq, keys);
    DistinctCounts(keys);
    DistinctCounts(Sort(Leq, keys));
    forall k ensures k in Sort(Leq, keys) <==> k in keys {
      assert k in Sort(Leq, keys) <==> k in multiset(Sort(Leq, keys));
      assert k in keys <==> k in multiset(keys);
    }
  }

  /** The outer loop: the parts of the keys, in their order, each key's values sorted. */
  method RenderKeys(keys: seq<string>, query: map<string, seq<string>>, ghost ps: seq<Pair>)
    returns (parts: seq<string>)
    requires AllBytes(ps) && Groups(query, ps) && forall k :: k in keys ==> k in query
    ensures AllBytes(Grouped(keys, ps)) && parts == RenderEach(Grouped(keys, ps))
  {
    parts := [];
    for n := 0 to |keys|
      invariant AllBytes(Grouped(keys[..n], ps)) && parts == RenderEach(Grouped(keys[..n], ps))
    {
      var k := keys[n];
      assert k in query && HasKey(ps, k);
      var values := Sort(Leq, query[k]);
      KeyBytes(ps, k);
      var more := AppendValues(k, values);
      GroupedLonger(keys, n, ps);
      RenderAppend(Grouped(keys[..n], ps), WithKey(k, values));
      parts := parts + more;
    }
    assert keys[..|keys|] == keys;
  }

  lemma RenderAppend(a: seq<Pair>, b: seq<Pair>)
    requires AllBytes(a) && AllBytes(b)
    ensures AllBytes(a + b) && RenderEach(a + b) == RenderEach(a) + RenderEach(b)
  {
  }

  lemma GroupedLonger(keys: seq<string>, n: nat, ps: seq<Pair>)
    requires n < |keys|
    ensures Grouped(keys[..n + 1], ps) == Grouped(keys[..n], ps) + WithKey(keys[n], Sort(Leq, ValuesOf(ps, keys[n])))
  {
    assert keys[..n + 1][..n] == keys[..n];
  }

  /** getCanonicalQueryString: group, sort the keys, sort each key's values, escape and join. */
  method GetCanonicalQueryString(raw: string) returns (result: string)
    requires IsBytes(raw)
    ensures result == Canonical(raw)
  {
    ParseBytes(raw);
    ghost var ps := ParsePairs(raw);
    var query := ParseQuery(raw);
    KeysOfQuery(query, ps);
    if |query| == 0 {
      assert query.Keys == {};
      return "";
    }
    var keys := RangeKeys(query);
    SortedKeys(keys);
    keys := Sort(Leq, keys);
    GroupedIsSort(keys, ps);
    var parts := RenderKeys(keys, query, ps);
    result := Join(parts, "&");
  }

  lemma KeysOfQuery(query: map<string, seq<string>>, ps: seq<Pair>)
    requires Groups(query, ps)
    ensures forall i :: 0 <= i < |ps| ==> ps[i].0 in query
  {
    forall i | 0 <= i < |ps| ensures ps[i].0 in query { assert HasKey(ps, ps[i].0); }
  }

  /** The inner loop: one part for each value of the key. */
  method AppendValues(k: string, values: seq<string>) returns (parts: seq<string>)
    requires AllBytes(WithKey(k, values)) && IsBytes(k)
    ensures parts == RenderEach(WithKey(k, values))
  {
    parts := [];
    for m := 0 to |values|
      invariant parts == RenderEach(WithKey(k, values))[..m]
    {
      assert PairBytes(WithKey(k, values)[m]);
      parts := parts + [Escape(QueryComponent, k) + "=" + Escape(QueryComponent, values[m])];
    }
  }

  lemma {:induction false} ValuesBytes(ps: seq<Pair>, k: string)
    requires AllBytes(ps)
    ensures forall v :: v in ValuesOf(ps, k) ==> IsBytes(v)
  {
    if ps != [] {
      assert PairBytes(ps[|ps| - 1]);
      ValuesBytes(ps[..|ps| - 1], k);
    }
  }

  lemma KeyBytes(ps: seq<Pair>, k: string)
    requires AllBytes(ps) && HasKey(ps, k)
    ensures IsBytes(k) && AllBytes(WithKey(k, Sort(Leq, ValuesOf(ps, k))))
  {
    var i :| 0 <= i < |ps| && ps[i].0 == k;
    assert PairBytes(ps[i]);
    ValuesBytes(ps, k);
    StringsOrdered();
    SortKeeps(Leq, ValuesOf(ps, k));
    var vs := Sort(Leq, ValuesOf(ps, k));
    forall j | 0 <= j < |vs| ensures IsBytes(vs[j]) {
      assert vs[j] in multiset(vs);
      assert vs[j] in ValuesOf(ps, k);
    }
  }
}
