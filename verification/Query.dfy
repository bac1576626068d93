/** Query strings: parsing as net/url does it, and the canonical form the signature is over
    (downloader/signer.go, getCanonicalQueryString). */
module Query {
  import opened Strings
  import opened Order
  import opened Escaping

  predicate PairBytes(p: Pair) { IsBytes(p.0) && IsBytes(p.1) }

  predicate AllBytes(ps: seq<Pair>) { forall i :: 0 <= i < |ps| ==> PairBytes(ps[i]) }

  /** strings.Cut at the first equals sign; without one the whole is the key. */
  function Cut(part: string): Pair
  {
    if part == "" then ("", "")
    else if part[0] == '=' then ("", part[1..])
    else var rest := Cut(part[1..]); ([part[0]] + rest.0, rest.1)
  }

  /** One parameter of a query.  Empty ones, ones with a semicolon and ones with an invalid escape
      are dropped. */
  function ParsePart(part: string): seq<Pair>
  {
    if part == "" || ';' in part then []
    else
      var kv := Cut(part);
      var k, v := Unescape(QueryComponent, kv.0), Unescape(QueryComponent, kv.1);
      if k.None? || v.None? then [] else [(k.value, v.value)]
  }

  function Collect(parts: seq<string>): seq<Pair>
  {
    if parts == [] then [] else ParsePart(parts[0]) + Collect(parts[1..])
  }

  /** The parameters of a raw query, in order. */
  function ParsePairs(raw: string): seq<Pair> { Collect(Split(raw, '&')) }

  function RenderPair(p: Pair): string
    requires PairBytes(p)
  {
    Escape(QueryComponent, p.0) + "=" + Escape(QueryComponent, p.1)
  }

  function RenderEach(ps: seq<Pair>): (parts: seq<string>)
    requires AllBytes(ps)
    ensures |parts| == |ps| && forall i :: 0 <= i < |ps| ==> parts[i] == RenderPair(ps[i])
  {
    seq(|ps|, i requires 0 <= i < |ps| => RenderPair(ps[i]))
  }

  function Render(ps: seq<Pair>): string
    requires AllBytes(ps)
  {
    Join(RenderEach(ps), "&")
  }

  // ---- Parsing stays within bytes ----

  lemma {:induction false} UnescapeBytes(mode: Mode, s: string)
    requires IsBytes(s)
    ensures Unescape(mode, s).Some? ==> IsBytes(Unescape(mode, s).value)
  {
    if s != "" {
      if s[0] == '%' {
        if |s| >= 3 { UnescapeBytes(mode, s[3..]); }
      } else {
        UnescapeBytes(mode, s[1..]);
      }
    }
  }

  lemma {:induction false} CutBytes(part: string)
    requires IsBytes(part)
    ensures PairBytes(Cut(part))
  {
    if part != "" && part[0] != '=' { CutBytes(part[1..]); }
  }

  lemma PartBytes(part: string)
    requires IsBytes(part)
    ensures AllBytes(ParsePart(part))
  {
    CutBytes(part);
    UnescapeBytes(QueryComponent, Cut(part).0);
    UnescapeBytes(QueryComponent, Cut(part).1);
  }

  lemma {:induction false} CollectBytes(parts: seq<string>)
    requires forall i :: 0 <= i < |parts| ==> IsBytes(parts[i])
    ensures AllBytes(Collect(parts))
  {
    if parts != [] {
      PartBytes(parts[0]);
      CollectBytes(parts[1..]);
    }
  }

  lemma ParseBytes(raw: string)
    requires IsBytes(raw)
    ensures AllBytes(ParsePairs(raw))
  {
    SplitBytes(raw, '&');
    CollectBytes(Split(raw, '&'));
  }

  // ---- Parsing undoes rendering ----

  lemma {:induction false} CutFirst(k: string, v: string)
    requires Free(k, '=')
    ensures Cut(k + "=" + v) == (k, v)
  {
    var s := k + "=" + v;
    if k == "" {
      assert s[0] == '=' && s[1..] == v;
    } else {
      assert s[0] == k[0] && s[1..] == k[1..] + "=" + v;
      assert Free(k[1..], '=') by { forall c | c in k[1..] ensures c in k { } }
      CutFirst(k[1..], v);
      assert k == [k[0]] + k[1..];
    }
  }

  lemma RenderedPart(p: Pair)
    requires PairBytes(p)
    ensures ParsePart(RenderPair(p)) == [p] && Free(RenderPair(p), '&') && RenderPair(p) != ""
  {
    var k, v := Escape(QueryComponent, p.0), Escape(QueryComponent, p.1);
    EscapeAlphabet(QueryComponent, p.0, '=');
    EscapeAlphabet(QueryComponent, p.0, '&');
    EscapeAlphabet(QueryComponent, p.1, '&');
    EscapeAlphabet(QueryComponent, p.0, ';');
    EscapeAlphabet(QueryComponent, p.1, ';');
    CutFirst(k, v);
    RoundTrip(QueryComponent, p.0);
    RoundTrip(QueryComponent, p.1);
  }

  lemma {:induction false} CollectRendered(ps: seq<Pair>)
    requires AllBytes(ps)
    ensures Collect(RenderEach(ps)) == ps && AllFree(RenderEach(ps), '&')
  {
    if ps != [] {
      RenderedPart(ps[0]);
      CollectRendered(ps[1..]);
      assert RenderEach(ps) == [RenderPair(ps[0])] + RenderEach(ps[1..]);
      assert ps == [ps[0]] + ps[1..];
    }
  }

  lemma ParseRender(ps: seq<Pair>)
    requires AllBytes(ps)
    ensures ParsePairs(Render(ps)) == ps
  {
    CollectRendered(ps);
    if ps == [] {
      assert Split("", '&') == [""] && Collect([""]) == [];
    } else {
      SplitJoin(RenderEach(ps), '&');
    }
  }

  // ---- What a part of a raw query parses to ----

  /** A part without escapes is cut at its first equals sign; one without an equals sign is a key. */
  lemma PlainPart(k: string, v: string)
    requires k != "" && Free(k, '=') && Free(k, ';') && Free(v, ';')
    requires Free(k, '%') && Free(v, '%') && Free(k, '+') && Free(v, '+')
    ensures ParsePart(k + "=" + v) == [(k, v)] && ParsePart(k) == [(k, "")]
  {
    CutFirst(k, v);
    CutNone(k);
    Literal(k);
    Literal(v);
  }

  lemma {:induction false} CutNone(k: string)
    requires Free(k, '=')
    ensures Cut(k) == (k, "")
  {
    if k != "" {
      assert Free(k[1..], '=') by { forall c | c in k[1..] ensures c in k { } }
      CutNone(k[1..]);
      assert k == [k[0]] + k[1..];
    }
  }

  lemma {:induction false} Literal(s: string)
    requires forall i :: 0 <= i < |s| ==> s[i] != '%' && s[i] != '+'
    ensures Unescape(QueryComponent, s).Some? && Unescape(QueryComponent, s).value == s
  {
    if s != "" {
      Literal(s[1..]);
      assert s == [s[0]] + s[1..];
    }
  }

  /** Empty parts, and parts with a semicolon, are as if they were not there. */
  lemma DroppedPart(a: string, part: string, b: string)
    requires Free(part, '&') && (part == "" || ';' in part)
    ensures ParsePairs(a + ['&'] + (part + ['&'] + b)) == ParsePairs(a) + ParsePairs(b)
  {
    SplitAppend(a, part + ['&'] + b, '&');
    SplitAppend(part, b, '&');
    SplitFree(part, '&');
    CollectAppend(Split(a, '&'), [part] + Split(b, '&'));
    CollectAppend([part], Split(b, '&'));
    CollectOne(part);
  }

  // ---- The canonical form ----

  lemma SortedBytes(ps: seq<Pair>)
    requires AllBytes(ps)
    ensures AllBytes(Sort(PairLeq, ps))
  {
    PairsOrdered();
    SortKeeps(PairLeq, ps);
    var qs := Sort(PairLeq, ps);
    forall i | 0 <= i < |qs| ensures PairBytes(qs[i]) {
      assert qs[i] in multiset(qs);
      assert qs[i] in ps;
    }
  }

  lemma {:induction false} EscapeBytes(mode: Mode, s: string)
    requires IsBytes(s)
    ensures IsBytes(Escape(mode, s))
  {
    if s != "" { EscapeBytes(mode, s[1..]); }
  }

  lemma {:induction false} RenderBytes(ps: seq<Pair>)
    requires AllBytes(ps)
    ensures IsBytes(Render(ps))
  {
    if ps != [] {
      EscapeBytes(QueryComponent, ps[0].0);
      EscapeBytes(QueryComponent, ps[0].1);
      RenderBytes(ps[1..]);
      assert RenderEach(ps)[1..] == RenderEach(ps[1..]);
    }
  }

  /** The parameters sorted by key and then by value, escaped again. */
  function Canonical(raw: string): (canonical: string)
    requires IsBytes(raw)
    ensures IsBytes(canonical)
  {
    ParseBytes(raw);
    SortedBytes(ParsePairs(raw));
    RenderBytes(Sort(PairLeq, ParsePairs(raw)));
    Render(Sort(PairLeq, ParsePairs(raw)))
  }

  /** Parsing the canonical form gives the sorted parameters. */
  lemma ParseCanonical(raw: string)
    requires IsBytes(raw)
    ensures ParsePairs(Canonical(raw)) == Sort(PairLeq, ParsePairs(raw))
  {
    ParseBytes(raw);
    SortedBytes(ParsePairs(raw));
    ParseRender(Sort(PairLeq, ParsePairs(raw)));
  }

  /** Two queries have one canonical form exactly when they have the same parameters, each as often. */
  lemma CanonicalExact(a: string, b: string)
    requires IsBytes(a) && IsBytes(b)
    ensures Canonical(a) == Canonical(b) <==> multiset(ParsePairs(a)) == multiset(ParsePairs(b))
  {
    PairsOrdered();
    SortForgetsOrder(PairLeq, ParsePairs(a), ParsePairs(b));
    ParseCanonical(a);
    ParseCanonical(b);
  }

  /** Canonicalising what is canonical changes nothing. */
  lemma CanonicalIdempotent(raw: string)
    requires IsBytes(raw)
    ensures Canonical(Canonical(raw)) == Canonical(raw)
  {
    PairsOrdered();
    ParseCanonical(raw);
    SortKeeps(PairLeq, ParsePairs(raw));
    CanonicalExact(Canonical(raw), raw);
  }

  // ---- Reordering the raw parameters ----

  lemma {:induction false} CollectAppend(a: seq<string>, b: seq<string>)
    ensures Collect(a + b) == Collect(a) + Collect(b)
  {
    if a == [] {
      assert a + b == b;
    } else {
      assert (a + b)[1..] == a[1..] + b;
      CollectAppend(a[1..], b);
    }
  }

  lemma Without<T>(b: seq<T>, j: nat)
    requires j < |b|
    ensures multiset(b[..j] + b[j + 1..]) == multiset(b) - multiset{b[j]}
  {
    assert b == b[..j] + [b[j]] + b[j + 1..];
  }

  lemma CollectOne(part: string)
    ensures Collect([part]) == ParsePart(part)
  {
    assert [part][1..] == [];
  }

  lemma MiddleOut<T>(front: seq<T>, x: seq<T>, back: seq<T>)
    ensures multiset(front + (x + back)) == multiset(x) + multiset(front + back)
  {
  }

  lemma CollectThree(front: seq<string>, one: seq<string>, back: seq<string>)
    ensures Collect(front + (one + back)) == Collect(front) + (Collect(one) + Collect(back))
  {
    CollectAppend(front, one + back);
    CollectAppend(one, back);
  }

  lemma CutAt<T>(b: seq<T>, j: nat)
    requires j < |b|
    ensures b == b[..j] + ([b[j]] + b[j + 1..])
  {
  }

  lemma CollectSplit(b: seq<string>, j: nat)
    requires j < |b|
    ensures Collect(b) == Collect(b[..j]) + (ParsePart(b[j]) + Collect(b[j + 1..]))
    ensures Collect(b[..j] + b[j + 1..]) == Collect(b[..j]) + Collect(b[j + 1..])
  {
    CutAt(b, j);
    CollectThree(b[..j], [b[j]], b[j + 1..]);
    CollectOne(b[j]);
    CollectAppend(b[..j], b[j + 1..]);
  }

  lemma CollectAround(b: seq<string>, j: nat)
    requires j < |b|
    ensures multiset(Collect(b)) == multiset(ParsePart(b[j])) + multiset(Collect(b[..j] + b[j + 1..]))
  {
    CollectSplit(b, j);
    MiddleOut(Collect(b[..j]), ParsePart(b[j]), Collect(b[j + 1..]));
  }

  lemma {:induction false} CollectPermuted(a: seq<string>, b: seq<string>)
    requires multiset(a) == multiset(b)
    ensures multiset(Collect(a)) == multiset(Collect(b))
  {
    assert |multiset(a)| == |a| && |multiset(b)| == |b|;
    if a != [] {
      TailOf(a);
      assert a[0] in b;
      var j :| 0 <= j < |b| && b[j] == a[0];
      Without(b, j);
      CollectPermuted(a[1..], b[..j] + b[j + 1..]);
      CollectAround(b, j);
    }
  }

  /** The canonical form does not depend on the order of the parameters. */
  lemma OrderDoesNotMatter(a: string, b: string)
    requires IsBytes(a) && IsBytes(b) && multiset(Split(a, '&')) == multiset(Split(b, '&'))
    ensures Canonical(a) == Canonical(b)
  {
    CollectPermuted(Split(a, '&'), Split(b, '&'));
    CanonicalExact(a, b);
  }

  // ---- The code's way: group by key, sort the keys, sort each key's values ----

  function ValuesOf(ps: seq<Pair>, k: string): seq<string>
  {
    if ps == [] then []
    else ValuesOf(ps[..|ps| - 1], k) + (if ps[|ps| - 1].0 == k then [ps[|ps| - 1].1] else [])
  }

  predicate HasKey(ps: seq<Pair>, k: string) { exists i :: 0 <= i < |ps| && ps[i].0 == k }

  function WithKey(k: string, vs: seq<string>): (ps: seq<Pair>)
    ensures |ps| == |vs| && forall i :: 0 <= i < |vs| ==> ps[i] == (k, vs[i])
  {
    seq(|vs|, i requires 0 <= i < |vs| => (k, vs[i]))
  }

  /** The parameters key by key, in the order of the keys given, each key's values sorted. */
  function Grouped(keys: seq<string>, ps: seq<Pair>): seq<Pair>
  {
    if keys == [] then []
    else Grouped(keys[..|keys| - 1], ps) + WithKey(keys[|keys| - 1], Sort(Leq, ValuesOf(ps, keys[|keys| - 1])))
  }

  predicate Distinct(keys: seq<string>)
  {
    forall i, j :: 0 <= i < j < |keys| ==> keys[i] != keys[j]
  }

  lemma {:induction false} GroupedKeys(keys: seq<string>, ps: seq<Pair>)
    ensures forall i :: 0 <= i < |Grouped(keys, ps)| ==> Grouped(keys, ps)[i].0 in keys
  {
    if keys != [] { GroupedKeys(keys[..|keys| - 1], ps); }
  }

  lemma WithKeySorted(k: string, vs: seq<string>)
    requires Sorted(Leq, vs)
    ensures Sorted(PairLeq, WithKey(k, vs))
  {
  }

  /** Pairs whose keys come earlier go before pairs with a later key. */
  lemma BeforeKey(keys: seq<string>, front: seq<Pair>, k: string, vs: seq<string>)
    requires Sorted(Leq, keys + [k]) && Distinct(keys + [k])
    requires forall i :: 0 <= i < |front| ==> front[i].0 in keys
    requires Sorted(PairLeq, front) && Sorted(PairLeq, WithKey(k, vs))
    ensures Sorted(PairLeq, front + WithKey(k, vs))
  {
    var ks, back := keys + [k], WithKey(k, vs);
    forall i, j | 0 <= i < |front| && 0 <= j < |back|
      ensures PairLeq(front[i], back[j])
    {
      var m :| 0 <= m < |keys| && keys[m] == front[i].0;
      assert ks[m] == keys[m] && ks[|keys|] == k;
    }
  }

  lemma {:induction false} GroupedSorted(keys: seq<string>, ps: seq<Pair>)
    requires Sorted(Leq, keys) && Distinct(keys)
    ensures Sorted(PairLeq, Grouped(keys, ps))
  {
    if keys != [] {
      var n := |keys| - 1;
      var vs := Sort(Leq, ValuesOf(ps, keys[n]));
      GroupedSorted(keys[..n], ps);
      GroupedKeys(keys[..n], ps);
      StringsOrdered();
      SortKeeps(Leq, ValuesOf(ps, keys[n]));
      WithKeySorted(keys[n], vs);
      assert keys[..n] + [keys[n]] == keys;
      BeforeKey(keys[..n], Grouped(keys[..n], ps), keys[n], vs);
    }
  }

  lemma CountAtEnd<T>(s: seq<T>, y: T)
    requires s != []
    ensures multiset(s)[y] == multiset(s[..|s| - 1])[y] + if y == s[|s| - 1] then 1 else 0
  {
    assert s == s[..|s| - 1] + [s[|s| - 1]];
  }

  lemma {:induction false} CountOf(ps: seq<Pair>, k: string, v: string)
    ensures multiset(ValuesOf(ps, k))[v] == multiset(ps)[(k, v)]
  {
    if ps != [] {
      var n := |ps| - 1;
      CountOf(ps[..n], k, v);
      CountAtEnd(ps, (k, v));
      if ps[n].0 == k {
        assert ValuesOf(ps, k)[..|ValuesOf(ps[..n], k)|] == ValuesOf(ps[..n], k);
        CountAtEnd(ValuesOf(ps, k), v);
      } else {
        assert ValuesOf(ps, k) == ValuesOf(ps[..n], k);
      }
    }
  }

  lemma CountFirst<T>(s: seq<T>, y: T)
    requires s != []
    ensures multiset(s)[y] == (if y == s[0] then 1 else 0) + multiset(s[1..])[y]
  {
    assert s == [s[0]] + s[1..];
  }

  lemma {:induction false} CountWithKey(k: string, vs: seq<string>, p: Pair)
    ensures multiset(WithKey(k, vs))[p] == if p.0 == k then multiset(vs)[p.1] else 0
  {
    if vs == [] {
      assert WithKey(k, vs) == [];
    } else {
      CountWithKey(k, vs[1..], p);
      assert WithKey(k, vs)[1..] == WithKey(k, vs[1..]);
      CountFirst(WithKey(k, vs), p);
      CountFirst(vs, p.1);
    }
  }

  lemma {:induction false} CountGrouped(keys: seq<string>, ps: seq<Pair>, p: Pair)
    requires Distinct(keys)
    ensures multiset(Grouped(keys, ps))[p] == if p.0 in keys then multiset(ps)[p] else 0
  {
    if keys != [] {
      var n := |keys| - 1;
      var vs := ValuesOf(ps, keys[n]);
      CountGrouped(keys[..n], ps, p);
      CountWithKey(keys[n], Sort(Leq, vs), p);
      StringsOrdered();
      SortKeeps(Leq, vs);
      CountOf(ps, keys[n], p.1);
      assert keys == keys[..n] + [keys[n]];
      assert p.0 in keys <==> p.0 in keys[..n] || p.0 == keys[n];
    }
  }

  /** The code's way gives the sorted parameters. */
  lemma GroupedIsSort(keys: seq<string>, ps: seq<Pair>)
    requires Sorted(Leq, keys) && Distinct(keys) && forall i :: 0 <= i < |ps| ==> ps[i].0 in keys
    ensures Grouped(keys, ps) == Sort(PairLeq, ps)
  {
    PairsOrdered();
    SortKeeps(PairLeq, ps);
    GroupedSorted(keys, ps);
    forall p ensures multiset(Grouped(keys, ps))[p] == multiset(ps)[p] {
      CountGrouped(keys, ps, p);
      if p in multiset(ps) { assert p in ps; }
    }
    assert multiset(Grouped(keys, ps)) == multiset(ps);
    SortedUnique(PairLeq, Grouped(keys, ps), Sort(PairLeq, ps));
  }
}
