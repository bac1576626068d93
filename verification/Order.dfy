/** Sorting, and why what is sorted does not depend on the order it came in. */
module Order {

  ghost predicate TotalOrder<T(!new)>(leq: (T, T) -> bool)
  {
    && (forall a, b :: leq(a, b) || leq(b, a))
    && (forall a, b :: leq(a, b) && leq(b, a) ==> a == b)
    && (forall a, b, c :: leq(a, b) && leq(b, c) ==> leq(a, c))
  }

  predicate Sorted<T>(leq: (T, T) -> bool, s: seq<T>)
  {
    forall i, j :: 0 <= i < j < |s| ==> leq(s[i], s[j])
  }

  function Insert<T>(leq: (T, T) -> bool, x: T, s: seq<T>): seq<T>
  {
    if s == [] || leq(x, s[0]) then [x] + s else [s[0]] + Insert(leq, x, s[1..])
  }

  /** The sorted permutation; sort.Strings and any other correct sort compute this one. */
  function Sort<T>(leq: (T, T) -> bool, s: seq<T>): seq<T>
  {
    if s == [] then [] else Insert(leq, s[0], Sort(leq, s[1..]))
  }

  /** A sorted sequence begins with its least element. */
  lemma FirstIsLeast<T(!new)>(leq: (T, T) -> bool, s: seq<T>, x: T)
    requires TotalOrder(leq) && Sorted(leq, s) && x in multiset(s)
    ensures leq(s[0], x)
  {
    assert x in s;
    var i :| 0 <= i < |s| && s[i] == x;
    assert i > 0 ==> leq(s[0], s[i]);
  }

  lemma {:induction false} InsertCounts<T>(leq: (T, T) -> bool, x: T, s: seq<T>)
    ensures multiset(Insert(leq, x, s)) == multiset(s) + multiset{x}
  {
    if s != [] {
      assert s == [s[0]] + s[1..];
      if !leq(x, s[0]) { InsertCounts(leq, x, s[1..]); }
    }
  }

  lemma {:induction false} InsertSorts<T(!new)>(leq: (T, T) -> bool, x: T, s: seq<T>)
    requires TotalOrder(leq) && Sorted(leq, s)
    ensures Sorted(leq, Insert(leq, x, s))
  {
    if s != [] && !leq(x, s[0]) {
      InsertSorts(leq, x, s[1..]);
      InsertCounts(leq, x, s[1..]);
      var t := Insert(leq, x, s[1..]);
      forall j | 0 <= j < |t|
        ensures leq(s[0], t[j])
      {
        AtLeastFirst(leq, x, s, t, j);
      }
    }
  }

  lemma AtLeastFirst<T(!new)>(leq: (T, T) -> bool, x: T, s: seq<T>, t: seq<T>, j: nat)
    requires TotalOrder(leq) && Sorted(leq, s) && s != [] && leq(s[0], x)
    requires multiset(t) == multiset(s[1..]) + multiset{x} && j < |t|
    ensures leq(s[0], t[j])
  {
    assert t[j] in multiset(t);
    if t[j] != x {
      assert t[j] in s[1..];
      FirstIsLeast(leq, s, t[j]);
    }
  }

  lemma {:induction false} SortKeeps<T(!new)>(leq: (T, T) -> bool, s: seq<T>)
    requires TotalOrder(leq)
    ensures Sorted(leq, Sort(leq, s)) && multiset(Sort(leq, s)) == multiset(s)
  {
    if s != [] {
      SortKeeps(leq, s[1..]);
      InsertCounts(leq, s[0], Sort(leq, s[1..]));
      InsertSorts(leq, s[0], Sort(leq, s[1..]));
      assert s == [s[0]] + s[1..];
    }
  }

  lemma TailOf<T>(s: seq<T>)
    requires s != []
    ensures multiset(s[1..]) == multiset(s) - multiset{s[0]} && s[0] in multiset(s)
  {
    assert s == [s[0]] + s[1..];
  }

  /** There is only one sorted arrangement of the same elements. */
  lemma {:induction false} SortedUnique<T(!new)>(leq: (T, T) -> bool, s: seq<T>, t: seq<T>)
    requires TotalOrder(leq) && Sorted(leq, s) && Sorted(leq, t) && multiset(s) == multiset(t)
    ensures s == t
  {
    assert |multiset(s)| == |s| && |multiset(t)| == |t|;
    if s != [] {
      TailOf(s);
      TailOf(t);
      FirstIsLeast(leq, s, t[0]);
      FirstIsLeast(leq, t, s[0]);
      assert s[0] == t[0];
      SortedUnique(leq, s[1..], t[1..]);
      assert s == [s[0]] + s[1..] && t == [t[0]] + t[1..];
    }
  }

  /** Sorting forgets exactly the order. */
  lemma SortForgetsOrder<T(!new)>(leq: (T, T) -> bool, s: seq<T>, t: seq<T>)
    requires TotalOrder(leq)
    ensures Sort(leq, s) == Sort(leq, t) <==> multiset(s) == multiset(t)
  {
    SortKeeps(leq, s);
    SortKeeps(leq, t);
    if multiset(s) == multiset(t) {
      SortedUnique(leq, Sort(leq, s), Sort(leq, t));
    }
  }

  /** What is sorted stays as it is. */
  lemma SortSorted<T(!new)>(leq: (T, T) -> bool, s: seq<T>)
    requires TotalOrder(leq) && Sorted(leq, s)
    ensures Sort(leq, s) == s
  {
    SortKeeps(leq, s);
    SortedUnique(leq, Sort(leq, s), s);
  }

  // ---- Strings, in the order of their characters ----

  predicate Leq(a: string, b: string)
  {
    a == "" || (b != "" && (a[0] < b[0] || (a[0] == b[0] && Leq(a[1..], b[1..]))))
  }

  /** One string comes before another if it is the beginning of it, or has the smaller character where
      they first differ. */
  lemma {:induction false} LeqExactly(a: string, b: string)
    ensures Leq(a, b) <==> a <= b || exists i :: 0 <= i < |a| && i < |b| && a[..i] == b[..i] && a[i] < b[i]
  {
    if a != "" && b != "" && a[0] == b[0] {
      LeqExactly(a[1..], b[1..]);
      assert a == [a[0]] + a[1..] && b == [b[0]] + b[1..];
      if !(a <= b) && Leq(a, b) {
        var i :| 0 <= i < |a[1..]| && i < |b[1..]| && a[1..][..i] == b[1..][..i] && a[1..][i] < b[1..][i];
        assert a[..i + 1] == [a[0]] + a[1..][..i] == b[..i + 1];
      }
      if i :| 0 <= i < |a| && i < |b| && a[..i] == b[..i] && a[i] < b[i] {
        assert a[1..][..i - 1] == a[..i][1..] == b[1..][..i - 1];
      }
    } else if a != "" && b != "" {
      assert a[..0] == b[..0];
      if i :| 0 <= i < |a| && i < |b| && a[..i] == b[..i] && a[i] < b[i] {
        assert i > 0 ==> a[0] == a[..i][0];
      }
    }
  }

  lemma {:induction false} LeqTotal(a: string, b: string)
    ensures Leq(a, b) || Leq(b, a)
    ensures Leq(a, b) && Leq(b, a) ==> a == b
  {
    if a != "" && b != "" && a[0] == b[0] {
      LeqTotal(a[1..], b[1..]);
      assert a == [a[0]] + a[1..] && b == [b[0]] + b[1..];
    }
  }

  lemma {:induction false} LeqTransitive(a: string, b: string, c: string)
    requires Leq(a, b) && Leq(b, c)
    ensures Leq(a, c)
  {
    if a != "" && a[0] == b[0] == c[0] { LeqTransitive(a[1..], b[1..], c[1..]); }
  }

  lemma StringsOrdered()
    ensures TotalOrder(Leq)
  {
    forall a, b ensures Leq(a, b) || Leq(b, a) { LeqTotal(a, b); }
    forall a, b | Leq(a, b) && Leq(b, a) ensures a == b { LeqTotal(a, b); }
    forall a, b, c | Leq(a, b) && Leq(b, c) ensures Leq(a, c) { LeqTransitive(a, b, c); }
  }

  // ---- Pairs, by the first string and then the second ----

  type Pair = (string, string)

  predicate PairLeq(x: Pair, y: Pair)
  {
    if x.0 == y.0 then Leq(x.1, y.1) else Leq(x.0, y.0)
  }

  lemma PairsOrdered()
    ensures TotalOrder(PairLeq)
  {
    StringsOrdered();
    forall a: Pair, b: Pair ensures PairLeq(a, b) || PairLeq(b, a) {
      LeqTotal(a.0, b.0);
      LeqTotal(a.1, b.1);
    }
    forall a: Pair, b: Pair | PairLeq(a, b) && PairLeq(b, a) ensures a == b {
      LeqTotal(a.0, b.0);
      LeqTotal(a.1, b.1);
    }
    forall a: Pair, b: Pair, c: Pair | PairLeq(a, b) && PairLeq(b, c) ensures PairLeq(a, c) {
      PairTransitive(a, b, c);
    }
  }

  lemma PairTransitive(a: Pair, b: Pair, c: Pair)
    requires PairLeq(a, b) && PairLeq(b, c)
    ensures PairLeq(a, c)
  {
    if a.0 == b.0 == c.0 {
      LeqTransitive(a.1, b.1, c.1);
    } else if a.0 != b.0 && b.0 != c.0 {
      LeqTransitive(a.0, b.0, c.0);
      LeqTotal(a.0, b.0);
    }
  }
}
