/** Small shared vocabulary: optional values, bytes, and sums over sequences. */
module Prelude {

  newtype byte = b: int | 0 <= b < 256

  datatype Option<+T> = None | Some(value: T)

  function Min(a: int, b: int): int { if a <= b then a else b }

  function Max(a: int, b: int): int { if a <= b then b else a }

  function Sum(s: seq<int>): int
  {
    if s == [] then 0 else s[0] + Sum(s[1..])
  }

  lemma {:induction false} SumUpdate(s: seq<int>, i: nat, v: int)
    requires i < |s|
    ensures Sum(s[i := v]) == Sum(s) - s[i] + v
  {
    if i == 0 {
      assert s[0 := v][1..] == s[1..];
    } else {
      assert s[i := v][1..] == s[1..][i - 1 := v];
      SumUpdate(s[1..], i - 1, v);
    }
  }

  lemma {:induction false} SumAppend(s: seq<int>, t: seq<int>)
    ensures Sum(s + t) == Sum(s) + Sum(t)
  {
    if s == [] {
      assert s + t == t;
    } else {
      assert (s + t)[1..] == s[1..] + t;
      SumAppend(s[1..], t);
    }
  }

  /** Termwise comparison: sums compare, and they agree only when every term does. */
  lemma {:induction false} SumCompare(s: seq<int>, t: seq<int>)
    requires |s| == |t|
    requires forall i :: 0 <= i < |s| ==> s[i] <= t[i]
    ensures Sum(s) <= Sum(t)
    ensures Sum(s) == Sum(t) <==> s == t
  {
    if s != [] {
      SumCompare(s[1..], t[1..]);
      assert s == [s[0]] + s[1..] && t == [t[0]] + t[1..];
    }
  }

  lemma {:induction false} SumConstant(s: seq<int>, v: int)
    requires forall i :: 0 <= i < |s| ==> s[i] == v
    ensures Sum(s) == |s| * v
  {
    if s != [] {
      SumConstant(s[1..], v);
      assert (|s| - 1) * v + v == |s| * v;
    }
  }

  // ---- Sums of a quantity over the entries of a table ----

  function Terms<T>(f: T -> int, ws: seq<T>): (ts: seq<int>)
    ensures |ts| == |ws| && forall i :: 0 <= i < |ws| ==> ts[i] == f(ws[i])
  {
    seq(|ws|, i requires 0 <= i < |ws| => f(ws[i]))
  }

  /** The sum of f over the entries. */
  function Tally<T>(f: T -> int, ws: seq<T>): int { Sum(Terms(f, ws)) }

  lemma TallyUpdate<T>(f: T -> int, ws: seq<T>, i: nat, w: T)
    requires i < |ws|
    ensures Tally(f, ws[i := w]) == Tally(f, ws) - f(ws[i]) + f(w)
  {
    assert Terms(f, ws[i := w]) == Terms(f, ws)[i := f(w)];
    SumUpdate(Terms(f, ws), i, f(w));
  }

  lemma TallyAppend<T>(f: T -> int, ws: seq<T>, w: T)
    ensures Tally(f, ws + [w]) == Tally(f, ws) + f(w)
  {
    assert Terms(f, ws + [w]) == Terms(f, ws) + [f(w)];
    SumAppend(Terms(f, ws), [f(w)]);
    SumConstant([f(w)], f(w));
  }

  lemma TallyConstant<T>(f: T -> int, ws: seq<T>, v: int)
    requires forall i :: 0 <= i < |ws| ==> f(ws[i]) == v
    ensures Tally(f, ws) == |ws| * v
  {
    SumConstant(Terms(f, ws), v);
  }

  lemma TallyCompare<T>(f: T -> int, g: T -> int, ws: seq<T>)
    requires forall i :: 0 <= i < |ws| ==> f(ws[i]) <= g(ws[i])
    ensures Tally(f, ws) <= Tally(g, ws)
  {
    SumCompare(Terms(f, ws), Terms(g, ws));
  }

  lemma {:induction false} SumSplit(a: seq<int>, b: seq<int>, c: seq<int>)
    requires |a| == |b| == |c| && forall i :: 0 <= i < |a| ==> c[i] == a[i] + b[i]
    ensures Sum(c) == Sum(a) + Sum(b)
  {
    if a != [] { SumSplit(a[1..], b[1..], c[1..]); }
  }

  lemma TallySplit<T>(f: T -> int, g: T -> int, h: T -> int, ws: seq<T>)
    requires forall i :: 0 <= i < |ws| ==> h(ws[i]) == f(ws[i]) + g(ws[i])
    ensures Tally(h, ws) == Tally(f, ws) + Tally(g, ws)
  {
    SumSplit(Terms(f, ws), Terms(g, ws), Terms(h, ws));
  }
}
