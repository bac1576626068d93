/** The progress of all files together (downloader/multi.go, the closure given as OnProgress). */
module PrefixProgress {
  import opened Prelude
  import Listing
  import opened PrefixDownload
  import opened PrefixAccounting

  /** The highest value reported, starting from zero. */
  function Peak(reports: seq<int>): (m: int)
    ensures m >= 0 && (m == 0 || m in reports)
    ensures forall i :: 0 <= i < |reports| ==> reports[i] <= m
  {
    if reports == [] then 0
    else
      var m := Peak(reports[..|reports| - 1]);
      Max(m, reports[|reports| - 1])
  }

  predicate Credited(w: Worker)
  {
    (w.pc.Appending? || w.pc.Leaving? || w.pc.Exited?) && w.pc.out.Skipped?
  }

  function Credit(o: Listing.Object, w: Worker): int { if Credited(w) then o.size else 0 }

  /** What a file has put into the counter: its size once it was skipped, and what its calls added. */
  function Share(o: Listing.Object, w: Worker): int { Credit(o, w) + w.gained }

  /** What it should have put there: its size once it was skipped, else its highest report. */
  function Due(o: Listing.Object, w: Worker): int { Credit(o, w) + Peak(w.reports) }

  function Shares(os: seq<Listing.Object>, ws: seq<Worker>): (ds: seq<int>)
    requires |os| == |ws|
    ensures |ds| == |ws| && forall i :: 0 <= i < |ws| ==> ds[i] == Share(os[i], ws[i])
  {
    seq(|ws|, i requires 0 <= i < |ws| => Share(os[i], ws[i]))
  }

  function Dues(os: seq<Listing.Object>, ws: seq<Worker>): (ds: seq<int>)
    requires |os| == |ws|
    ensures |ds| == |ws| && forall i :: 0 <= i < |ws| ==> ds[i] == Due(os[i], ws[i])
  {
    seq(|ws|, i requires 0 <= i < |ws| => Due(os[i], ws[i]))
  }

  // ---- One file ----

  /** A pending call started from a value that has been counted. */
  predicate Based(w: Worker, c: Callback) { 0 <= c.v - c.delta <= w.gained }

  /** Some pending call carries v. */
  predicate Carried(pending: map<nat, Callback>, v: int) { exists g :: g in pending && pending[g].v == v }

  /** Of the reports none is forgotten: each is counted already, or its call is pending. */
  predicate Counted(w: Worker)
    requires w.pc.Downloading?
  {
    && 0 <= w.pc.last <= w.gained
    && (forall g :: g in w.pc.pending ==> Based(w, w.pc.pending[g]))
    && (forall r :: r in w.reports ==> r <= w.gained || Carried(w.pc.pending, r))
  }

  predicate InStep(w: Worker)
  {
    match w.pc
    case Idle => w.reports == [] && w.gained == 0
    case Statting => w.reports == [] && w.gained == 0
    case Crediting => w.reports == [] && w.gained == 0
    case Downloading(_, _) => Counted(w)
    case _ => (Credited(w) ==> w.reports == [] && w.gained == 0) && Peak(w.reports) <= w.gained
  }

  lemma PeakLonger(reports: seq<int>, v: int)
    ensures Peak(reports + [v]) == Max(Peak(reports), v)
  {
    assert (reports + [v])[..|reports|] == reports;
  }

  lemma ReportInStep(w: Worker, g: nat, v: int)
    requires Can(w, Report(g, v)) && InStep(w)
    ensures InStep(Moved(w, Report(g, v)))
  {
    var u := Moved(w, Report(g, v));
    forall r | r in u.reports ensures r <= u.gained || Carried(u.pc.pending, r) {
      if r == v {
        assert u.pc.pending[g].v == v;
      } else if r > w.gained {
        var h :| h in w.pc.pending && w.pc.pending[h].v == r;
        assert u.pc.pending[h].v == r;
      }
    }
  }

  lemma StoreInStep(w: Worker, g: nat)
    requires Can(w, Store(g)) && InStep(w)
    ensures InStep(Moved(w, Store(g)))
  {
    var u := Moved(w, Store(g));
    assert Based(w, w.pc.pending[g]);
    forall r | r in u.reports ensures r <= u.gained || Carried(u.pc.pending, r) {
      if r > u.gained {
        var h :| h in w.pc.pending && w.pc.pending[h].v == r;
        assert h != g && u.pc.pending[h].v == r;
      }
    }
  }

  lemma FinishInStep(w: Worker, ok: bool, bytes: int)
    requires Can(w, Finish(ok, bytes)) && InStep(w)
    ensures InStep(Moved(w, Finish(ok, bytes)))
  {
    assert !Carried(map[], Peak(w.reports));
  }

  lemma MovedShare(o: Listing.Object, w: Worker, act: Act)
    requires Can(w, act) && InStep(w)
    ensures InStep(Moved(w, act))
    ensures Share(o, Moved(w, act)) - Share(o, w)
            == (if act.Credit? then o.size else if act.Store? then Added(w.pc.pending[act.g].delta) else 0)
  {
    match act
    case Report(g, v) => ReportInStep(w, g, v);
    case Store(g) => StoreInStep(w, g);
    case Finish(ok, bytes) => FinishInStep(w, ok, bytes);
    case _ => assert Peak([]) == 0;
  }

  // ---- All files ----

  ghost predicate Aggregated(p: Params, s: State)
  {
    && |s.ws| == |p.objects|
    && s.global == Sum(Shares(p.objects, s.ws))
    && forall i :: 0 <= i < |s.ws| ==> InStep(s.ws[i])
  }

  lemma SharesUpdate(os: seq<Listing.Object>, ws: seq<Worker>, i: nat, w: Worker)
    requires |os| == |ws| && i < |ws|
    ensures Sum(Shares(os, ws[i := w])) == Sum(Shares(os, ws)) - Share(os[i], ws[i]) + Share(os[i], w)
  {
    SumUpdate(Shares(os, ws), i, Share(os[i], w));
    assert Shares(os, ws[i := w]) == Shares(os, ws)[i := Share(os[i], w)];
  }

  lemma AggregatedStep(p: Params, s: State, l: Label)
    requires Shape(p, s) && Aggregated(p, s) && Enabled(p, s, l)
    ensures Aggregated(p, Next(p, s, l))
  {
    match l
    case Work(i, act) =>
      MovedShare(p.objects[i], s.ws[i], act);
      SharesUpdate(p.objects, s.ws, i, Moved(s.ws[i], act));
    case Acquire =>
      assert InStep(s.ws[s.next]);
      assert Peak([]) == 0;
      SharesUpdate(p.objects, s.ws, s.next, FRESH);
    case _ =>
  }

  /** Along a run, with calls that overlap or not: the counter is the sum of the shares, and, sizes
      being what they are, it has not gone down, whatever went back inside a file. */
  lemma {:induction false} AggregatedFrom(p: Params, s: State, ls: seq<Label>)
    requires Shape(p, s) && Aggregated(p, s) && Follows(p, s, ls)
    requires forall i :: 0 <= i < |p.objects| ==> p.objects[i].size >= 0
    ensures Shape(p, After(p, s, ls)) && Aggregated(p, After(p, s, ls)) && After(p, s, ls).global >= s.global
    decreases |ls|
  {
    if ls != [] {
      ShapeStep(p, s, ls[0]);
      AggregatedStep(p, s, ls[0]);
      AggregatedFrom(p, Next(p, s, ls[0]), ls[1..]);
    }
  }

  /** No call is between computing and storing. */
  predicate Calm(s: State)
  {
    forall i :: 0 <= i < |s.ws| && s.ws[i].pc.Downloading? ==> s.ws[i].pc.pending == map[]
  }

  lemma ShareAgainstDue(o: Listing.Object, w: Worker)
    requires InStep(w) && (w.pc.Downloading? ==> w.pc.pending == map[])
    ensures Due(o, w) <= Share(o, w)
  {
    assert !Carried(map[], Peak(w.reports));
    assert Peak([]) == 0;
  }

  /** In every run, whenever no call is pending, globalBytesCounter is at least the sizes skipped plus
      each file's highest report, whatever the files reported and however the calls overlapped. */
  lemma NeverTooLow(p: Params, ls: seq<Label>)
    requires Follows(p, Init(p), ls) && Calm(After(p, Init(p), ls))
    requires forall i :: 0 <= i < |p.objects| ==> p.objects[i].size >= 0
    ensures var s := After(p, Init(p), ls);
            |s.ws| == |p.objects| && s.global >= Sum(Dues(p.objects, s.ws))
  {
    InvInit(p);
    SumConstant(Shares(p.objects, Init(p).ws), 0);
    AggregatedFrom(p, Init(p), ls);
    var s := After(p, Init(p), ls);
    var dues, shares := Dues(p.objects, s.ws), Shares(p.objects, s.ws);
    forall i | 0 <= i < |s.ws| ensures dues[i] <= shares[i] {
      ShareAgainstDue(p.objects[i], s.ws[i]);
    }
    SumCompare(dues, shares);
  }

  // ---- Calls that overlap ----

  /** Of two calls of which the second computes before the first stores, neither is lost: the counter
      gains what it should exactly when one of the two has nothing to add. */
  lemma OverlappingCallbacks(w: Worker, v: int, u: int)
    requires w.pc.Downloading? && w.pc.pending == map[]
    ensures var x := Moved(Moved(w, Report(0, v)), Report(1, u));
            var y := Moved(Moved(x, Store(0)), Store(1));
            y.gained - w.gained == Max(w.pc.last, Max(v, u)) - w.pc.last <==> v <= w.pc.last || u <= w.pc.last
  {
    var last := w.pc.last;
    var x := Moved(Moved(w, Report(0, v)), Report(1, u));
    assert x.pc.pending == map[0 := Callback(v, v - last), 1 := Callback(u, u - last)];
    assert Moved(x, Store(0)).pc.pending == map[1 := Callback(u, u - last)];
  }
}
