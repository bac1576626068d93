/**
  The progress of a prefix download with the downloads that report it (downloader/multi.go and
  countingReader.Read in downloader/downloader.go), as one system.  A goroutine that has read and
  counted a buffer owes its file's closure a call with the counter it got back, and does nothing else
  until that call has computed its delta and stored it; other goroutines of the file may call meanwhile.
 */
module Reporting {
  import opened Prelude
  import Listing
  import P = PrefixDownload
  import A = PrefixAccounting
  import G = PrefixProgress
  import T = Transfer
  import I = TransferInvariants
  import C = TransferContent
  import O = TransferProgress
  import X = TransferWitnesses

  /** owed gives, for each file, the goroutines that have read and not yet called, with the value
      they call with. */
  datatype Whole = Whole(s: P.State, files: seq<T.State>, owed: seq<map<nat, int>>)

  datatype Event = Outer(l: P.Label) | Inner(i: nat, step: T.Label)

  /** One setting for each listed object. */
  predicate Fits(p: P.Params, cfg: seq<T.Params>)
  {
    |cfg| == |p.objects| && forall i :: 0 <= i < |cfg| ==> cfg[i].Valid()
  }

  predicate Sized(p: P.Params, cfg: seq<T.Params>, w: Whole)
  {
    Fits(p, cfg) && |w.files| == |w.owed| == |w.s.ws| == |p.objects|
  }

  /** The goroutine has a call to make, or is in one. */
  predicate Busy(w: Whole, i: nat, g: nat)
    requires i < |w.owed| == |w.s.ws|
  {
    g in w.owed[i] || (w.s.ws[i].pc.Downloading? && g in w.s.ws[i].pc.pending)
  }

  /** A call comes from a goroutine that owes it, with the value owed; a file's goroutine goes on once
      its download has ended, with that result. */
  predicate Called(w: Whole, l: P.Label)
    requires |w.files| == |w.owed|
  {
    l.Work? && l.i < |w.owed| ==>
      match l.act
      case Report(g, v) => g in w.owed[l.i] && w.owed[l.i][g] == v
      case Finish(ok, _) => w.files[l.i].phase.Ended? && ok == w.files[l.i].phase.outcome.Success?
      case _ => true
  }

  predicate Can(p: P.Params, cfg: seq<T.Params>, w: Whole, e: Event)
  {
    && Sized(p, cfg, w)
    && match e
       case Outer(l) => P.Enabled(p, w.s, l) && Called(w, l)
       case Inner(i, l) =>
         && i < |w.files| && w.s.ws[i].pc.Downloading? && T.Enabled(cfg[i], w.files[i], l)
         && (l.Work? ==> !Busy(w, i, l.i))
  }

  function Owes(owed: map<nat, int>, g: nat, v: int): map<nat, int> { owed[g := v] }

  function Next(p: P.Params, cfg: seq<T.Params>, w: Whole, e: Event): Whole
    requires Can(p, cfg, w, e)
  {
    match e
    case Outer(l) =>
      w.(s := P.Next(p, w.s, l),
         owed := if l.Work? && l.act.Report? then w.owed[l.i := w.owed[l.i] - {l.act.g}] else w.owed)
    case Inner(i, l) =>
      var t := T.Next(cfg[i], w.files[i], l);
      w.(files := w.files[i := t],
         owed := if l.Work? && l.act.Read? then w.owed[i := Owes(w.owed[i], l.i, t.counter)] else w.owed)
  }

  predicate Follows(p: P.Params, cfg: seq<T.Params>, w: Whole, es: seq<Event>)
    decreases |es|
  {
    es != [] ==> Can(p, cfg, w, es[0]) && Follows(p, cfg, Next(p, cfg, w, es[0]), es[1..])
  }

  function After(p: P.Params, cfg: seq<T.Params>, w: Whole, es: seq<Event>): Whole
    requires Follows(p, cfg, w, es)
    decreases |es|
  {
    if es == [] then w else After(p, cfg, Next(p, cfg, w, es[0]), es[1..])
  }

  /** What earlier runs left at a file's two paths. */
  datatype Left = Left(tmp: Option<seq<byte>>, dst: Option<seq<byte>>)

  function Opening(p: P.Params, cfg: seq<T.Params>, left: seq<Left>): (w: Whole)
    requires Fits(p, cfg) && |left| == |cfg|
    ensures Sized(p, cfg, w) && w.s == P.Init(p)
    ensures forall i :: 0 <= i < |cfg| ==>
              w.files[i] == T.Init(cfg[i], left[i].tmp, left[i].dst) && w.owed[i] == map[]
  {
    Whole(P.Init(p),
          seq(|cfg|, i requires 0 <= i < |cfg| => T.Init(cfg[i], left[i].tmp, left[i].dst)),
          seq(|cfg|, _ => map[]))
  }

  /** No call is owed or under way. */
  predicate Calm(w: Whole)
  {
    G.Calm(w.s) && forall i :: 0 <= i < |w.owed| ==> w.owed[i] == map[]
  }

  // ---- One attempt at a time ----

  /** The file's attempts never overlap. */
  predicate OneByOne(c: T.Params) { c.concurrency == 1 || c.Single() }

  /** What was added is the highest value the closure was called with, but for the one call under way. */
  predicate InTurn(w: P.Worker)
    requires w.pc.Downloading?
  {
    && w.gained == w.pc.last
    && (w.pc.pending == map[] ==> w.pc.last == G.Peak(w.reports))
    && (forall g :: g in w.pc.pending ==>
          w.pc.pending[g].delta == w.pc.pending[g].v - w.pc.last
          && G.Peak(w.reports) == Max(w.pc.last, w.pc.pending[g].v))
    && (forall g, h :: g in w.pc.pending && h in w.pc.pending ==> g == h)
  }

  /** Only a goroutine that holds a buffer owes a call. */
  predicate Owing(f: T.State, owed: map<nat, int>)
  {
    forall g :: g in owed ==> g < |f.ws| && f.ws[g].pc.Holding?
  }

  predicate Calling(f: T.State, owed: map<nat, int>, pending: map<nat, P.Callback>)
  {
    forall g :: g in pending ==> g < |f.ws| && f.ws[g].pc.Holding? && g !in owed
  }

  ghost predicate FileOk(c: T.Params, f: T.State, owed: map<nat, int>, w: P.Worker)
    requires c.Valid()
  {
    && I.Shape(c, f) && Owing(f, owed)
    && match w.pc
       case Downloading(_, pending) => Calling(f, owed, pending) && InTurn(w)
       case Idle => owed == map[] && w.gained == 0 && w.reports == []
       case Statting => owed == map[] && w.gained == 0 && w.reports == []
       case _ => owed == map[] && w.gained == G.Peak(w.reports)
  }

  lemma OneHolds(c: T.Params, f: T.State, g: nat, h: nat)
    requires c.Valid() && OneByOne(c) && I.Shape(c, f)
    requires g < |f.ws| && h < |f.ws| && f.ws[g].pc.Holding? && f.ws[h].pc.Holding?
    ensures g == h
  {
    O.OneSlot(c, f);
  }

  lemma ReportOk(c: T.Params, f: T.State, owed: map<nat, int>, w: P.Worker, g: nat, v: int)
    requires c.Valid() && OneByOne(c) && FileOk(c, f, owed, w) && P.Can(w, P.Report(g, v)) && g in owed
    ensures FileOk(c, f, owed - {g}, P.Moved(w, P.Report(g, v)))
  {
    if h :| h in w.pc.pending {
      OneHolds(c, f, g, h);
      assert false;
    }
    assert w.pc.pending == map[];
    G.PeakLonger(w.reports, v);
  }

  lemma StoreOk(c: T.Params, f: T.State, owed: map<nat, int>, w: P.Worker, g: nat)
    requires c.Valid() && FileOk(c, f, owed, w) && P.Can(w, P.Store(g))
    ensures FileOk(c, f, owed, P.Moved(w, P.Store(g)))
  {
    assert w.pc.pending.Keys == {g};
    assert w.pc.pending - {g} == map[];
  }

  lemma FinishOk(c: T.Params, f: T.State, owed: map<nat, int>, w: P.Worker, ok: bool, bytes: int)
    requires c.Valid() && FileOk(c, f, owed, w) && P.Can(w, P.Finish(ok, bytes)) && f.phase.Ended?
    ensures FileOk(c, f, owed, P.Moved(w, P.Finish(ok, bytes)))
  {
    assert T.Quiescent(f);
  }

  lemma WorkerOk(c: T.Params, f: T.State, owed: map<nat, int>, w: P.Worker, act: P.Act)
    requires c.Valid() && OneByOne(c) && FileOk(c, f, owed, w) && P.Can(w, act)
    requires act.Report? ==> act.g in owed
    requires act.Finish? ==> f.phase.Ended?
    ensures FileOk(c, f, if act.Report? then owed - {act.g} else owed, P.Moved(w, act))
  {
    match act
    case Report(g, v) => ReportOk(c, f, owed, w, g, v);
    case Store(g) => StoreOk(c, f, owed, w, g);
    case Finish(ok, bytes) => FinishOk(c, f, owed, w, ok, bytes);
    case _ => assert G.Peak([]) == 0;
  }

  /** A goroutine with no call to make or finish moves, or somebody else does: who holds a buffer and
      is busy still does. */
  lemma DownloadOk(c: T.Params, f: T.State, owed: map<nat, int>, w: P.Worker, l: T.Label)
    requires c.Valid() && FileOk(c, f, owed, w) && w.pc.Downloading? && T.Enabled(c, f, l)
    requires l.Work? ==> l.i !in owed && l.i !in w.pc.pending
    ensures var t := T.Next(c, f, l);
            FileOk(c, t, if l.Work? && l.act.Read? then Owes(owed, l.i, t.counter) else owed, w)
  {
    I.ShapeStep(c, f, l);
    OthersStay(c, f, l);
    if l.Work? && l.act.Read? { assert T.Next(c, f, l).ws[l.i].pc.Holding?; }
  }

  lemma OthersStay(c: T.Params, f: T.State, l: T.Label)
    requires c.Valid() && I.Shape(c, f) && T.Enabled(c, f, l)
    ensures var t := T.Next(c, f, l);
            forall g :: 0 <= g < |f.ws| && f.ws[g].pc.Holding? && (l.Work? ==> g != l.i) ==>
              g < |t.ws| && t.ws[g] == f.ws[g]
  {
    var t := T.Next(c, f, l);
    forall g | 0 <= g < |f.ws| && f.ws[g].pc.Holding? && (l.Work? ==> g != l.i)
      ensures g < |t.ws| && t.ws[g] == f.ws[g]
    {
      StaysPut(c, f, l, g);
    }
  }

  lemma StaysPut(c: T.Params, f: T.State, l: T.Label, g: nat)
    requires c.Valid() && I.Shape(c, f) && T.Enabled(c, f, l) && g < |f.ws| && f.ws[g].pc.Holding?
    requires l.Work? ==> g != l.i
    ensures g < |T.Next(c, f, l).ws| && T.Next(c, f, l).ws[g] == f.ws[g]
  {
    match l
    case Work(i, act) =>
    case Acquire =>
    case Open(_, _) =>
    case _ => I.MainFrame(c, f, l);
  }

  ghost predicate AllOk(p: P.Params, cfg: seq<T.Params>, w: Whole)
  {
    && Sized(p, cfg, w)
    && forall i :: 0 <= i < |cfg| ==> FileOk(cfg[i], w.files[i], w.owed[i], w.s.ws[i])
  }

  lemma AllOkInner(p: P.Params, cfg: seq<T.Params>, w: Whole, i: nat, l: T.Label)
    requires AllOk(p, cfg, w) && Can(p, cfg, w, Inner(i, l))
    ensures AllOk(p, cfg, Next(p, cfg, w, Inner(i, l)))
  {
    DownloadOk(cfg[i], w.files[i], w.owed[i], w.s.ws[i], l);
  }

  lemma AllOkWorker(p: P.Params, cfg: seq<T.Params>, w: Whole, i: nat, act: P.Act)
    requires AllOk(p, cfg, w) && Can(p, cfg, w, Outer(P.Work(i, act))) && OneByOne(cfg[i])
    ensures AllOk(p, cfg, Next(p, cfg, w, Outer(P.Work(i, act))))
  {
    WorkerOk(cfg[i], w.files[i], w.owed[i], w.s.ws[i], act);
  }

  lemma AllOkStep(p: P.Params, cfg: seq<T.Params>, w: Whole, e: Event)
    requires AllOk(p, cfg, w) && Can(p, cfg, w, e) && forall i :: 0 <= i < |cfg| ==> OneByOne(cfg[i])
    requires A.Shape(p, w.s)
    ensures AllOk(p, cfg, Next(p, cfg, w, e))
  {
    match e
    case Outer(l) =>
      if l.Work? {
        AllOkWorker(p, cfg, w, l.i, l.act);
      } else if l.Acquire? {
        assert FileOk(cfg[w.s.next], w.files[w.s.next], w.owed[w.s.next], w.s.ws[w.s.next]);
      }
    case Inner(i, step) => AllOkInner(p, cfg, w, i, step);
  }

  /** What holds whatever the settings. */
  ghost predicate Counted(p: P.Params, w: Whole) { A.Shape(p, w.s) && G.Aggregated(p, w.s) }

  lemma CountedStep(p: P.Params, cfg: seq<T.Params>, w: Whole, e: Event)
    requires Counted(p, w) && Can(p, cfg, w, e)
    ensures Counted(p, Next(p, cfg, w, e))
  {
    if e.Outer? {
      A.ShapeStep(p, w.s, e.l);
      G.AggregatedStep(p, w.s, e.l);
    }
  }

  lemma {:induction false} AlongRun(p: P.Params, cfg: seq<T.Params>, w: Whole, es: seq<Event>)
    requires Counted(p, w) && AllOk(p, cfg, w) && Follows(p, cfg, w, es)
    requires forall i :: 0 <= i < |cfg| ==> OneByOne(cfg[i])
    ensures Counted(p, After(p, cfg, w, es)) && AllOk(p, cfg, After(p, cfg, w, es))
    decreases |es|
  {
    if es != [] {
      CountedStep(p, cfg, w, es[0]);
      AllOkStep(p, cfg, w, es[0]);
      AlongRun(p, cfg, Next(p, cfg, w, es[0]), es[1..]);
    }
  }

  lemma CountedOpening(p: P.Params, cfg: seq<T.Params>, left: seq<Left>)
    requires Fits(p, cfg) && |left| == |cfg|
    ensures Counted(p, Opening(p, cfg, left))
  {
    A.InvInit(p);
    SumConstant(G.Shares(p.objects, P.Init(p).ws), 0);
  }

  /** After these events, if no call is owed or under way, globalBytesCounter is the sizes skipped plus
      each file's highest report. */
  ghost predicate Right(p: P.Params, cfg: seq<T.Params>, left: seq<Left>, es: seq<Event>)
    requires Fits(p, cfg) && |left| == |cfg|
  {
    Follows(p, cfg, Opening(p, cfg, left), es) && Calm(After(p, cfg, Opening(p, cfg, left), es)) ==>
      var w := After(p, cfg, Opening(p, cfg, left), es);
      |w.s.ws| == |p.objects| && w.s.global == Sum(G.Dues(p.objects, w.s.ws))
  }

  lemma RightOneByOne(p: P.Params, cfg: seq<T.Params>, left: seq<Left>, es: seq<Event>)
    requires Fits(p, cfg) && |left| == |cfg| && forall i :: 0 <= i < |cfg| ==> OneByOne(cfg[i])
    ensures Right(p, cfg, left, es)
  {
    var w0 := Opening(p, cfg, left);
    if Follows(p, cfg, w0, es) {
      CountedOpening(p, cfg, left);
      forall i | 0 <= i < |cfg| ensures FileOk(cfg[i], w0.files[i], w0.owed[i], w0.s.ws[i]) {
        I.ShapeInit(cfg[i], left[i].tmp, left[i].dst);
      }
      AlongRun(p, cfg, w0, es);
      var w := After(p, cfg, w0, es);
      if Calm(w) {
        var dues, shares := G.Dues(p.objects, w.s.ws), G.Shares(p.objects, w.s.ws);
        forall i | 0 <= i < |cfg| ensures dues[i] == shares[i] {
          assert FileOk(cfg[i], w.files[i], w.owed[i], w.s.ws[i]);
          assert G.Peak([]) == 0;
        }
        assert dues == shares;
      }
    }
  }

  // ---- The announced total ----

  /** The server of file i sends nothing but prefixes of what was asked. */
  predicate HonestEvent(cfg: seq<T.Params>, objs: seq<seq<byte>>, e: Event)
    requires |objs| == |cfg| && forall i :: 0 <= i < |cfg| ==> cfg[i].Valid() && |objs[i]| == cfg[i].total
  {
    e.Inner? && e.i < |cfg| ==> C.HonestLabel(cfg[e.i], objs[e.i], e.step)
  }

  predicate Honest(cfg: seq<T.Params>, objs: seq<seq<byte>>, es: seq<Event>)
    requires |objs| == |cfg| && forall i :: 0 <= i < |cfg| ==> cfg[i].Valid() && |objs[i]| == cfg[i].total
  {
    forall n :: 0 <= n < |es| ==> HonestEvent(cfg, objs, es[n])
  }

  /** The download has come where it is by a run against such a server. */
  ghost predicate CameHonestly(c: T.Params, obj: seq<byte>, l: Left, f: T.State)
    requires c.Valid() && |obj| == c.total
  {
    exists ls ::
      && T.Follows(c, T.Init(c, l.tmp, l.dst), ls) && T.After(c, T.Init(c, l.tmp, l.dst), ls) == f
      && C.Honest(c, obj, ls)
  }

  lemma HonestLonger(c: T.Params, obj: seq<byte>, l: Left, f: T.State, step: T.Label)
    requires c.Valid() && |obj| == c.total && CameHonestly(c, obj, l, f)
    requires T.Enabled(c, f, step) && C.HonestLabel(c, obj, step)
    ensures CameHonestly(c, obj, l, T.Next(c, f, step))
  {
    var f0 := T.Init(c, l.tmp, l.dst);
    var ls :| T.Follows(c, f0, ls) && T.After(c, f0, ls) == f && C.Honest(c, obj, ls);
    T.FollowsAppend(c, f0, ls, [step]);
    assert C.Honest(c, obj, ls + [step]);
  }

  lemma CounterLow(c: T.Params, obj: seq<byte>, l: Left, f: T.State)
    requires c.Valid() && OneByOne(c) && |obj| == c.total && CameHonestly(c, obj, l, f)
    ensures f.counter <= c.total
  {
    var f0 := T.Init(c, l.tmp, l.dst);
    var ls :| T.Follows(c, f0, ls) && T.After(c, f0, ls) == f && C.Honest(c, obj, ls);
    I.ShapeInit(c, l.tmp, l.dst);
    O.OneSlotDisjoint(c, f0, ls);
    O.CounterWithin(c, obj, l.tmp, l.dst, ls);
  }

  /** No value owed or reported is above the size. */
  ghost predicate Low(c: T.Params, obj: seq<byte>, l: Left, f: T.State, owed: map<nat, int>, w: P.Worker)
    requires c.Valid() && |obj| == c.total
  {
    && CameHonestly(c, obj, l, f)
    && (forall g :: g in owed ==> owed[g] <= c.total)
    && (forall r :: r in w.reports ==> r <= c.total)
  }

  ghost predicate AllLow(p: P.Params, cfg: seq<T.Params>, objs: seq<seq<byte>>, left: seq<Left>, w: Whole)
  {
    && Sized(p, cfg, w) && |objs| == |left| == |cfg|
    && forall i :: 0 <= i < |cfg| ==>
         |objs[i]| == cfg[i].total && Low(cfg[i], objs[i], left[i], w.files[i], w.owed[i], w.s.ws[i])
  }

  lemma LowWorker(c: T.Params, obj: seq<byte>, l: Left, f: T.State, owed: map<nat, int>, w: P.Worker, act: P.Act)
    requires c.Valid() && |obj| == c.total && Low(c, obj, l, f, owed, w) && P.Can(w, act)
    requires act.Report? ==> act.g in owed && owed[act.g] == act.v
    ensures Low(c, obj, l, f, if act.Report? then owed - {act.g} else owed, P.Moved(w, act))
  {
  }

  lemma LowDownload(c: T.Params, obj: seq<byte>, l: Left, f: T.State, owed: map<nat, int>, w: P.Worker, step: T.Label)
    requires c.Valid() && |obj| == c.total && Low(c, obj, l, f, owed, w) && OneByOne(c)
    requires T.Enabled(c, f, step) && C.HonestLabel(c, obj, step)
    ensures var t := T.Next(c, f, step);
            Low(c, obj, l, t, if step.Work? && step.act.Read? then Owes(owed, step.i, t.counter) else owed, w)
  {
    HonestLonger(c, obj, l, f, step);
    CounterLow(c, obj, l, T.Next(c, f, step));
  }

  lemma AllLowStep(p: P.Params, cfg: seq<T.Params>, objs: seq<seq<byte>>, left: seq<Left>, w: Whole, e: Event)
    requires AllLow(p, cfg, objs, left, w) && Can(p, cfg, w, e) && HonestEvent(cfg, objs, e)
    requires forall i :: 0 <= i < |cfg| ==> OneByOne(cfg[i])
    ensures AllLow(p, cfg, objs, left, Next(p, cfg, w, e))
  {
    match e
    case Outer(l) =>
      if l.Work? {
        LowWorker(cfg[l.i], objs[l.i], left[l.i], w.files[l.i], w.owed[l.i], w.s.ws[l.i], l.act);
      } else if l.Acquire? {
        var i := w.s.next;
        assert Low(cfg[i], objs[i], left[i], w.files[i], w.owed[i], w.s.ws[i]);
      }
    case Inner(i, step) =>
      LowDownload(cfg[i], objs[i], left[i], w.files[i], w.owed[i], w.s.ws[i], step);
  }

  lemma {:induction false} AllLowAlong(p: P.Params, cfg: seq<T.Params>, objs: seq<seq<byte>>, left: seq<Left>,
          w: Whole, es: seq<Event>)
    requires AllLow(p, cfg, objs, left, w) && Follows(p, cfg, w, es) && Honest(cfg, objs, es)
    requires forall i :: 0 <= i < |cfg| ==> OneByOne(cfg[i])
    ensures AllLow(p, cfg, objs, left, After(p, cfg, w, es))
    decreases |es|
  {
    if es != [] {
      assert HonestEvent(cfg, objs, es[0]);
      AllLowStep(p, cfg, objs, left, w, es[0]);
      AllLowAlong(p, cfg, objs, left, Next(p, cfg, w, es[0]), es[1..]);
    }
  }

  /** With servers that honour ranges and attempts one at a time, the counter never shows more than
      the announced total, whenever no call is owed or under way. */
  lemma WithinTotal(p: P.Params, cfg: seq<T.Params>, objs: seq<seq<byte>>, left: seq<Left>, es: seq<Event>)
    requires Fits(p, cfg) && |left| == |objs| == |cfg|
    requires forall i :: 0 <= i < |cfg| ==> OneByOne(cfg[i]) && |objs[i]| == cfg[i].total == p.objects[i].size
    requires Follows(p, cfg, Opening(p, cfg, left), es) && Honest(cfg, objs, es)
    requires Calm(After(p, cfg, Opening(p, cfg, left), es))
    ensures After(p, cfg, Opening(p, cfg, left), es).s.global <= Tally(P.Size, p.objects)
  {
    var w0 := Opening(p, cfg, left);
    forall i | 0 <= i < |cfg| ensures Low(cfg[i], objs[i], left[i], w0.files[i], w0.owed[i], w0.s.ws[i]) {
      var f0 := T.Init(cfg[i], left[i].tmp, left[i].dst);
      assert T.Follows(cfg[i], f0, []) && T.After(cfg[i], f0, []) == f0 && C.Honest(cfg[i], objs[i], []);
    }
    AllLowAlong(p, cfg, objs, left, w0, es);
    RightOneByOne(p, cfg, left, es);
    assert Right(p, cfg, left, es);
    CountedOpening(p, cfg, left);
    var w := After(p, cfg, w0, es);
    CountedAlong(p, cfg, w0, es);
    forall i | 0 <= i < |cfg| ensures G.Dues(p.objects, w.s.ws)[i] <= Terms(P.Size, p.objects)[i] {
      assert Low(cfg[i], objs[i], left[i], w.files[i], w.owed[i], w.s.ws[i]);
      assert G.InStep(w.s.ws[i]);
      assert G.Peak([]) == 0;
    }
    SumCompare(G.Dues(p.objects, w.s.ws), Terms(P.Size, p.objects));
  }

  lemma {:induction false} CountedAlong(p: P.Params, cfg: seq<T.Params>, w: Whole, es: seq<Event>)
    requires Counted(p, w) && Follows(p, cfg, w, es)
    ensures Counted(p, After(p, cfg, w, es))
    decreases |es|
  {
    if es != [] {
      CountedStep(p, cfg, w, es[0]);
      CountedAlong(p, cfg, Next(p, cfg, w, es[0]), es[1..]);
    }
  }

  // ---- Attempts that overlap ----

  /** Some events lead from w0 to w. */
  ghost predicate Leads(p: P.Params, cfg: seq<T.Params>, w0: Whole, w: Whole)
  {
    exists es :: Follows(p, cfg, w0, es) && After(p, cfg, w0, es) == w
  }

  lemma {:induction false} FollowsLonger(p: P.Params, cfg: seq<T.Params>, w: Whole, es: seq<Event>, e: Event)
    requires Follows(p, cfg, w, es) && Can(p, cfg, After(p, cfg, w, es), e)
    ensures Follows(p, cfg, w, es + [e])
    ensures After(p, cfg, w, es + [e]) == Next(p, cfg, After(p, cfg, w, es), e)
    decreases |es|
  {
    if es == [] {
      assert es + [e] == [e] && [e][1..] == [];
    } else {
      assert (es + [e])[1..] == es[1..] + [e];
      FollowsLonger(p, cfg, Next(p, cfg, w, es[0]), es[1..], e);
    }
  }

  lemma Then(p: P.Params, cfg: seq<T.Params>, w0: Whole, w: Whole, e: Event) returns (v: Whole)
    requires Leads(p, cfg, w0, w) && Can(p, cfg, w, e)
    ensures v == Next(p, cfg, w, e) && Leads(p, cfg, w0, v)
    ensures Counted(p, w) ==> Counted(p, v)
  {
    var es :| Follows(p, cfg, w0, es) && After(p, cfg, w0, es) == w;
    FollowsLonger(p, cfg, w0, es, e);
    v := Next(p, cfg, w, e);
    if Counted(p, w) { CountedStep(p, cfg, w, e); }
  }

  /** The dispatcher stands before file i, nothing is under way, and no download has moved. */
  ghost predicate Before(p: P.Params, cfg: seq<T.Params>, w0: Whole, w: Whole, i: nat)
  {
    && Sized(p, cfg, w) && Leads(p, cfg, w0, w) && Counted(p, w) && w.files == w0.files && w.owed == w0.owed
    && w.s.phase.Dispatch? && w.s.next == i && w.s.slots == 0 && !w.s.cancelled && i <= |cfg|
    && P.Quiescent(w.s)
  }

  /** A step of DownloadPrefix that is neither a call nor the end of a download. */
  lemma Turns(p: P.Params, cfg: seq<T.Params>, w0: Whole, w: Whole, l: P.Label) returns (v: Whole)
    requires Sized(p, cfg, w) && Leads(p, cfg, w0, w) && Counted(p, w) && P.Enabled(p, w.s, l)
    requires l.Work? ==> !l.act.Report? && !l.act.Finish?
    ensures v == w.(s := P.Next(p, w.s, l)) && Sized(p, cfg, v) && Leads(p, cfg, w0, v) && Counted(p, v)
  {
    v := Then(p, cfg, w0, w, Outer(l));
  }

  /** The goroutine of file i is started. */
  lemma Spawns(p: P.Params, cfg: seq<T.Params>, w0: Whole, w: Whole, i: nat) returns (v: Whole)
    requires Before(p, cfg, w0, w, i) && i < |cfg|
    ensures Sized(p, cfg, v) && Leads(p, cfg, w0, v) && Counted(p, v)
    ensures v == w.(s := w.s.(next := i + 1, slots := 1, ws := w.s.ws[i := P.FRESH]))
  {
    v := Turns(p, cfg, w0, w, P.Check);
    v := Turns(p, cfg, w0, v, P.Acquire);
  }

  /** A file is found complete and skipped. */
  lemma SkipsOne(p: P.Params, cfg: seq<T.Params>, w0: Whole, w: Whole, i: nat) returns (v: Whole)
    requires Before(p, cfg, w0, w, i) && i < |cfg|
    ensures Before(p, cfg, w0, v, i + 1)
  {
    v := Spawns(p, cfg, w0, w, i);
    v := Turns(p, cfg, w0, v, P.Work(i, P.Stat(true)));
    v := Turns(p, cfg, w0, v, P.Work(i, P.Credit));
    v := Turns(p, cfg, w0, v, P.Work(i, P.Append));
    v := Turns(p, cfg, w0, v, P.Work(i, P.Leave));
    assert v.s.ws == w.s.ws[i := v.s.ws[i]] && P.Parked(v.s.ws[i]);
  }

  lemma {:induction false} SkipsUpTo(p: P.Params, cfg: seq<T.Params>, w0: Whole, w: Whole, j: nat, i: nat)
    returns (v: Whole)
    requires Before(p, cfg, w0, w, j) && j <= i < |cfg|
    ensures Before(p, cfg, w0, v, i)
    decreases i - j
  {
    if j == i {
      v := w;
    } else {
      v := SkipsOne(p, cfg, w0, w, j);
      v := SkipsUpTo(p, cfg, w0, v, j + 1, i);
    }
  }

  /** File i downloads, and no other has a call owed or under way. */
  ghost predicate At(p: P.Params, cfg: seq<T.Params>, w0: Whole, w: Whole, i: nat)
  {
    && Sized(p, cfg, w) && Leads(p, cfg, w0, w) && Counted(p, w) && i < |cfg| && w.s.phase.Dispatch?
    && w.s.ws[i].pc.Downloading? && !w.files[i].Over() && |w.files[i].ws| == |cfg[i].Chunks()|
    && (forall j :: 0 <= j < |cfg| && j != i ==> w.owed[j] == map[] && !w.s.ws[j].pc.Downloading?)
  }

  lemma Starts(p: P.Params, cfg: seq<T.Params>, w0: Whole, w: Whole, i: nat) returns (v: Whole)
    requires Before(p, cfg, w0, w, i) && i < |cfg| && !w.files[i].Over() && |w.files[i].ws| == |cfg[i].Chunks()|
    requires forall j :: 0 <= j < |cfg| ==> w.owed[j] == map[]
    ensures At(p, cfg, w0, v, i) && v.files == w.files && v.owed[i] == map[]
    ensures v.s.ws[i] == P.Worker(P.Downloading(0, map[]), [], 0)
  {
    v := Spawns(p, cfg, w0, w, i);
    v := Turns(p, cfg, w0, v, P.Work(i, P.Stat(false)));
    assert v.s.ws == w.s.ws[i := v.s.ws[i]];
  }

  /** A step of file i's download. */
  lemma Moves(p: P.Params, cfg: seq<T.Params>, w0: Whole, w: Whole, i: nat, l: T.Label) returns (v: Whole)
    requires At(p, cfg, w0, w, i) && T.Enabled(cfg[i], w.files[i], l) && (l.Work? ==> !Busy(w, i, l.i))
    requires !l.Reject? && !l.Crash? && !l.Rename? && !l.Remove?
    ensures At(p, cfg, w0, v, i) && v.s == w.s && v.files == w.files[i := T.Next(cfg[i], w.files[i], l)]
    ensures v.owed[i] == if l.Work? && l.act.Read? then Owes(w.owed[i], l.i, v.files[i].counter) else w.owed[i]
  {
    v := Then(p, cfg, w0, w, Inner(i, l));
  }

  /** A goroutine calls the closure with what it owes. */
  lemma Calls(p: P.Params, cfg: seq<T.Params>, w0: Whole, w: Whole, i: nat, g: nat) returns (v: Whole)
    requires At(p, cfg, w0, w, i) && g in w.owed[i] && g !in w.s.ws[i].pc.pending
    ensures At(p, cfg, w0, v, i) && v.files == w.files && v.owed[i] == w.owed[i] - {g}
    ensures v.s.ws[i] == P.Moved(w.s.ws[i], P.Report(g, w.owed[i][g]))
  {
    v := Then(p, cfg, w0, w, Outer(P.Work(i, P.Report(g, w.owed[i][g]))));
  }

  lemma Stores(p: P.Params, cfg: seq<T.Params>, w0: Whole, w: Whole, i: nat, g: nat) returns (v: Whole)
    requires At(p, cfg, w0, w, i) && g in w.s.ws[i].pc.pending
    ensures At(p, cfg, w0, v, i) && v.files == w.files && v.owed[i] == w.owed[i]
    ensures v.s.ws[i] == P.Moved(w.s.ws[i], P.Store(g))
  {
    v := Then(p, cfg, w0, w, Outer(P.Work(i, P.Store(g))));
  }

  /** The first two chunks have each been sent a byte, and none has been read. */
  lemma TwoAnswered(p: P.Params, cfg: seq<T.Params>, w0: Whole, w: Whole, i: nat, left: Left) returns (v: Whole)
    requires At(p, cfg, w0, w, i) && w.owed[i] == map[] && w.s.ws[i].pc.pending == map[]
    requires w.files[i] == T.Init(cfg[i], left.tmp, left.dst) && !OneByOne(cfg[i])
    ensures At(p, cfg, w0, v, i) && v.s == w.s && v.owed[i] == map[]
    ensures |v.files[i].ws| >= 2 && v.files[i].counter == 0
    ensures var a, b := v.files[i].ws[0].pc, v.files[i].ws[1].pc; a.Copying? && b.Copying? && a.rest == b.rest == [0]
  {
    X.TwoChunks(cfg[i]);
    v := Moves(p, cfg, w0, w, i, T.Open(true, false));
    v := Moves(p, cfg, w0, v, i, T.Check);
    v := Moves(p, cfg, w0, v, i, T.Acquire);
    v := Moves(p, cfg, w0, v, i, T.Check);
    v := Moves(p, cfg, w0, v, i, T.Acquire);
    v := Moves(p, cfg, w0, v, i, T.Work(0, T.Begin));
    v := Moves(p, cfg, w0, v, i, T.Work(1, T.Begin));
    v := Moves(p, cfg, w0, v, i, T.Work(0, T.Accept([0])));
    v := Moves(p, cfg, w0, v, i, T.Work(1, T.Accept([0])));
  }

  /** Each reads its byte, and the counter they get back is one, then two. */
  lemma TwoRead(p: P.Params, cfg: seq<T.Params>, w0: Whole, w: Whole, i: nat) returns (v: Whole)
    requires At(p, cfg, w0, w, i) && w.owed[i] == map[] && w.s.ws[i].pc.pending == map[]
    requires |w.files[i].ws| >= 2 && w.files[i].counter == 0
    requires var a, b := w.files[i].ws[0].pc, w.files[i].ws[1].pc; a.Copying? && b.Copying? && a.rest == b.rest == [0]
    ensures At(p, cfg, w0, v, i) && v.s == w.s && v.owed[i] == map[0 := 1, 1 := 2]
  {
    v := Moves(p, cfg, w0, w, i, T.Work(0, T.Read(1)));
    v := Moves(p, cfg, w0, v, i, T.Work(1, T.Read(1)));
  }

  const BOTH: map<nat, P.Callback> := map[0 := P.Callback(1, 1), 1 := P.Callback(2, 2)]

  /** Both call, and compute their deltas, before either stores. */
  lemma TwoCalled(p: P.Params, cfg: seq<T.Params>, w0: Whole, w: Whole, i: nat) returns (v: Whole)
    requires At(p, cfg, w0, w, i) && w.s.ws[i] == P.Worker(P.Downloading(0, map[]), [], 0)
    requires w.owed[i] == map[0 := 1, 1 := 2]
    ensures At(p, cfg, w0, v, i) && v.owed[i] == map[] && v.s.ws[i] == P.Worker(P.Downloading(0, BOTH), [1, 2], 0)
  {
    v := Calls(p, cfg, w0, w, i, 0);
    v := Calls(p, cfg, w0, v, i, 1);
    assert v.owed[i] == map[] && v.s.ws[i].reports == [1, 2] && v.s.ws[i].pc.pending == BOTH;
  }

  /** Then both store, and three bytes are counted where two were read. */
  lemma TwoStored(p: P.Params, cfg: seq<T.Params>, w0: Whole, w: Whole, i: nat) returns (v: Whole)
    requires At(p, cfg, w0, w, i) && w.s.ws[i] == P.Worker(P.Downloading(0, BOTH), [1, 2], 0) && w.owed[i] == map[]
    ensures At(p, cfg, w0, v, i) && Calm(v) && v.s.ws[i] == P.Worker(P.Downloading(2, map[]), [1, 2], 3)
  {
    v := Stores(p, cfg, w0, w, i, 0);
    assert v.s.ws[i].pc.pending == map[1 := P.Callback(2, 2)];
    v := Stores(p, cfg, w0, v, i, 1);
    assert v.s.ws[i].pc.pending == map[];
  }

  /** A file whose attempts can overlap has a run that counts it wrong. */
  lemma CountedWrong(p: P.Params, cfg: seq<T.Params>, left: seq<Left>, i: nat) returns (w: Whole)
    requires Fits(p, cfg) && |left| == |cfg| && i < |cfg| && !OneByOne(cfg[i])
    ensures Leads(p, cfg, Opening(p, cfg, left), w) && Calm(w) && |w.s.ws| == |p.objects|
    ensures w.s.global != Sum(G.Dues(p.objects, w.s.ws))
  {
    var w0 := Opening(p, cfg, left);
    assert Follows(p, cfg, w0, []) && After(p, cfg, w0, []) == w0;
    CountedOpening(p, cfg, left);
    w := SkipsUpTo(p, cfg, w0, w0, 0, i);
    w := Starts(p, cfg, w0, w, i);
    w := TwoAnswered(p, cfg, w0, w, i, left[i]);
    w := TwoRead(p, cfg, w0, w, i);
    w := TwoCalled(p, cfg, w0, w, i);
    w := TwoStored(p, cfg, w0, w, i);
    TooHigh(p, w.s, i);
  }

  lemma TooHigh(p: P.Params, s: P.State, i: nat)
    requires G.Aggregated(p, s) && G.Calm(s) && i < |s.ws|
    requires s.ws[i].pc.Downloading? && s.ws[i].reports == [1, 2] && s.ws[i].gained == 3
    ensures s.global != Sum(G.Dues(p.objects, s.ws))
  {
    var dues, shares := G.Dues(p.objects, s.ws), G.Shares(p.objects, s.ws);
    forall j | 0 <= j < |s.ws| ensures dues[j] <= shares[j] {
      G.ShareAgainstDue(p.objects[j], s.ws[j]);
    }
    assert [1, 2][..1] == [1] && [1][..0] == [];
    assert G.Peak([1]) == 1 && G.Peak([1, 2]) == 2;
    assert dues[i] != shares[i];
    SumCompare(dues, shares);
  }

  /** The global counter is right in every run exactly when no file's attempts can overlap. */
  lemma ProgressExactly(p: P.Params, cfg: seq<T.Params>, left: seq<Left>)
    requires Fits(p, cfg) && |left| == |cfg|
    ensures (forall es :: Right(p, cfg, left, es)) <==> forall i :: 0 <= i < |cfg| ==> OneByOne(cfg[i])
  {
    if forall i :: 0 <= i < |cfg| ==> OneByOne(cfg[i]) {
      forall es ensures Right(p, cfg, left, es) { RightOneByOne(p, cfg, left, es); }
    } else {
      var i :| 0 <= i < |cfg| && !OneByOne(cfg[i]);
      var w := CountedWrong(p, cfg, left, i);
      var es :| Follows(p, cfg, Opening(p, cfg, left), es) && After(p, cfg, Opening(p, cfg, left), es) == w;
      assert !Right(p, cfg, left, es);
    }
  }

  /** The settings of one prefix download: the caller's, with each object's size. */
  function Settings(base: T.Params, p: P.Params): (cfg: seq<T.Params>)
    requires base.Valid() && forall i :: 0 <= i < |p.objects| ==> p.objects[i].size >= 0
    ensures Fits(p, cfg) && forall i :: 0 <= i < |cfg| ==> cfg[i] == base.(total := p.objects[i].size)
  {
    seq(|p.objects|, i requires 0 <= i < |p.objects| => base.(total := p.objects[i].size))
  }

  /** In the caller's terms: Concurrency is 1, or no listed object is larger than a chunk. */
  lemma ProgressExactlySet(p: P.Params, base: T.Params, left: seq<Left>)
    requires base.Valid() && |left| == |p.objects| && forall i :: 0 <= i < |p.objects| ==> p.objects[i].size >= 0
    ensures (forall es :: Right(p, Settings(base, p), left, es))
            <==> base.concurrency == 1 || forall i :: 0 <= i < |p.objects| ==> p.objects[i].size <= base.chunkSize
  {
    var cfg := Settings(base, p);
    ProgressExactly(p, cfg, left);
    assert forall i :: 0 <= i < |cfg| ==> cfg[i].concurrency == base.concurrency && cfg[i].total == p.objects[i].size;
  }
}
