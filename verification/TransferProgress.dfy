/**
  The live progress counter and its rollback.

  The counter is meant to be the bytes of the chunks that are done plus the bytes the
  running attempts have read.  A failed attempt rolls back by the difference of the shared
  counter over the attempt, not by what it read itself.
 */
module TransferProgress {
  import opened Prelude
  import opened Storage
  import opened Chunking
  import opened Transfer
  import opened TransferInvariants
  import opened TransferContent
  import opened TransferLiveness

  /** The bytes goroutine w of chunk c should have in the counter. */
  function Due(c: Chunk, w: Worker): int
  {
    match w.pc
    case Copying(_, _, off, _) => off - c.start
    case Holding(_, _, off, buf, _) => off - c.start + |buf|
    case Rolling(_, _, rd) => rd
    case Subtracting(_, _, rd) => rd
    case Returning(ok, n) => if ok then n else 0
    case Leaving(ok, n) => if ok then n else 0
    case Exited(ok, n) => if ok then n else 0
    case _ => 0
  }

  function Dues(cs: seq<Chunk>, ws: seq<Worker>): (ds: seq<int>)
    requires |cs| == |ws|
    ensures |ds| == |ws| && forall i :: 0 <= i < |ws| ==> ds[i] == Due(cs[i], ws[i])
  {
    seq(|ws|, i requires 0 <= i < |ws| => Due(cs[i], ws[i]))
  }

  /** How far the counter is from what it is meant to be. */
  function Drift(p: Params, s: State): int
    requires p.Valid() && |s.ws| == |p.Chunks()|
  {
    s.counter - Sum(Dues(p.Chunks(), s.ws))
  }

  /** The error a rollback makes: what the attempt read, less what is taken off. */
  function Slip(w: Worker, act: Act): int
    requires act.Subtract? ==> w.pc.Subtracting?
  {
    if act.Subtract? then w.pc.rd - Max(0, w.pc.partial) else 0
  }

  lemma DueMoved(p: Params, c: Chunk, counter: int, cancelled: bool, w: Worker, act: Act)
    requires Can(p, cancelled, w, act)
    ensures CounterAfter(counter, w, act) - counter
            == Due(c, Moved(p, c, counter, cancelled, w, act)) - Due(c, w) + Slip(w, act)
  {
  }

  /** Only a rollback can move the counter off, and by exactly its slip. */
  lemma DriftStep(p: Params, s: State, l: Label)
    requires p.Valid() && Shape(p, s) && Enabled(p, s, l)
    ensures |Next(p, s, l).ws| == |p.Chunks()|
    ensures Drift(p, Next(p, s, l)) - Drift(p, s) == if l.Work? then Slip(s.ws[l.i], l.act) else 0
  {
    var cs := p.Chunks();
    match l
    case Work(i, act) => DriftMove(p, s, i, act);
    case Acquire =>
      SumUpdate(Dues(cs, s.ws), s.next, 0);
      assert Dues(cs, s.ws[s.next := FRESH]) == Dues(cs, s.ws)[s.next := 0];
    case Open(_, _) =>
      if p.Single() {
        assert Dues(cs, [FRESH]) == Dues(cs, s.ws);
      }
    case _ =>
  }

  lemma DriftMove(p: Params, s: State, i: nat, act: Act)
    requires p.Valid() && Enabled(p, s, Work(i, act))
    ensures |Next(p, s, Work(i, act)).ws| == |p.Chunks()|
    ensures Drift(p, Next(p, s, Work(i, act))) - Drift(p, s) == Slip(s.ws[i], act)
  {
    var cs := p.Chunks();
    var v := Moved(p, cs[i], s.counter, s.cancelled, s.ws[i], act);
    DueMoved(p, cs[i], s.counter, s.cancelled, s.ws[i], act);
    SumUpdate(Dues(cs, s.ws), i, Due(cs[i], v));
    assert Dues(cs, s.ws[i := v]) == Dues(cs, s.ws)[i := Due(cs[i], v)];
  }

  // ---- Attempts that do not overlap ----

  /** Between noting the counter and rolling it back. */
  predicate InAttempt(w: Worker)
  {
    w.pc.Connecting? || w.pc.Copying? || w.pc.Holding? || w.pc.Rolling? || w.pc.Subtracting?
  }

  predicate NoOverlap(s: State)
  {
    forall i, j :: 0 <= i < |s.ws| && 0 <= j < |s.ws| && InAttempt(s.ws[i]) && InAttempt(s.ws[j]) ==> i == j
  }

  /** No two attempts overlap anywhere along the run. */
  predicate Disjoint(p: Params, s: State, ls: seq<Label>)
    requires p.Valid() && Follows(p, s, ls)
    decreases |ls|
  {
    NoOverlap(s) && (ls != [] ==> Disjoint(p, Next(p, s, ls[0]), ls[1..]))
  }

  /** What an attempt noted, and what it read, make up the counter. */
  predicate Noted(c: Chunk, counter: int, w: Worker)
  {
    InAttempt(w) ==> if w.pc.Subtracting? then w.pc.partial == w.pc.rd >= 0 else counter == w.pc.pre + Due(c, w)
  }

  ghost predicate Exact(p: Params, s: State)
    requires p.Valid()
  {
    && |s.ws| == |p.Chunks()| && Drift(p, s) == 0
    && forall i :: 0 <= i < |s.ws| ==> Noted(p.Chunks()[i], s.counter, s.ws[i])
  }

  lemma NotedMoved(p: Params, i: nat, counter: int, cancelled: bool, w: Worker, act: Act)
    requires p.Valid() && i < |p.Chunks()| && Can(p, cancelled, w, act) && WorkerOk(p, i, w)
    requires Noted(p.Chunks()[i], counter, w)
    ensures Noted(p.Chunks()[i], CounterAfter(counter, w, act), Moved(p, p.Chunks()[i], counter, cancelled, w, act))
    ensures Slip(w, act) == 0
    ensures !InAttempt(w) ==> CounterAfter(counter, w, act) == counter
  {
  }

  lemma ExactStep(p: Params, s: State, l: Label)
    requires p.Valid() && Inv(p, s) && Exact(p, s) && Enabled(p, s, l)
    requires NoOverlap(s) && NoOverlap(Next(p, s, l))
    ensures Exact(p, Next(p, s, l))
  {
    DriftStep(p, s, l);
    match l
    case Work(i, act) =>
      assert WorkerOk(p, i, s.ws[i]);
      NotedMoved(p, i, s.counter, s.cancelled, s.ws[i], act);
    case _ =>
  }

  lemma {:induction false} ExactFrom(p: Params, s: State, ls: seq<Label>)
    requires p.Valid() && Inv(p, s) && Exact(p, s) && Follows(p, s, ls) && Disjoint(p, s, ls)
    ensures Exact(p, After(p, s, ls))
    decreases |ls|
  {
    if ls != [] {
      InvStep(p, s, ls[0]);
      ExactStep(p, s, ls[0]);
      ExactFrom(p, Next(p, s, ls[0]), ls[1..]);
    }
  }

  lemma NoDues(cs: seq<Chunk>, ws: seq<Worker>)
    requires |cs| == |ws| && forall i :: 0 <= i < |ws| ==> Due(cs[i], ws[i]) == 0
    ensures Sum(Dues(cs, ws)) == 0
  {
    SumConstant(Dues(cs, ws), 0);
  }

  /** When attempts never overlap the counter is exact in every state, and ends at the size. */
  lemma ExactWithoutOverlap(p: Params, tmp: Option<Bytes>, dst: Option<Bytes>, ls: seq<Label>)
    requires p.Valid() && Follows(p, Init(p, tmp, dst), ls) && Disjoint(p, Init(p, tmp, dst), ls)
    ensures var s := After(p, Init(p, tmp, dst), ls);
            |s.ws| == |p.Chunks()| && Drift(p, s) == 0 && (Succeeded(s) ==> s.counter == p.total)
  {
    var s := Init(p, tmp, dst);
    InvInit(p, tmp, dst);
    NoDues(p.Chunks(), s.ws);
    ExactFrom(p, s, ls);
    InvAlong(p, s, ls);
    var t := After(p, s, ls);
    if Succeeded(t) {
      AllLanded(p, t);
      assert Dues(p.Chunks(), t.ws) == Terms(Gain, t.ws);
    }
  }

  /** One slot means no overlap. */
  lemma OneSlot(p: Params, s: State)
    requires p.Valid() && Shape(p, s) && (p.concurrency == 1 || p.Single())
    ensures NoOverlap(s)
  {
    forall i, j | 0 <= i < |s.ws| && 0 <= j < |s.ws| && InAttempt(s.ws[i]) && InAttempt(s.ws[j]) && i != j
      ensures false
    {
      var parked := Worker(Idle, 0, 0);
      TallyUpdate(Alive, s.ws, i, parked);
      TallyUpdate(Alive, s.ws[i := parked], j, parked);
      SumNonNegative(Terms(Alive, s.ws[i := parked][j := parked]));
    }
  }

  /** A single download, and a parallel one with Concurrency 1, never overlap attempts. */
  lemma {:induction false} OneSlotDisjoint(p: Params, s: State, ls: seq<Label>)
    requires p.Valid() && Shape(p, s) && Follows(p, s, ls) && (p.concurrency == 1 || p.Single())
    ensures Disjoint(p, s, ls)
    decreases |ls|
  {
    OneSlot(p, s);
    if ls != [] {
      ShapeStep(p, s, ls[0]);
      OneSlotDisjoint(p, Next(p, s, ls[0]), ls[1..]);
    }
  }

  // ---- How far the counter can go ----

  /** No goroutine owes more than its chunk. */
  ghost predicate Within(p: Params, s: State)
    requires p.Valid()
  {
    |s.ws| == |p.Chunks()| && forall i :: 0 <= i < |s.ws| ==> 0 <= Due(p.Chunks()[i], s.ws[i]) <= p.Chunks()[i].Size()
  }

  lemma DueWithin(p: Params, obj: Bytes, tmp: Option<Bytes>, c: Chunk, counter: int, cancelled: bool, w: Worker,
          act: Act)
    requires Can(p, cancelled, w, act) && DataOk(p, obj, tmp, c, w.pc) && 0 <= Due(c, w) <= c.Size()
    ensures 0 <= Due(c, Moved(p, c, counter, cancelled, w, act)) <= c.Size()
  {
  }

  lemma WithinStep(p: Params, obj: Bytes, s: State, l: Label)
    requires p.Valid() && Shape(p, s) && Intact(p, obj, s) && Within(p, s) && Enabled(p, s, l)
    ensures Within(p, Next(p, s, l))
  {
    match l
    case Work(i, act) =>
      assert Active(s);
      DueWithin(p, obj, s.tmp, p.Chunks()[i], s.counter, s.cancelled, s.ws[i], act);
    case Open(_, _) => if !p.Single() { MainFrame(p, s, l); }
    case Acquire =>
    case _ => MainFrame(p, s, l);
  }

  lemma {:induction false} WithinFrom(p: Params, obj: Bytes, s: State, ls: seq<Label>)
    requires p.Valid() && Shape(p, s) && Intact(p, obj, s) && Within(p, s) && Follows(p, s, ls) && Honest(p, obj, ls)
    ensures Within(p, After(p, s, ls))
    decreases |ls|
  {
    if ls != [] {
      assert HonestLabel(p, obj, ls[0]);
      ShapeStep(p, s, ls[0]);
      IntactStep(p, obj, s, ls[0]);
      WithinStep(p, obj, s, ls[0]);
      WithinFrom(p, obj, Next(p, s, ls[0]), ls[1..]);
    }
  }

  lemma SizesOfChunks(p: Params)
    requires p.Valid()
    ensures Sum(Sizes(p.Chunks())) == p.total
  {
    if p.Single() {
      SumConstant(Sizes(p.Chunks()), p.total);
    } else {
      SplitTotal(p.total, p.chunkSize);
    }
  }

  /** Against a server that honours ranges, and with no attempts overlapping, the counter, and so
      every value reported, stays between zero and the size. */
  lemma CounterWithin(p: Params, obj: Bytes, tmp: Option<Bytes>, dst: Option<Bytes>, ls: seq<Label>)
    requires p.Valid() && |obj| == p.total && Follows(p, Init(p, tmp, dst), ls) && Honest(p, obj, ls)
    requires Disjoint(p, Init(p, tmp, dst), ls)
    ensures 0 <= After(p, Init(p, tmp, dst), ls).counter <= p.total
  {
    var s := Init(p, tmp, dst);
    InvInit(p, tmp, dst);
    forall i | 0 <= i < |s.ws| ensures p.Chunks()[i].Size() >= 0 { ChunkInside(p, i); }
    WithinFrom(p, obj, s, ls);
    ExactWithoutOverlap(p, tmp, dst, ls);
    var dues := Dues(p.Chunks(), After(p, s, ls).ws);
    var zeros := seq(|dues|, _ => 0);
    SumConstant(zeros, 0);
    SumCompare(zeros, dues);
    SumCompare(dues, Sizes(p.Chunks()));
    SizesOfChunks(p);
  }

  // ---- Rolling back what the attempt itself read ----

  function OwnPartial(w: Worker): Worker
  {
    if w.pc.Subtracting? then w.(pc := w.pc.(partial := w.pc.rd)) else w
  }

  function OwnPartials(ws: seq<Worker>): (vs: seq<Worker>)
    ensures |vs| == |ws| && forall i :: 0 <= i < |ws| ==> vs[i] == OwnPartial(ws[i])
  {
    seq(|ws|, i requires 0 <= i < |ws| => OwnPartial(ws[i]))
  }

  /** The same transfer with one change: a failed attempt takes off the bytes it read. */
  function NextOwn(p: Params, s: State, l: Label): State
    requires p.Valid() && Enabled(p, s, l)
  {
    var t := Next(p, s, l);
    t.(ws := OwnPartials(t.ws))
  }

  predicate FollowsOwn(p: Params, s: State, ls: seq<Label>)
    requires p.Valid()
    decreases |ls|
  {
    ls != [] ==> Enabled(p, s, ls[0]) && FollowsOwn(p, NextOwn(p, s, ls[0]), ls[1..])
  }

  function AfterOwn(p: Params, s: State, ls: seq<Label>): State
    requires p.Valid() && FollowsOwn(p, s, ls)
    decreases |ls|
  {
    if ls == [] then s else AfterOwn(p, NextOwn(p, s, ls[0]), ls[1..])
  }

  lemma OwnKeepsInv(p: Params, t: State)
    requires p.Valid() && Inv(p, t)
    ensures Inv(p, t.(ws := OwnPartials(t.ws)))
    ensures Drift(p, t.(ws := OwnPartials(t.ws))) == Drift(p, t)
  {
    var vs := OwnPartials(t.ws);
    assert Terms(Alive, vs) == Terms(Alive, t.ws);
    assert Terms(Gain, vs) == Terms(Gain, t.ws);
    assert Terms(Naps, vs) == Terms(Naps, t.ws);
    assert Dues(p.Chunks(), vs) == Dues(p.Chunks(), t.ws);
    forall i | 0 <= i < |vs| ensures WorkerOk(p, i, vs[i]) {
      assert WorkerOk(p, i, t.ws[i]);
    }
    forall i | 0 <= i < |vs| ensures Fallen(vs[i]) <==> Fallen(t.ws[i]) { }
  }

  lemma OwnStep(p: Params, s: State, l: Label)
    requires p.Valid() && Inv(p, s) && Enabled(p, s, l) && s.ws == OwnPartials(s.ws)
    ensures var t := NextOwn(p, s, l); Inv(p, t) && t.ws == OwnPartials(t.ws) && Drift(p, t) == Drift(p, s)
  {
    var t := Next(p, s, l);
    OwnDrift(p, s, l);
    InvStep(p, s, l);
    OwnKeepsInv(p, t);
    OwnTwice(t.ws);
  }

  lemma OwnDrift(p: Params, s: State, l: Label)
    requires p.Valid() && Inv(p, s) && Enabled(p, s, l) && s.ws == OwnPartials(s.ws)
    ensures |Next(p, s, l).ws| == |p.Chunks()| && Drift(p, Next(p, s, l)) == Drift(p, s)
  {
    DriftStep(p, s, l);
    if l.Work? {
      assert WorkerOk(p, l.i, s.ws[l.i]);
      assert s.ws[l.i] == OwnPartial(s.ws[l.i]);
    }
  }

  lemma OwnTwice(ws: seq<Worker>)
    ensures OwnPartials(OwnPartials(ws)) == OwnPartials(ws)
  {
  }

  /** With per-attempt rollback the counter is exact however the attempts overlap. */
  lemma {:induction false} OwnRollbackExact(p: Params, s: State, ls: seq<Label>)
    requires p.Valid() && Inv(p, s) && FollowsOwn(p, s, ls)
    requires s.ws == OwnPartials(s.ws)
    ensures |AfterOwn(p, s, ls).ws| == |p.Chunks()| && Drift(p, AfterOwn(p, s, ls)) == Drift(p, s)
    decreases |ls|
  {
    if ls != [] {
      OwnStep(p, s, ls[0]);
      OwnRollbackExact(p, NextOwn(p, s, ls[0]), ls[1..]);
    }
  }
}
