/** What every step of a transfer keeps, for any server, any disk and any interleaving. */
module TransferInvariants {
  import opened Prelude
  import opened Storage
  import opened Chunking
  import opened Transfer

  /** 1 for a goroutine that holds a semaphore slot. */
  function Alive(w: Worker): int { if Parked(w) then 0 else 1 }

  /** What a worker has added to totalWritten. */
  function Gain(w: Worker): int
  {
    if (w.pc.Leaving? || w.pc.Exited?) && w.pc.ok then w.pc.n else 0
  }

  predicate Fallen(w: Worker) { (w.pc.Leaving? || w.pc.Exited?) && !w.pc.ok }

  function Naps(w: Worker): int { w.naps }

  function Gets(w: Worker): int { w.gets }

  function LiveWorkers(s: State): int { Tally(Alive, s.ws) }

  function Requests(s: State): int { Tally(Gets, s.ws) }

  predicate Settled(s: State)
  {
    s.phase.Syncing? || s.phase.Sizing? || s.phase.Hashing? || s.phase.Renaming? || s.phase.Cleanup? || s.phase.Ended?
  }

  predicate Succeeded(s: State) { s.phase.Ended? && s.phase.outcome.Success? }

  // ---- Who runs ----

  /** What the phase tells about the goroutines. */
  ghost predicate PhaseOk(p: Params, s: State)
    requires p.Valid()
  {
    && (s.phase.Start? ==> s.next == 0)
    && (s.phase.Admit? ==> s.next < |s.ws|)
    && (s.phase.Dispatch? || s.phase.Admit? || s.phase.Syncing? ==> !p.Single())
    && (p.Single() && Onward(s) ==> s.next == 1)
    && (Settled(s) ==> Quiescent(s))
  }

  predicate Onward(s: State)
  {
    s.phase.Waiting? || s.phase.Sizing? || s.phase.Hashing? || s.phase.Renaming? || Succeeded(s)
  }

  /** Dispatch goes in chunk order, the semaphore counts the live goroutines, and once
      wg.Wait has returned no goroutine is left. */
  ghost predicate Shape(p: Params, s: State)
    requires p.Valid()
  {
    && |s.ws| == |p.Chunks()|
    && s.next <= |s.ws|
    && (forall i :: 0 <= i < |s.ws| ==> (s.ws[i].pc.Idle? <==> i >= s.next))
    && s.slots == LiveWorkers(s) <= p.concurrency
    && PhaseOk(p, s)
  }

  lemma ShapeInit(p: Params, tmp: Option<Bytes>, dst: Option<Bytes>)
    requires p.Valid()
    ensures Shape(p, Init(p, tmp, dst))
  {
    TallyConstant(Alive, Init(p, tmp, dst).ws, 0);
  }

  /** What a goroutine adds to the sums shows in its own entry. */
  lemma MovedEffect(p: Params, c: Chunk, counter: int, cancelled: bool, w: Worker, act: Act)
    requires Can(p, cancelled, w, act)
    ensures var v := Moved(p, c, counter, cancelled, w, act);
            && Gain(v) - Gain(w) == (if act.Return? && w.pc.ok then w.pc.n else 0)
            && v.naps - w.naps == (if act.Decide? && !GivesUp(p, cancelled, w.pc.k) then 1 else 0)
            && Alive(v) - Alive(w) == (if act.Leave? then -1 else 0)
            && (Fallen(v) <==> Fallen(w) || (act.Return? && !w.pc.ok))
            && !Parked(w) && !v.pc.Idle?
  {
  }

  /** A goroutine that moves, or gives its slot back, leaves the shape as it was. */
  lemma ShapeKept(p: Params, s: State, i: nat, v: Worker, t: State)
    requires p.Valid() && Shape(p, s) && i < |s.ws| && !Parked(s.ws[i]) && !v.pc.Idle?
    requires t.ws == s.ws[i := v] && t.phase == s.phase && t.next == s.next
    requires t.slots - s.slots == Alive(v) - Alive(s.ws[i])
    ensures Shape(p, t)
  {
    TallyUpdate(Alive, s.ws, i, v);
    assert !Quiescent(s);
  }

  lemma ShapeMove(p: Params, s: State, i: nat, act: Act)
    requires p.Valid() && Shape(p, s) && Enabled(p, s, Work(i, act))
    ensures Shape(p, Next(p, s, Work(i, act)))
  {
    MovedEffect(p, p.Chunks()[i], s.counter, s.cancelled, s.ws[i], act);
    var v := Moved(p, p.Chunks()[i], s.counter, s.cancelled, s.ws[i], act);
    ShapeKept(p, s, i, v, Move(p, s, i, act));
  }

  const FRESH := Worker(Ready(0), 0, 0)

  lemma ShapeOpen(p: Params, s: State, l: Label)
    requires p.Valid() && p.Single() && Shape(p, s) && Enabled(p, s, l) && l.Open?
    ensures Shape(p, Next(p, s, l))
  {
    assert s.ws[0].pc.Idle? && s.ws[0 := FRESH] == [FRESH];
    TallyConstant(Alive, s.ws, 0);
    TallyUpdate(Alive, s.ws, 0, FRESH);
  }

  lemma ShapeAcquire(p: Params, s: State)
    requires p.Valid() && Shape(p, s) && Enabled(p, s, Acquire)
    ensures Shape(p, Next(p, s, Acquire))
  {
    TallyUpdate(Alive, s.ws, s.next, FRESH);
  }

  /** The labels of the main goroutine and the environment that start no goroutine. */
  predicate MainOnly(p: Params, l: Label)
  {
    !l.Work? && !l.Acquire? && (l.Open? ==> !p.Single())
  }

  /** They move no goroutine and no slot. */
  lemma MainFrame(p: Params, s: State, l: Label)
    requires p.Valid() && Enabled(p, s, l) && MainOnly(p, l)
    ensures var t := Next(p, s, l); t.ws == s.ws && t.next == s.next && t.slots == s.slots
  {
  }

  lemma PhaseMain(p: Params, s: State, l: Label)
    requires p.Valid() && PhaseOk(p, s) && Enabled(p, s, l) && MainOnly(p, l)
    requires forall i :: 0 <= i < |s.ws| ==> (s.ws[i].pc.Idle? <==> i >= s.next)
    ensures PhaseOk(p, Next(p, s, l))
  {
    MainFrame(p, s, l);
    if l.Reject? || l.Open? { assert Quiescent(s); }
  }

  lemma ShapeMain(p: Params, s: State, l: Label)
    requires p.Valid() && Shape(p, s) && Enabled(p, s, l) && MainOnly(p, l)
    ensures Shape(p, Next(p, s, l))
  {
    MainFrame(p, s, l);
    PhaseMain(p, s, l);
  }

  lemma ShapeStep(p: Params, s: State, l: Label)
    requires p.Valid() && Shape(p, s) && Enabled(p, s, l)
    ensures Shape(p, Next(p, s, l))
  {
    match l
    case Work(i, act) => ShapeMove(p, s, i, act);
    case Acquire => ShapeAcquire(p, s);
    case Open(_, _) => if p.Single() { ShapeOpen(p, s, l); } else { ShapeMain(p, s, l); }
    case _ => ShapeMain(p, s, l);
  }

  // ---- What the counters say ----

  /** A worker's own counts fit its place in the retry loop, and a chunk that returned
      without error returned exactly its own length. */
  ghost predicate WorkerOk(p: Params, i: nat, w: Worker)
    requires p.Valid() && i < |p.Chunks()|
  {
    match w.pc
    case Idle => w.gets == 0 && w.naps == 0
    case Ready(k) => w.gets == w.naps == k <= p.maxRetries
    case Connecting(k, _) => w.gets == k + 1 && w.naps == k <= p.maxRetries
    case Copying(k, _, off, _) => w.gets == k + 1 && w.naps == k <= p.maxRetries && off >= p.Chunks()[i].start
    case Holding(k, _, off, buf, _) =>
      w.gets == k + 1 && w.naps == k <= p.maxRetries && off >= p.Chunks()[i].start && buf != []
    case Rolling(k, _, rd) => w.gets == k + 1 && w.naps == k <= p.maxRetries && rd >= 0
    case Subtracting(k, _, rd) => w.gets == k + 1 && w.naps == k <= p.maxRetries && rd >= 0
    case Deciding(k) => w.gets == k + 1 && w.naps == k <= p.maxRetries
    case Sleeping(k) => w.gets == w.naps == k && 1 <= k <= p.maxRetries
    case Returning(ok, n) => Result(p, i, w, ok, n)
    case Leaving(ok, n) => Result(p, i, w, ok, n)
    case Exited(ok, n) => Result(p, i, w, ok, n)
  }

  ghost predicate Result(p: Params, i: nat, w: Worker, ok: bool, n: int)
    requires p.Valid() && i < |p.Chunks()|
  {
    && w.naps <= p.maxRetries
    && w.naps <= w.gets <= w.naps + 1
    && (ok ==> w.gets == w.naps + 1 && n >= 0 && (!p.Single() ==> n == p.Chunks()[i].Size()))
  }

  ghost predicate WorkersOk(p: Params, ws: seq<Worker>)
    requires p.Valid() && |ws| == |p.Chunks()|
  {
    forall i :: 0 <= i < |ws| ==> WorkerOk(p, i, ws[i])
  }

  predicate Sums(s: State)
  {
    s.totalWritten == Tally(Gain, s.ws) && s.retries == Tally(Naps, s.ws)
  }

  /** firstErr names a goroutine that failed, and is set as soon as one has. */
  predicate Errors(ws: seq<Worker>, firstErr: Option<nat>)
  {
    && (firstErr.Some? ==> firstErr.value < |ws| && Fallen(ws[firstErr.value]))
    && (forall i :: 0 <= i < |ws| && Fallen(ws[i]) ==> firstErr.Some?)
  }

  /** What has been decided agrees with the counts: a transfer that gets past the size
      check has no error and all its bytes, and the outcome reports the shared variables. */
  predicate Verdicts(p: Params, s: State)
  {
    match s.phase
    case Start => s.firstErr.None?
    case Syncing => s.firstErr.None?
    case Sizing => s.firstErr.None?
    case Hashing => s.firstErr.None? && s.totalWritten == p.total
    case Renaming(_) => s.firstErr.None? && s.totalWritten == p.total
    case Cleanup(why) => Blames(s, why)
    case Ended(Failed(why)) => Blames(s, why)
    case Ended(Success(bytes, chunks, retries, _)) =>
      s.firstErr.None? && bytes == s.totalWritten == p.total && chunks == |s.ws| && retries == s.retries
    case _ => true
  }

  /** The error returned is the first chunk error when there is one. */
  predicate Blames(s: State, why: Failure)
  {
    if s.firstErr.Some? then why == ChunkError(s.firstErr.value) else !why.ChunkError?
  }

  ghost predicate Counts(p: Params, s: State)
    requires p.Valid()
  {
    |s.ws| == |p.Chunks()| && WorkersOk(p, s.ws) && Sums(s) && Errors(s.ws, s.firstErr) && Verdicts(p, s)
  }

  lemma CountsInit(p: Params, tmp: Option<Bytes>, dst: Option<Bytes>)
    requires p.Valid()
    ensures Counts(p, Init(p, tmp, dst))
  {
    TallyConstant(Gain, Init(p, tmp, dst).ws, 0);
    TallyConstant(Naps, Init(p, tmp, dst).ws, 0);
  }

  lemma MovedOk(p: Params, i: nat, counter: int, cancelled: bool, w: Worker, act: Act)
    requires p.Valid() && i < |p.Chunks()| && Can(p, cancelled, w, act) && WorkerOk(p, i, w)
    ensures WorkerOk(p, i, Moved(p, p.Chunks()[i], counter, cancelled, w, act))
  {
  }

  lemma WorkersOkMove(p: Params, s: State, i: nat, act: Act)
    requires p.Valid() && Enabled(p, s, Work(i, act)) && WorkersOk(p, s.ws)
    ensures WorkersOk(p, Next(p, s, Work(i, act)).ws)
  {
    assert WorkerOk(p, i, s.ws[i]);
    MovedOk(p, i, s.counter, s.cancelled, s.ws[i], act);
  }

  lemma CountsMove(p: Params, s: State, i: nat, act: Act)
    requires p.Valid() && Shape(p, s) && Counts(p, s) && Enabled(p, s, Work(i, act))
    ensures Counts(p, Next(p, s, Work(i, act)))
  {
    WorkersOkMove(p, s, i, act);
    var t := Next(p, s, Work(i, act));
    MovedEffect(p, p.Chunks()[i], s.counter, s.cancelled, s.ws[i], act);
    TallyUpdate(Gain, s.ws, i, t.ws[i]);
    TallyUpdate(Naps, s.ws, i, t.ws[i]);
    assert Sums(t);
    assert Errors(t.ws, t.firstErr);
    assert !Quiescent(s) && !s.phase.Start?;
  }

  /** Starting a goroutine changes no sum and no verdict. */
  lemma CountsSpawn(p: Params, s: State, i: nat, t: State)
    requires p.Valid() && Counts(p, s) && i < |s.ws| && s.ws[i].pc.Idle? && t.ws == s.ws[i := FRESH]
    requires t.totalWritten == s.totalWritten && t.retries == s.retries && t.firstErr == s.firstErr
    ensures WorkersOk(p, t.ws) && Sums(t) && Errors(t.ws, t.firstErr)
  {
    assert WorkerOk(p, i, s.ws[i]);
    assert WorkerOk(p, i, FRESH);
    TallyUpdate(Gain, s.ws, i, FRESH);
    TallyUpdate(Naps, s.ws, i, FRESH);
  }

  /** The main goroutine and the environment move no worker and decide by the counts. */
  lemma CountsMain(p: Params, s: State, l: Label)
    requires p.Valid() && Shape(p, s) && Verdicts(p, s) && Enabled(p, s, l)
    requires MainOnly(p, l)
    ensures var t := Next(p, s, l);
            t.ws == s.ws && t.totalWritten == s.totalWritten && t.retries == s.retries &&
                t.firstErr == s.firstErr && Verdicts(p, t)
  {
  }

  lemma CountsStep(p: Params, s: State, l: Label)
    requires p.Valid() && Shape(p, s) && Counts(p, s) && Enabled(p, s, l)
    ensures Counts(p, Next(p, s, l))
  {
    match l
    case Work(i, act) => CountsMove(p, s, i, act);
    case Acquire => CountsSpawn(p, s, s.next, Next(p, s, l));
    case Open(_, _) =>
      if p.Single() {
        assert s.ws[0 := FRESH] == [FRESH];
        CountsSpawn(p, s, 0, Next(p, s, l));
      } else {
        CountsMain(p, s, l);
      }
    case _ => CountsMain(p, s, l);
  }

  // ---- Whole runs ----

  ghost predicate Inv(p: Params, s: State)
    requires p.Valid()
  {
    Shape(p, s) && Counts(p, s)
  }

  lemma InvInit(p: Params, tmp: Option<Bytes>, dst: Option<Bytes>)
    requires p.Valid()
    ensures Inv(p, Init(p, tmp, dst))
  {
    ShapeInit(p, tmp, dst);
    CountsInit(p, tmp, dst);
  }

  lemma InvStep(p: Params, s: State, l: Label)
    requires p.Valid() && Inv(p, s) && Enabled(p, s, l)
    ensures Inv(p, Next(p, s, l))
  {
    ShapeStep(p, s, l);
    CountsStep(p, s, l);
  }

  lemma {:induction false} InvAlong(p: Params, s: State, ls: seq<Label>)
    requires p.Valid() && Inv(p, s) && Follows(p, s, ls)
    ensures Inv(p, After(p, s, ls))
    decreases |ls|
  {
    if ls != [] {
      InvStep(p, s, ls[0]);
      InvAlong(p, Next(p, s, ls[0]), ls[1..]);
    }
  }

  // ---- Why the byte count is enough ----

  predicate Landed(w: Worker) { (w.pc.Leaving? || w.pc.Exited?) && w.pc.ok }

  lemma GainBound(p: Params, i: nat, w: Worker)
    requires p.Valid() && !p.Single() && i < |p.Chunks()| && WorkerOk(p, i, w)
    ensures Gain(w) <= p.Chunks()[i].Size()
    ensures Gain(w) == p.Chunks()[i].Size() <==> Landed(w)
  {
    SplitShape(p.total, p.chunkSize, i);
  }

  lemma GainsAgainstSizes(cs: seq<Chunk>, ws: seq<Worker>)
    requires |cs| == |ws|
    requires forall i :: 0 <= i < |ws| ==>
        Gain(ws[i]) <= cs[i].Size() && (Gain(ws[i]) == cs[i].Size() <==> Landed(ws[i]))
    ensures Tally(Gain, ws) <= Sum(Sizes(cs))
    ensures Tally(Gain, ws) == Sum(Sizes(cs)) <==> forall i :: 0 <= i < |ws| ==> Landed(ws[i])
  {
    var a, b := Terms(Gain, ws), Sizes(cs);
    SumCompare(a, b);
    if a == b {
      forall i | 0 <= i < |ws| ensures Landed(ws[i]) {
        assert a[i] == b[i];
      }
    }
  }

  /** In a parallel transfer the count never passes the total, and reaches it exactly when
      every chunk has returned without error. */
  lemma ByteCount(p: Params, s: State)
    requires p.Valid() && Counts(p, s) && !p.Single()
    ensures s.totalWritten <= p.total
    ensures s.totalWritten == p.total <==> forall i :: 0 <= i < |s.ws| ==> Landed(s.ws[i])
  {
    forall i | 0 <= i < |s.ws|
      ensures Gain(s.ws[i]) <= p.Chunks()[i].Size() && (Gain(s.ws[i]) == p.Chunks()[i].Size() <==> Landed(s.ws[i]))
    {
      GainBound(p, i, s.ws[i]);
    }
    GainsAgainstSizes(p.Chunks(), s.ws);
    SplitTotal(p.total, p.chunkSize);
  }

  /** After an outside cancel left chunks undispatched, downloadParallel may return no error,
      and Download then rejects the transfer by its size. */
  lemma UndispatchedIsRejected(p: Params, s: State)
    requires p.Valid() && Inv(p, s) && s.phase.Sizing? && s.next < |s.ws|
    ensures Next(p, s, CheckSize).phase == Cleanup(SizeMismatch)
  {
    assert s.ws[s.next].pc.Idle?;
    ByteCount(p, s);
  }

  /** No goroutine is left, none has failed, and the bytes add up. */
  predicate Arrived(p: Params, s: State)
  {
    Onward(s) && Quiescent(s) && s.firstErr.None? && s.totalWritten == p.total
  }

  lemma AllArrived(p: Params, s: State)
    requires p.Valid() && Inv(p, s) && Arrived(p, s)
    ensures s.next == |s.ws|
    ensures forall i :: 0 <= i < |s.ws| ==> s.ws[i].pc.Exited? && s.ws[i].pc.ok
  {
    if !p.Single() {
      ByteCount(p, s);
      assert s.next < |s.ws| ==> !Landed(s.ws[s.next]);
    }
  }

  /** Whoever gets to the rename has every chunk, and no goroutine left. */
  lemma AllLanded(p: Params, s: State)
    requires p.Valid() && Inv(p, s) && (s.phase.Renaming? || Succeeded(s))
    ensures Arrived(p, s) && s.next == |s.ws|
    ensures forall i :: 0 <= i < |s.ws| ==> s.ws[i].pc.Exited? && s.ws[i].pc.ok
  {
    AllArrived(p, s);
  }

  // ---- Requests and retries ----

  /** Never more requests than chunks times attempts. */
  lemma RequestBound(p: Params, s: State)
    requires p.Valid() && Inv(p, s)
    ensures Requests(s) <= |p.Chunks()| * (p.maxRetries + 1)
  {
    var most := (w: Worker) => p.maxRetries + 1;
    forall i | 0 <= i < |s.ws| ensures Gets(s.ws[i]) <= most(s.ws[i]) {
      assert WorkerOk(p, i, s.ws[i]);
    }
    TallyCompare(Gets, most, s.ws);
    TallyConstant(most, s.ws, p.maxRetries + 1);
  }

  function Extra(w: Worker): int { w.naps + 1 }

  /** On success the retries reported are the requests beyond one for each chunk. */
  lemma RetriesReported(p: Params, s: State)
    requires p.Valid() && Inv(p, s) && Succeeded(s)
    ensures s.phase.outcome.retries == Requests(s) - |p.Chunks()|
  {
    AllLanded(p, s);
    forall i | 0 <= i < |s.ws| ensures Gets(s.ws[i]) == Extra(s.ws[i]) {
      assert WorkerOk(p, i, s.ws[i]);
    }
    assert Terms(Gets, s.ws) == Terms(Extra, s.ws);
    ExtraSum(s.ws);
  }

  lemma {:induction false} ExtraSum(ws: seq<Worker>)
    ensures Tally(Extra, ws) == Tally(Naps, ws) + |ws|
  {
    if ws != [] {
      assert Terms(Extra, ws)[1..] == Terms(Extra, ws[1..]);
      assert Terms(Naps, ws)[1..] == Terms(Naps, ws[1..]);
      ExtraSum(ws[1..]);
    }
  }
}
