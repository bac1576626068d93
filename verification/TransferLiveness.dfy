/** Every transfer ends, and until it has ended somebody can move. */
module TransferLiveness {
  import opened Prelude
  import opened Storage
  import opened Chunking
  import opened Transfer
  import opened TransferInvariants

  /** What a goroutine still has ahead, attempts first and then the place within an attempt. */
  function WorkerRank(p: Params, w: Worker): int
  {
    var r := p.maxRetries;
    match w.pc
    case Idle => 8 * r + 20
    case Sleeping(k) => 8 * (r - k) + 11
    case Ready(k) => 8 * (r - k) + 10
    case Connecting(k, _) => 8 * (r - k) + 9
    case Copying(k, _, _, _) => 8 * (r - k) + 8
    case Holding(k, _, _, _, _) => 8 * (r - k) + 8
    case Rolling(k, _, _) => 8 * (r - k) + 7
    case Subtracting(k, _, _) => 8 * (r - k) + 6
    case Deciding(k) => 8 * (r - k) + 5
    case Returning(_, _) => 3
    case Leaving(_, _) => 2
    case Exited(_, _) => 0
  }

  function RankOf(p: Params): Worker -> int { (w: Worker) => WorkerRank(p, w) }

  /** Bytes of the current body still to be handled. */
  function BodyRank(w: Worker): int
  {
    match w.pc
    case Copying(_, _, _, rest) => 2 * |rest|
    case Holding(_, _, _, _, rest) => 2 * |rest| + 1
    case _ => 0
  }

  function PhaseRank(s: State): int
  {
    var undispatched := |s.ws| - s.next;
    match s.phase
    case Start => 2 * undispatched + 12
    case Dispatch => 2 * undispatched + 11
    case Admit => 2 * undispatched + 10
    case Waiting => 9
    case Syncing => 8
    case Sizing => 7
    case Hashing => 6
    case Renaming(_) => 5
    case Cleanup(_) => 4
    case Ended(_) => 0
    case Crashed => 0
  }

  /** The measure: undispatched chunks, attempts and phases first, then the bytes of the bodies. */
  function Coarse(p: Params, s: State): int
  {
    PhaseRank(s) + Tally(RankOf(p), s.ws) + (if s.outside then 0 else 1)
  }

  function Fine(s: State): int { Tally(BodyRank, s.ws) }

  predicate Below(p: Params, t: State, s: State)
  {
    Coarse(p, t) < Coarse(p, s) || (Coarse(p, t) == Coarse(p, s) && Fine(t) < Fine(s))
  }

  lemma {:induction false} SumNonNegative(s: seq<int>)
    requires forall i :: 0 <= i < |s| ==> s[i] >= 0
    ensures Sum(s) >= 0
  {
    if s != [] { SumNonNegative(s[1..]); }
  }

  lemma Bounded(p: Params, s: State)
    requires p.Valid() && Inv(p, s)
    ensures Coarse(p, s) >= 0 && Fine(s) >= 0
  {
    forall i | 0 <= i < |s.ws| ensures RankOf(p)(s.ws[i]) >= 0 {
      assert WorkerOk(p, i, s.ws[i]);
    }
    SumNonNegative(Terms(RankOf(p), s.ws));
    SumNonNegative(Terms(BodyRank, s.ws));
  }

  /** The attempt under way is one of the maxRetries + 1 allowed. */
  predicate InBudget(p: Params, pc: Pc)
  {
    pc.Idle? || pc.Returning? || pc.Leaving? || pc.Exited? || pc.k <= p.maxRetries
  }

  lemma MovedDescends(p: Params, c: Chunk, counter: int, cancelled: bool, w: Worker, act: Act)
    requires Can(p, cancelled, w, act)
    requires InBudget(p, w.pc)
    ensures var v := Moved(p, c, counter, cancelled, w, act);
            WorkerRank(p, v) < WorkerRank(p, w) || (WorkerRank(p, v) == WorkerRank(p, w) && BodyRank(v) < BodyRank(w))
  {
  }

  /** A worker that goes down takes the measure down, when the main goroutine stands still. */
  lemma WorkerDescends(p: Params, s: State, i: nat, v: Worker, t: State)
    requires i < |s.ws| && t.ws == s.ws[i := v]
    requires t.phase == s.phase && t.next == s.next && t.outside == s.outside
    requires WorkerRank(p, v) < WorkerRank(p, s.ws[i]) || (WorkerRank(p, v) == WorkerRank(p, s.ws[i]) &&
        BodyRank(v) < BodyRank(s.ws[i]))
    ensures Below(p, t, s)
  {
    TallyUpdate(RankOf(p), s.ws, i, v);
    TallyUpdate(BodyRank, s.ws, i, v);
  }

  lemma OkInBudget(p: Params, i: nat, w: Worker)
    requires p.Valid() && i < |p.Chunks()| && WorkerOk(p, i, w)
    ensures InBudget(p, w.pc)
  {
  }

  lemma MoveDescends(p: Params, s: State, i: nat, act: Act)
    requires p.Valid() && Inv(p, s) && Enabled(p, s, Work(i, act))
    ensures Below(p, Next(p, s, Work(i, act)), s)
  {
    OkInBudget(p, i, s.ws[i]);
    var v := Moved(p, p.Chunks()[i], s.counter, s.cancelled, s.ws[i], act);
    MovedDescends(p, p.Chunks()[i], s.counter, s.cancelled, s.ws[i], act);
    WorkerDescends(p, s, i, v, Move(p, s, i, act));
  }

  lemma SpawnDescends(p: Params, s: State, i: nat, t: State)
    requires i < |s.ws| && s.ws[i].pc.Idle? && t.ws == s.ws[i := FRESH]
    ensures Tally(RankOf(p), t.ws) == Tally(RankOf(p), s.ws) - 10
  {
    TallyUpdate(RankOf(p), s.ws, i, FRESH);
  }

  /** The main goroutine and the environment, when they start no goroutine. */
  lemma MainDescends(p: Params, s: State, l: Label)
    requires p.Valid() && s.next <= |s.ws| && Enabled(p, s, l) && MainOnly(p, l)
    ensures var t := Next(p, s, l);
            t.ws == s.ws && PhaseRank(t) + (if t.outside then 0 else 1) < PhaseRank(s) + (if s.outside then 0 else 1)
  {
  }

  /** Every step takes the measure down, whoever moves and whatever the environment answers. */
  lemma StepDescends(p: Params, s: State, l: Label)
    requires p.Valid() && Inv(p, s) && Enabled(p, s, l)
    ensures Below(p, Next(p, s, l), s)
  {
    match l
    case Work(i, act) => MoveDescends(p, s, i, act);
    case Acquire => SpawnDescends(p, s, s.next, Next(p, s, l));
    case Open(_, _) =>
      if p.Single() {
        assert s.ws[0 := FRESH] == [FRESH];
        SpawnDescends(p, s, 0, Next(p, s, l));
      } else {
        MainDescends(p, s, l);
      }
    case _ => MainDescends(p, s, l);
  }

  /** f and ls are an infinite run, so far as moment n goes. */
  ghost predicate StepAt(p: Params, f: nat -> State, ls: nat -> Label, n: nat)
    requires p.Valid()
  {
    Enabled(p, f(n), ls(n)) && f(n + 1) == Next(p, f(n), ls(n))
  }

  lemma {:induction false} Descent(p: Params, f: nat -> State, ls: nat -> Label, n: nat)
    requires p.Valid() && Inv(p, f(n)) && forall m: nat :: StepAt(p, f, ls, m)
    ensures false
    decreases (Bounded(p, f(n)); Coarse(p, f(n))), Fine(f(n))
  {
    Bounded(p, f(n));
    assert StepAt(p, f, ls, n);
    InvStep(p, f(n), ls(n));
    StepDescends(p, f(n), ls(n));
    Bounded(p, f(n + 1));
    Descent(p, f, ls, n + 1);
  }

  /** No run goes on for ever. */
  lemma Terminates(p: Params, tmp: Option<Bytes>, dst: Option<Bytes>, f: nat -> State, ls: nat -> Label)
    requires p.Valid() && f(0) == Init(p, tmp, dst)
    ensures exists n: nat :: !StepAt(p, f, ls, n)
  {
    InvInit(p, tmp, dst);
    if forall n: nat :: StepAt(p, f, ls, n) {
      Descent(p, f, ls, 0);
    }
  }

  /** What goroutine w can do next, with no help from outside and no help from the other goroutines. */
  function OwnMove(w: Worker): Act
    requires !Parked(w)
  {
    match w.pc
    case Ready(_) => Begin
    case Connecting(_, _) => Refuse
    case Copying(_, _, _, rest) => if rest == [] then End else Read(1)
    case Holding(_, _, _, buf, _) => Write(|buf|)
    case Rolling(_, _, _) => Load
    case Subtracting(_, _, _) => Subtract
    case Deciding(_) => Decide
    case Sleeping(_) => Wake
    case Returning(_, _) => Return
    case _ => Leave
  }

  /** No deadlock: until the transfer is over, a step other than a cancel or a crash is possible,
      and any goroutine that is not parked has a step of its own. */
  lemma SomeoneMoves(p: Params, s: State) returns (l: Label)
    requires p.Valid() && Inv(p, s) && !s.Over()
    ensures Enabled(p, s, l) && !l.Cancel? && !l.Crash?
    ensures forall i :: 0 <= i < |s.ws| && !Parked(s.ws[i]) ==> Enabled(p, s, Work(i, OwnMove(s.ws[i])))
  {
    match s.phase
    case Start => l := Reject;
    case Dispatch => l := Check;
    case Admit =>
      if s.slots < p.concurrency {
        l := Acquire;
      } else {
        var i := SomeLive(s.ws);
        l := Work(i, OwnMove(s.ws[i]));
      }
    case Waiting =>
      if Quiescent(s) {
        l := WaitDone;
      } else {
        var i :| 0 <= i < |s.ws| && !Parked(s.ws[i]);
        l := Work(i, OwnMove(s.ws[i]));
      }
    case Syncing => l := Sync(true);
    case Sizing => l := CheckSize;
    case Hashing => l := CheckHash(true);
    case Renaming(_) => l := Rename(false);
    case Cleanup(_) => l := Remove;
  }

  /** A full semaphore means a live goroutine. */
  lemma SomeLive(ws: seq<Worker>) returns (i: nat)
    requires Tally(Alive, ws) >= 1
    ensures i < |ws| && !Parked(ws[i])
  {
    if forall j :: 0 <= j < |ws| ==> Parked(ws[j]) {
      TallyConstant(Alive, ws, 0);
    }
    i :| i < |ws| && !Parked(ws[i]);
  }

  /** A run that can go no further has ended: it returned, or the process crashed. */
  lemma MaximalRunsEnd(p: Params, tmp: Option<Bytes>, dst: Option<Bytes>, ls: seq<Label>)
    requires p.Valid() && Follows(p, Init(p, tmp, dst), ls)
    requires forall l: Label :: !Enabled(p, After(p, Init(p, tmp, dst), ls), l)
    ensures After(p, Init(p, tmp, dst), ls).Over()
  {
    InvInit(p, tmp, dst);
    InvAlong(p, Init(p, tmp, dst), ls);
    if !After(p, Init(p, tmp, dst), ls).Over() {
      var l := SomeoneMoves(p, After(p, Init(p, tmp, dst), ls));
    }
  }

  // ---- Cancellation ----

  /** 1 when the dispatcher is past its context check with a chunk in hand. */
  function Admitted(s: State): int { if s.phase.Admit? then 1 else 0 }

  /** From a cancelled state on, at most one more chunk is dispatched, and none unless the
      dispatcher is already past its check; and the first error stays the one kept. */
  lemma CancelStep(p: Params, s: State, l: Label)
    requires p.Valid() && Shape(p, s) && Enabled(p, s, l) && !p.Single()
    ensures var t := Next(p, s, l);
            && (s.cancelled ==> t.cancelled)
            && (s.cancelled ==> t.next + Admitted(t) <= s.next + Admitted(s))
            && (s.firstErr.Some? ==> t.firstErr == s.firstErr)
            && (t.firstErr != s.firstErr ==> t.cancelled)
  {
  }

  lemma {:induction false} CancelStopsDispatch(p: Params, s: State, ls: seq<Label>)
    requires p.Valid() && Shape(p, s) && Follows(p, s, ls) && !p.Single() && s.cancelled
    ensures After(p, s, ls).next <= s.next + Admitted(s)
    decreases |ls|
  {
    if ls != [] {
      ShapeStep(p, s, ls[0]);
      CancelStep(p, s, ls[0]);
      CancelStopsDispatch(p, Next(p, s, ls[0]), ls[1..]);
    }
  }

  lemma {:induction false} FirstErrorKept(p: Params, s: State, ls: seq<Label>)
    requires p.Valid() && Inv(p, s) && Follows(p, s, ls) && s.firstErr.Some?
    ensures var t := After(p, s, ls);
            && t.firstErr == s.firstErr
            && (t.phase.Ended? ==> t.phase.outcome == Failed(ChunkError(s.firstErr.value)))
    decreases |ls|
  {
    if ls != [] {
      InvStep(p, s, ls[0]);
      FirstErrorKept(p, Next(p, s, ls[0]), ls[1..]);
    }
  }
}
