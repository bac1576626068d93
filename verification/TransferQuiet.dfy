/** Runs in which nothing goes wrong: they succeed, without a retry. */
module TransferQuiet {
  import opened Prelude
  import opened Storage
  import opened Chunking
  import opened Transfer
  import opened TransferInvariants
  import opened TransferContent
  import opened TransferLiveness

  /** No fault in a goroutine's step: its request is accepted and answered with the whole slice asked
      for, the body ends as it should, and the disk takes what it is given. */
  predicate CalmAct(p: Params, obj: Bytes, i: nat, w: Worker, act: Act)
    requires p.Valid() && i < |p.Chunks()| && |obj| == p.total && (act.Write? ==> w.pc.Holding?)
  {
    match act
    case Refuse => false
    case Accept(body) => body == Slice(p, obj, i)
    case OpenFail(_) => false
    case Write(n) => n == |w.pc.buf|
    case Break => false
    case _ => true
  }

  /** No fault: the checks pass, files open, sync, read back and rename; nobody cancels, nothing crashes. */
  predicate Calm(p: Params, obj: Bytes, s: State, l: Label)
    requires p.Valid() && Enabled(p, s, l) && |obj| == p.total
  {
    match l
    case Reject => false
    case Open(ok, _) => p.Single() || ok
    case Sync(ok) => ok
    case CheckHash(readable) => readable
    case Rename(ok) => ok
    case Cancel => false
    case Crash => false
    case Work(i, act) => CalmAct(p, obj, i, s.ws[i], act)
    case _ => true
  }

  predicate AllCalm(p: Params, obj: Bytes, s: State, ls: seq<Label>)
    requires p.Valid() && Follows(p, s, ls) && |obj| == p.total
    decreases |ls|
  {
    ls != [] ==> Calm(p, obj, s, ls[0]) && AllCalm(p, obj, Next(p, s, ls[0]), ls[1..])
  }

  /** A goroutine in its first attempt, with the rest of its chunk to come, or done with all of it. */
  predicate Untroubled(c: Chunk, pc: Pc)
  {
    match pc
    case Idle => true
    case Ready(k) => k == 0
    case Connecting(k, _) => k == 0
    case Copying(k, _, off, rest) => k == 0 && off + |rest| == c.start + c.Size()
    case Holding(k, _, off, buf, rest) => k == 0 && off + |buf| + |rest| == c.start + c.Size()
    case Returning(ok, n) => ok && n == c.Size()
    case Leaving(ok, n) => ok && n == c.Size()
    case Exited(ok, n) => ok && n == c.Size()
    case _ => false
  }

  lemma UntroubledMove(p: Params, obj: Bytes, i: nat, counter: int, w: Worker, act: Act)
    requires p.Valid() && i < |p.Chunks()| && |obj| == p.total && Can(p, false, w, act)
    requires Untroubled(p.Chunks()[i], w.pc) && CalmAct(p, obj, i, w, act)
    ensures Untroubled(p.Chunks()[i], Moved(p, p.Chunks()[i], counter, false, w, act).pc)
    ensures !act.Decide? && (act.Return? ==> w.pc.ok)
  {
    ChunkInside(p, i);
  }

  /** The way of a transfer nothing has happened to. */
  predicate OnItsWay(p: Params, s: State)
    requires p.Valid()
  {
    match s.phase
    case Start => true
    case Dispatch => true
    case Admit => true
    case Renaming(verified) => verified == p.verify
    case Cleanup(_) => false
    case Ended(outcome) => outcome == Success(p.total, |p.Chunks()|, 0, p.verify)
    case Crashed => false
    case _ => s.next == |s.ws|
  }

  ghost predicate Smooth(p: Params, s: State)
    requires p.Valid()
  {
    && |s.ws| == |p.Chunks()| && !s.cancelled && s.firstErr.None? && s.retries == 0 && OnItsWay(p, s)
    && (s.phase.Hashing? ==> p.verify)
    && forall i :: 0 <= i < |s.ws| ==> Untroubled(p.Chunks()[i], s.ws[i].pc)
  }

  lemma SmoothMove(p: Params, obj: Bytes, s: State, i: nat, act: Act)
    requires p.Valid() && |obj| == p.total && Smooth(p, s) && Enabled(p, s, Work(i, act))
    requires CalmAct(p, obj, i, s.ws[i], act)
    ensures Smooth(p, Next(p, s, Work(i, act)))
  {
    UntroubledMove(p, obj, i, s.counter, s.ws[i], act);
  }

  /** When the goroutines are through, all bytes are there. */
  lemma BytesIn(p: Params, s: State)
    requires p.Valid() && Inv(p, s) && Smooth(p, s) && s.phase.Sizing?
    ensures s.totalWritten == p.total
  {
    forall i | 0 <= i < |s.ws| ensures Landed(s.ws[i]) {
      assert Parked(s.ws[i]) && !s.ws[i].pc.Idle? && Untroubled(p.Chunks()[i], s.ws[i].pc);
    }
    if p.Single() {
      assert Untroubled(p.Chunks()[0], s.ws[0].pc);
      TallyConstant(Gain, s.ws, p.total);
    } else {
      ByteCount(p, s);
    }
  }

  lemma SmoothMain(p: Params, obj: Bytes, s: State, l: Label)
    requires p.Valid() && Inv(p, s) && Intact(p, obj, s) && Smooth(p, s) && (p.verify ==> p.md5(obj) == p.etag)
    requires Enabled(p, s, l) && Calm(p, obj, s, l) && MainOnly(p, l)
    ensures Smooth(p, Next(p, s, l))
  {
    MainFrame(p, s, l);
    if l.CheckSize? { BytesIn(p, s); }
    if l.CheckHash? { Complete(p, obj, s); }
  }

  lemma SmoothStep(p: Params, obj: Bytes, s: State, l: Label)
    requires p.Valid() && Inv(p, s) && Intact(p, obj, s) && Smooth(p, s) && (p.verify ==> p.md5(obj) == p.etag)
    requires Enabled(p, s, l) && Calm(p, obj, s, l)
    ensures Smooth(p, Next(p, s, l)) && HonestLabel(p, obj, l)
  {
    match l
    case Work(i, act) => SmoothMove(p, obj, s, i, act);
    case Acquire =>
    case Open(_, _) => if !p.Single() { SmoothMain(p, obj, s, l); }
    case _ => SmoothMain(p, obj, s, l);
  }

  lemma {:induction false} SmoothAlong(p: Params, obj: Bytes, dst0: Option<Bytes>, tmp0: Option<Bytes>, s: State,
          ls: seq<Label>)
    requires p.Valid() && Inv(p, s) && Intact(p, obj, s) && Published(p, obj, tmp0, dst0, s) && Smooth(p, s)
    requires (p.verify ==> p.md5(obj) == p.etag) && Follows(p, s, ls) && AllCalm(p, obj, s, ls)
    ensures var t := After(p, s, ls);
            Inv(p, t) && Intact(p, obj, t) && Published(p, obj, tmp0, dst0, t) && Smooth(p, t)
    decreases |ls|
  {
    if ls != [] {
      SmoothStep(p, obj, s, ls[0]);
      InvStep(p, s, ls[0]);
      IntactStep(p, obj, s, ls[0]);
      PublishedStep(p, obj, tmp0, dst0, s, ls[0]);
      SmoothAlong(p, obj, dst0, tmp0, Next(p, s, ls[0]), ls[1..]);
    }
  }

  /** Whatever the interleaving: in a run without a fault no error is kept and nothing is retried, and
      if the call has ended it is a success that has published the object. */
  lemma QuietRuns(p: Params, obj: Bytes, tmp: Option<Bytes>, dst: Option<Bytes>, ls: seq<Label>)
    requires p.Valid() && |obj| == p.total && (p.verify ==> p.md5(obj) == p.etag)
    requires Follows(p, Init(p, tmp, dst), ls) && AllCalm(p, obj, Init(p, tmp, dst), ls)
    ensures var s := After(p, Init(p, tmp, dst), ls);
            && s.firstErr.None? && s.retries == 0 && !s.phase.Cleanup? && !s.phase.Crashed?
            && (s.phase.Ended? ==>
                  s.phase.outcome == Success(p.total, |p.Chunks()|, 0, p.verify) && s.dst == Some(obj))
  {
    InvInit(p, tmp, dst);
    SmoothAlong(p, obj, dst, tmp, Init(p, tmp, dst), ls);
  }

  /** A goroutine that is under way has a step without a fault. */
  lemma CalmOwnMove(p: Params, obj: Bytes, i: nat, w: Worker) returns (act: Act)
    requires p.Valid() && i < |p.Chunks()| && |obj| == p.total && Untroubled(p.Chunks()[i], w.pc) && !Parked(w)
    ensures Can(p, false, w, act) && CalmAct(p, obj, i, w, act)
  {
    act := if w.pc.Connecting? then Accept(Slice(p, obj, i)) else OwnMove(w);
  }

  /** And until the call has ended, some step without a fault is possible. */
  lemma CalmMoves(p: Params, obj: Bytes, s: State) returns (l: Label)
    requires p.Valid() && |obj| == p.total && Inv(p, s) && Intact(p, obj, s) && Smooth(p, s) && !s.Over()
    ensures Enabled(p, s, l) && Calm(p, obj, s, l)
  {
    var i: nat;
    if s.phase.Start? {
      l := Open(true, false);
    } else if s.phase.Dispatch? {
      l := Check;
    } else if s.phase.Admit? && s.slots < p.concurrency {
      l := Acquire;
    } else if s.phase.Admit? {
      i := SomeLive(s.ws);
      var act := CalmOwnMove(p, obj, i, s.ws[i]);
      l := Work(i, act);
    } else if s.phase.Waiting? && Quiescent(s) {
      l := WaitDone;
    } else if s.phase.Waiting? {
      i :| 0 <= i < |s.ws| && !Parked(s.ws[i]);
      var act := CalmOwnMove(p, obj, i, s.ws[i]);
      l := Work(i, act);
    } else if s.phase.Syncing? {
      l := Sync(true);
    } else if s.phase.Sizing? {
      l := CheckSize;
    } else if s.phase.Hashing? {
      l := CheckHash(true);
    } else {
      Complete(p, obj, s);
      l := Rename(true);
    }
  }

  /** So a run without a fault that can only go on with one has succeeded, without a retry, and has
      published the object. */
  lemma QuietRunsSucceed(p: Params, obj: Bytes, tmp: Option<Bytes>, dst: Option<Bytes>, ls: seq<Label>)
    requires p.Valid() && |obj| == p.total && (p.verify ==> p.md5(obj) == p.etag)
    requires Follows(p, Init(p, tmp, dst), ls) && AllCalm(p, obj, Init(p, tmp, dst), ls)
    requires var s := After(p, Init(p, tmp, dst), ls); forall l: Label :: Enabled(p, s, l) ==> !Calm(p, obj, s, l)
    ensures var s := After(p, Init(p, tmp, dst), ls);
            s.phase == Ended(Success(p.total, |p.Chunks()|, 0, p.verify)) && s.dst == Some(obj)
  {
    InvInit(p, tmp, dst);
    SmoothAlong(p, obj, dst, tmp, Init(p, tmp, dst), ls);
    if !After(p, Init(p, tmp, dst), ls).Over() {
      var l := CalmMoves(p, obj, After(p, Init(p, tmp, dst), ls));
    }
  }
}
