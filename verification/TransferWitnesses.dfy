/** Where the hypotheses of the transfer's theorems end: the exact conditions, with the runs that
    fail outside them, for every configuration. */
module TransferWitnesses {
  import opened Prelude
  import opened Storage
  import opened Chunking
  import opened Transfer
  import opened TransferInvariants
  import opened TransferContent
  import opened TransferProgress
  import opened TransferRuns

  const ANY: Server := (i, body) => true

  // ---- The progress counter ----

  /** Two chunks can be under way at once. */
  predicate Overlaps(p: Params) { p.Valid() && !p.Single() && p.concurrency >= 2 }

  lemma TwoChunks(p: Params)
    requires p.Valid() && !p.Single()
    ensures |p.Chunks()| >= 2 && p.Chunks()[1].start == p.chunkSize
  {
    CountBounds(p.total, p.chunkSize);
    assert Count(p.total, p.chunkSize) >= 2 by {
      if Count(p.total, p.chunkSize) <= 1 { TimesMonotone(Count(p.total, p.chunkSize), 1, p.chunkSize); }
    }
  }

  /** The first two chunks have been dispatched, and nothing else has happened. */
  lemma TwoReady(p: Params, tmp: Option<Bytes>, dst: Option<Bytes>) returns (t: State)
    requires Overlaps(p)
    ensures Leads(p, ANY, Init(p, tmp, dst), t) && |t.ws| == |p.Chunks()| >= 2 && Movable(p, t, 0) && Movable(p, t, 1)
    ensures t.ws[0] == t.ws[1] == FRESH && t.counter == 0 && Drift(p, t) == 0 && !t.cancelled
  {
    var s0 := Init(p, tmp, dst);
    TwoChunks(p);
    LeadsSelf(p, ANY, s0);
    t := Then(p, ANY, s0, s0, Open(true, false));
    t := Then(p, ANY, s0, t, Check);
    t := Then(p, ANY, s0, t, Acquire);
    t := Then(p, ANY, s0, t, Check);
    t := Then(p, ANY, s0, t, Acquire);
    NoDues(p.Chunks(), t.ws);
  }

  /** A goroutine's step, with what it does to the drift. */
  lemma Drifts(p: Params, s0: State, s: State, i: nat, act: Act) returns (t: State)
    requires p.Valid() && Leads(p, ANY, s0, s) && Movable(p, s, i) && Can(p, s.cancelled, s.ws[i], act) && Quiet(act)
    ensures t == At(s, i, Moved(p, p.Chunks()[i], s.counter, s.cancelled, s.ws[i], act),
                    TmpAfter(p, s.tmp, s.ws[i], act), CounterAfter(s.counter, s.ws[i], act))
    ensures Leads(p, ANY, s0, t) && Movable(p, t, i) && Drift(p, t) == Drift(p, s) + Slip(s.ws[i], act)
  {
    t := Goes(p, ANY, s0, s, i, act);
    DriftMove(p, s, i, act);
  }

  /** A chunk whose request is out is answered, and one byte is read. */
  lemma ReadsOne(p: Params, s0: State, s: State, i: nat) returns (t: State)
    requires p.Valid() && Leads(p, ANY, s0, s) && Movable(p, s, i) && s.ws[i].pc.Connecting?
    ensures Leads(p, ANY, s0, t) && Movable(p, t, i) && Drift(p, t) == Drift(p, s) && t.counter == s.counter + 1
    ensures t.ws == s.ws[i := t.ws[i]] && t.cancelled == s.cancelled
    ensures t.ws[i].pc == Holding(s.ws[i].pc.k, s.ws[i].pc.pre, p.Chunks()[i].start, [0], [])
  {
    t := Drifts(p, s0, s, i, Accept([0]));
    t := Drifts(p, s0, t, i, Read(1));
  }

  /** Overlap can take the counter below what it should be: chunk 1 fails without having read
      anything, and takes off the byte chunk 0 read meanwhile. */
  lemma RollbackBelow(p: Params, tmp: Option<Bytes>, dst: Option<Bytes>) returns (t: State)
    requires Overlaps(p)
    ensures Leads(p, ANY, Init(p, tmp, dst), t) && |t.ws| == |p.Chunks()| && Drift(p, t) == -1
  {
    var s0 := Init(p, tmp, dst);
    t := TwoReady(p, tmp, dst);
    t := Drifts(p, s0, t, 1, Begin);
    t := Drifts(p, s0, t, 0, Begin);
    t := ReadsOne(p, s0, t, 0);
    t := Drifts(p, s0, t, 1, Refuse);
    t := Drifts(p, s0, t, 1, Load);
    t := Drifts(p, s0, t, 1, Subtract);
  }

  /** And above: chunk 1 notes the counter while chunk 0's byte is in it; chunk 0 takes its byte
      off, and chunk 1's own byte then only makes up for it, so nothing is rolled back. */
  lemma RollbackAbove(p: Params, tmp: Option<Bytes>, dst: Option<Bytes>) returns (t: State)
    requires Overlaps(p)
    ensures Leads(p, ANY, Init(p, tmp, dst), t) && |t.ws| == |p.Chunks()| && Drift(p, t) == 1
  {
    var s0 := Init(p, tmp, dst);
    t := TwoReady(p, tmp, dst);
    t := Drifts(p, s0, t, 0, Begin);
    t := ReadsOne(p, s0, t, 0);
    t := Drifts(p, s0, t, 1, Begin);
    t := Drifts(p, s0, t, 0, Write(0));
    t := Drifts(p, s0, t, 0, Load);
    t := Drifts(p, s0, t, 0, Subtract);
    t := ReadsOne(p, s0, t, 1);
    t := Drifts(p, s0, t, 1, Write(0));
    t := Drifts(p, s0, t, 1, Load);
    t := Drifts(p, s0, t, 1, Subtract);
  }

  /** The counter is right after these steps. */
  ghost predicate Right(p: Params, tmp: Option<Bytes>, dst: Option<Bytes>, ls: seq<Label>)
    requires p.Valid()
  {
    Follows(p, Init(p, tmp, dst), ls) ==>
      var s := After(p, Init(p, tmp, dst), ls);
      |s.ws| == |p.Chunks()| && Drift(p, s) == 0
  }

  /** The configurations that keep the counter right in every state of every run: those that have
      one slot, and those whose object fits one chunk. */
  lemma CounterExactly(p: Params, tmp: Option<Bytes>, dst: Option<Bytes>)
    requires p.Valid()
    ensures (forall ls :: Right(p, tmp, dst, ls)) <==> p.concurrency == 1 || p.Single()
  {
    var s0 := Init(p, tmp, dst);
    if p.concurrency == 1 || p.Single() {
      forall ls ensures Right(p, tmp, dst, ls) {
        if Follows(p, s0, ls) {
          InvInit(p, tmp, dst);
          OneSlotDisjoint(p, s0, ls);
          ExactWithoutOverlap(p, tmp, dst, ls);
        }
      }
    } else {
      var t := RollbackBelow(p, tmp, dst);
      var ls :| Follows(p, s0, ls) && After(p, s0, ls) == t && AllAnswers(ANY, ls);
      assert !Right(p, tmp, dst, ls);
    }
  }

  // ---- Content without a checksum ----

  /** A server that may ignore the range: it sends the beginning of what was asked, or of the object. */
  function Loose(p: Params, obj: Bytes): Server
    requires p.Valid() && |obj| == p.total
  {
    (i: nat, body: Bytes) => i < |p.Chunks()| && (body <= Slice(p, obj, i) || body <= obj)
  }

  /** The checksum names the object. */
  ghost predicate Fingerprint(p: Params, obj: Bytes)
  {
    p.md5(obj) == p.etag && forall x :: p.md5(x) == p.etag ==> x == obj
  }

  /** If the run against the loose server succeeds, it publishes the object. */
  ghost predicate Publishes(p: Params, obj: Bytes, tmp: Option<Bytes>, dst: Option<Bytes>, ls: seq<Label>)
    requires p.Valid()
  {
    && |obj| == p.total && Follows(p, Init(p, tmp, dst), ls) && AllAnswers(Loose(p, obj), ls)
    && Succeeded(After(p, Init(p, tmp, dst), ls)) && (p.verify ==> Fingerprint(p, obj))
    ==> After(p, Init(p, tmp, dst), ls).dst == Some(obj)
  }

  /** The object with its first bytes once more where chunk 1 belongs. */
  function Doubled(p: Params, obj: Bytes): Bytes
    requires p.Valid() && !p.Single() && |obj| == p.total
  {
    TwoChunks(p);
    ChunkInside(p, 1);
    var c := p.Chunks()[1];
    obj[..c.start] + obj[..c.Size()] + obj[c.start + c.Size()..]
  }

  lemma DoubledMayBeSent(p: Params, obj: Bytes)
    requires p.Valid() && !p.Single() && !p.verify && |obj| == p.total
    ensures MaySend(p, Loose(p, obj), Doubled(p, obj))
  {
    var g := Doubled(p, obj);
    TwoChunks(p);
    ChunkInside(p, 1);
    forall i | 0 <= i < |p.Chunks()| ensures Loose(p, obj)(i, Slice(p, g, i)) {
      ChunkInside(p, i);
      if i == 1 {
        assert Slice(p, g, i) == obj[..p.Chunks()[1].Size()];
      } else {
        ChunksApart(p, i, 1);
        assert Slice(p, g, i) == Slice(p, obj, i);
      }
    }
  }

  /** Without a checksum, and with more than one chunk, some object is published wrong by a success
      with no retry: chunk 1 was answered with the beginning of the object, of the right length. */
  lemma UncheckedCorruption(p: Params, tmp: Option<Bytes>, dst: Option<Bytes>) returns (obj: Bytes, t: State)
    requires p.Valid() && !p.Single() && !p.verify
    ensures |obj| == p.total && Leads(p, Loose(p, obj), Init(p, tmp, dst), t)
    ensures Succeeded(t) && t.phase.outcome.retries == 0 && t.dst.Some? && |t.dst.value| == |obj| && t.dst != Some(obj)
  {
    obj := [1] + Zeros(p.total - 1);
    var g := Doubled(p, obj);
    DoubledMayBeSent(p, obj);
    t := SuccessReachable(p, Loose(p, obj), tmp, dst, g);
    TwoChunks(p);
    ChunkInside(p, 1);
    assert g[p.chunkSize] == 1 && obj[p.chunkSize] == 0;
  }

  lemma SingleIsWhole(p: Params, obj: Bytes, ls: seq<Label>)
    requires p.Valid() && p.Single() && |obj| == p.total && AllAnswers(Loose(p, obj), ls)
    ensures Honest(p, obj, ls)
  {
    assert Slice(p, obj, 0) == obj;
    forall n | 0 <= n < |ls| ensures HonestLabel(p, obj, ls[n]) {
      assert Answers(Loose(p, obj), ls[n]);
    }
  }

  /** Against a server that may ignore ranges, every success publishes the object exactly when the
      object is fetched whole or the checksum is verified. */
  lemma PublishesExactly(p: Params, tmp: Option<Bytes>, dst: Option<Bytes>)
    requires p.Valid()
    ensures (forall obj, ls :: Publishes(p, obj, tmp, dst, ls)) <==> p.Single() || p.verify
  {
    var s0 := Init(p, tmp, dst);
    if p.Single() || p.verify {
      forall obj, ls ensures Publishes(p, obj, tmp, dst, ls) {
        if |obj| == p.total && Follows(p, s0, ls) && AllAnswers(Loose(p, obj), ls) && (p.verify ==>
            Fingerprint(p, obj)) {
          if p.verify {
            ChecksumSuffices(p, obj, tmp, dst, ls);
          } else {
            SingleIsWhole(p, obj, ls);
            EndToEnd(p, obj, tmp, dst, ls);
          }
        }
      }
    } else {
      var obj, t := UncheckedCorruption(p, tmp, dst);
      var ls :| Follows(p, s0, ls) && After(p, s0, ls) == t && AllAnswers(Loose(p, obj), ls);
      assert !Publishes(p, obj, tmp, dst, ls);
    }
  }

  // ---- A server that sends the whole object or honours the range ----

  /** The server sends the beginning of what was asked, or ignores the range and sends the object. */
  function Ignoring(p: Params, obj: Bytes): Server
    requires p.Valid() && |obj| == p.total
  {
    (i: nat, body: Bytes) => i < |p.Chunks()| && (body <= Slice(p, obj, i) || body == obj)
  }

  /** The attempt has, or will have, another length than the chunk; it can only fail. */
  predicate Doomed(c: Chunk, w: Worker)
  {
    match w.pc
    case Copying(_, _, off, rest) => off + |rest| - c.start > c.Size()
    case Holding(_, _, off, buf, rest) => off + |buf| + |rest| - c.start > c.Size()
    case Rolling(_, _, _) => true
    case Subtracting(_, _, _) => true
    case Deciding(_) => true
    case Returning(ok, _) => !ok
    case Leaving(ok, _) => !ok
    case Exited(ok, _) => !ok
    case _ => false
  }

  /** With no retries it fails for good. */
  lemma MovedDoomed(p: Params, c: Chunk, counter: int, cancelled: bool, w: Worker, act: Act)
    requires !p.Single() && p.maxRetries == 0 && Can(p, cancelled, w, act) && Doomed(c, w)
    ensures Doomed(c, Moved(p, c, counter, cancelled, w, act))
  {
  }

  ghost predicate SomeDoomed(p: Params, s: State)
    requires p.Valid()
  {
    |s.ws| == |p.Chunks()| && exists i :: 0 <= i < |s.ws| && Doomed(p.Chunks()[i], s.ws[i])
  }

  lemma DoomedStep(p: Params, s: State, l: Label)
    requires p.Valid() && !p.Single() && p.maxRetries == 0 && Shape(p, s) && SomeDoomed(p, s) && Enabled(p, s, l)
    ensures SomeDoomed(p, Next(p, s, l))
  {
    var i :| 0 <= i < |s.ws| && Doomed(p.Chunks()[i], s.ws[i]);
    var t := Next(p, s, l);
    if l.Work? {
      if l.i == i { MovedDoomed(p, p.Chunks()[i], s.counter, s.cancelled, s.ws[i], l.act); }
    } else if !l.Acquire? {
      MainFrame(p, s, l);
    }
    assert Doomed(p.Chunks()[i], t.ws[i]);
  }

  /** The file is right as far as it goes, or some attempt is bound to fail. */
  ghost predicate RightOrDoomed(p: Params, obj: Bytes, s: State)
    requires p.Valid()
  {
    && Inv(p, s) && |obj| == p.total && (Intact(p, obj, s) || SomeDoomed(p, s))
    && (Succeeded(s) ==> s.dst == Some(obj))
  }

  lemma NoneDoomed(p: Params, s: State)
    requires p.Valid() && Inv(p, s) && s.phase.Renaming?
    ensures !SomeDoomed(p, s)
  {
    AllLanded(p, s);
  }

  lemma OverlongIsDoomed(p: Params, obj: Bytes, s: State, i: nat)
    requires p.Valid() && !p.Single() && |obj| == p.total && Enabled(p, s, Work(i, Accept(obj)))
    ensures SomeDoomed(p, Next(p, s, Work(i, Accept(obj))))
  {
    SplitShape(p.total, p.chunkSize, i);
    assert Doomed(p.Chunks()[i], Next(p, s, Work(i, Accept(obj))).ws[i]);
  }

  lemma RightOrDoomedStep(p: Params, obj: Bytes, s: State, l: Label)
    requires p.Valid() && !p.Single() && p.maxRetries == 0 && RightOrDoomed(p, obj, s)
    requires Enabled(p, s, l) && Answers(Ignoring(p, obj), l)
    ensures RightOrDoomed(p, obj, Next(p, s, l))
  {
    InvStep(p, s, l);
    if l.Rename? {
      NoneDoomed(p, s);
      Complete(p, obj, s);
    }
    if SomeDoomed(p, s) {
      DoomedStep(p, s, l);
    } else if HonestLabel(p, obj, l) {
      IntactStep(p, obj, s, l);
    } else {
      OverlongIsDoomed(p, obj, s, l.i);
    }
  }

  lemma {:induction false} RightOrDoomedAlong(p: Params, obj: Bytes, s: State, ls: seq<Label>)
    requires p.Valid() && !p.Single() && p.maxRetries == 0 && RightOrDoomed(p, obj, s)
    requires Follows(p, s, ls) && AllAnswers(Ignoring(p, obj), ls)
    ensures RightOrDoomed(p, obj, After(p, s, ls))
    decreases |ls|
  {
    if ls != [] {
      assert Answers(Ignoring(p, obj), ls[0]);
      RightOrDoomedStep(p, obj, s, ls[0]);
      assert forall n :: 0 <= n < |ls[1..]| ==> ls[1..][n] == ls[n + 1];
      RightOrDoomedAlong(p, obj, Next(p, s, ls[0]), ls[1..]);
    }
  }

  /** The dispatcher stands before chunk i, those before it have landed, and the file has length n. */
  ghost predicate Going(p: Params, s: State, i: nat, n: nat)
    requires p.Valid()
  {
    && s.phase.Dispatch? && s.next == i <= |s.ws| == |p.Chunks()| && s.slots == 0
    && !s.cancelled && s.firstErr.None? && Quiescent(s) && s.tmp.Some? && |s.tmp.value| == n >= p.total
    && s.totalWritten == (if i < |p.Chunks()| then p.Chunks()[i].start else p.total)
  }

  /** Chunk i, just started or trying again, brings its part. */
  lemma Brings(p: Params, obj: Bytes, s0: State, s: State, i: nat, n: nat) returns (t: State)
    requires p.Valid() && !p.Single() && |obj| == p.total && Leads(p, Ignoring(p, obj), s0, s) && Movable(p, s, i)
    requires s.ws[i].pc.Ready? && s.slots == 1 && s.next == i + 1 && s.phase.Dispatch?
    requires !s.cancelled && s.firstErr.None?
    requires s.tmp.Some? && |s.tmp.value| == n >= p.total && s.totalWritten == p.Chunks()[i].start
    requires forall j :: 0 <= j < |s.ws| && j != i ==> Parked(s.ws[j])
    ensures Going(p, t, i + 1, n) && Leads(p, Ignoring(p, obj), s0, t)
  {
    ChunkInside(p, i);
    SplitShape(p.total, p.chunkSize, i);
    t := Lands(p, Ignoring(p, obj), s0, s, i, Slice(p, obj, i));
    OverlayEffect(s.tmp.value, p.Chunks()[i].start, Slice(p, obj, i));
  }

  lemma BringsNext(p: Params, obj: Bytes, s0: State, s: State, i: nat, n: nat) returns (t: State)
    requires p.Valid() && !p.Single() && |obj| == p.total && Leads(p, Ignoring(p, obj), s0, s)
    requires Going(p, s, i, n) && i < |p.Chunks()|
    ensures Going(p, t, i + 1, n) && Leads(p, Ignoring(p, obj), s0, t)
  {
    t := Then(p, Ignoring(p, obj), s0, s, Check);
    t := Then(p, Ignoring(p, obj), s0, t, Acquire);
    t := Brings(p, obj, s0, t, i, n);
  }

  lemma {:induction false} BringsRest(p: Params, obj: Bytes, s0: State, s: State, i: nat, n: nat) returns (t: State)
    requires p.Valid() && !p.Single() && |obj| == p.total && Leads(p, Ignoring(p, obj), s0, s) && Going(p, s, i, n)
    ensures Going(p, t, |p.Chunks()|, n) && Leads(p, Ignoring(p, obj), s0, t)
    decreases |p.Chunks()| - i
  {
    t := s;
    if i < |p.Chunks()| {
      t := BringsNext(p, obj, s0, s, i, n);
      t := BringsRest(p, obj, s0, t, i + 1, n);
    }
  }

  /** Chunk 1 is sent the whole object, which makes the file longer, and honours its range when it
      tries again. */
  lemma Lengthens(p: Params, obj: Bytes, s0: State, s: State) returns (t: State)
    requires p.Valid() && !p.Single() && p.maxRetries >= 1 && |obj| == p.total && |p.Chunks()| >= 2
    requires Leads(p, Ignoring(p, obj), s0, s) && Going(p, s, 1, p.total) && p.Chunks()[1].start == p.chunkSize
    ensures Going(p, t, 2, p.chunkSize + p.total) && Leads(p, Ignoring(p, obj), s0, t)
  {
    SplitShape(p.total, p.chunkSize, 1);
    t := Then(p, Ignoring(p, obj), s0, s, Check);
    t := Then(p, Ignoring(p, obj), s0, t, Acquire);
    t := Overruns(p, Ignoring(p, obj), s0, t, 1, obj);
    OverlayEffect(s.tmp.value, p.chunkSize, obj);
    t := Brings(p, obj, s0, t, 1, p.chunkSize + p.total);
  }

  /** With a retry to spare, and no checksum, a file that is too long is published by a success. */
  lemma OverlongPublished(p: Params, obj: Bytes, tmp: Option<Bytes>, dst: Option<Bytes>) returns (t: State)
    requires p.Valid() && !p.Single() && !p.verify && p.maxRetries >= 1 && |obj| == p.total
    ensures Leads(p, Ignoring(p, obj), Init(p, tmp, dst), t)
    ensures Succeeded(t) && t.dst.Some? && |t.dst.value| == p.total + p.chunkSize
  {
    var s0 := Init(p, tmp, dst);
    var server := Ignoring(p, obj);
    LeadsSelf(p, server, s0);
    TwoChunks(p);
    SplitShape(p.total, p.chunkSize, 0);
    t := Then(p, server, s0, s0, Open(true, false));
    t := BringsNext(p, obj, s0, t, 0, p.total);
    t := Lengthens(p, obj, s0, t);
    t := BringsRest(p, obj, s0, t, 2, p.chunkSize + p.total);
    t := Then(p, server, s0, t, Check);
    t := Then(p, server, s0, t, WaitDone);
    t := Then(p, server, s0, t, Sync(true));
    t := TransferRuns.Publishes(p, server, s0, t, t.tmp.value);
  }

  /** If the run against such a server succeeds, it publishes the object. */
  ghost predicate PublishesIgnoring(p: Params, obj: Bytes, tmp: Option<Bytes>, dst: Option<Bytes>, ls: seq<Label>)
    requires p.Valid()
  {
    && |obj| == p.total && Follows(p, Init(p, tmp, dst), ls) && AllAnswers(Ignoring(p, obj), ls)
    && Succeeded(After(p, Init(p, tmp, dst), ls)) && (p.verify ==> Fingerprint(p, obj))
    ==> After(p, Init(p, tmp, dst), ls).dst == Some(obj)
  }

  lemma IgnoringIsLoose(p: Params, obj: Bytes, ls: seq<Label>)
    requires p.Valid() && |obj| == p.total && AllAnswers(Ignoring(p, obj), ls)
    ensures AllAnswers(Loose(p, obj), ls)
  {
    forall n | 0 <= n < |ls| ensures Answers(Loose(p, obj), ls[n]) { assert Answers(Ignoring(p, obj), ls[n]); }
  }

  lemma IgnoringOnce(p: Params, obj: Bytes, tmp: Option<Bytes>, dst: Option<Bytes>, ls: seq<Label>)
    requires p.Valid() && (p.Single() || p.verify || p.maxRetries == 0)
    ensures PublishesIgnoring(p, obj, tmp, dst, ls)
  {
    var s0 := Init(p, tmp, dst);
    if |obj| == p.total && Follows(p, s0, ls) && AllAnswers(Ignoring(p, obj), ls) {
      if p.Single() || p.verify {
        IgnoringIsLoose(p, obj, ls);
        PublishesExactly(p, tmp, dst);
        assert Publishes(p, obj, tmp, dst, ls);
      } else {
        InvInit(p, tmp, dst);
        RightOrDoomedAlong(p, obj, s0, ls);
      }
    }
  }

  /** Against a server that honours the range or sends the whole object, every success publishes the
      object exactly when it is fetched whole, its checksum is verified, or no attempt is retried. */
  lemma IgnoringExactly(p: Params, tmp: Option<Bytes>, dst: Option<Bytes>)
    requires p.Valid()
    ensures (forall obj, ls :: PublishesIgnoring(p, obj, tmp, dst, ls)) <==> p.Single() || p.verify || p.maxRetries == 0
  {
    if p.Single() || p.verify || p.maxRetries == 0 {
      forall obj, ls ensures PublishesIgnoring(p, obj, tmp, dst, ls) { IgnoringOnce(p, obj, tmp, dst, ls); }
    } else {
      var obj := Zeros(p.total);
      var t := OverlongPublished(p, obj, tmp, dst);
      var s0 := Init(p, tmp, dst);
      var ls :| Follows(p, s0, ls) && After(p, s0, ls) == t && AllAnswers(Ignoring(p, obj), ls);
      assert !PublishesIgnoring(p, obj, tmp, dst, ls);
    }
  }

  // ---- An early error ----

  /** The checks before the download stage leave a temporary file as an earlier crash left it. */
  lemma EarlyErrorKeepsTemp(p: Params, x: Bytes, dst: Option<Bytes>)
    requires p.Valid()
    ensures var s0 := Init(p, Some(x), dst);
            && Follows(p, s0, [Reject]) && After(p, s0, [Reject]).phase == Ended(Failed(Early))
            && After(p, s0, [Reject]).tmp == Some(x) && After(p, s0, [Reject]).dst == dst
  {
    assert [Reject][1..] == [];
  }

  // ---- A body that ends early ----

  /** A single download that has come to the size check is refused exactly when the body it copied
      has another length than the object; no run retries it. */
  lemma ShortSingle(p: Params, s: State)
    requires p.Valid() && Inv(p, s) && p.Single() && s.phase.Sizing?
    ensures Next(p, s, CheckSize).phase == Cleanup(SizeMismatch) <==> s.ws[0].pc.n != p.total
  {
    assert WorkerOk(p, 0, s.ws[0]);
    assert s.ws[0].pc.Exited? && s.ws[0].pc.ok;
    TallyConstant(Gain, s.ws, s.ws[0].pc.n);
  }

  /** Any body of the wrong length does it, on the first attempt, however many are allowed. */
  lemma ShortSingleFails(p: Params, body: Bytes, tmp: Option<Bytes>, dst: Option<Bytes>) returns (t: State)
    requires p.Valid() && p.Single() && |body| != p.total
    ensures Leads(p, ANY, Init(p, tmp, dst), t)
    ensures t.phase == Ended(Failed(SizeMismatch)) && t.retries == 0 && Requests(t) == 1
  {
    var s0 := Init(p, tmp, dst);
    t := FetchesSingle(p, ANY, tmp, dst, body);
    t := Then(p, ANY, s0, t, CheckSize);
    t := Then(p, ANY, s0, t, Remove);
    TallyConstant(Gets, t.ws, 1);
  }

  /** A chunk whose body has ended is different: it is done exactly when the length is right, and
      otherwise, unless attempts or context are at an end, it is retried. */
  lemma ShortChunkRetried(p: Params, server: Server, s0: State, s: State, i: nat) returns (t: State)
    requires p.Valid() && !p.Single() && Leads(p, server, s0, s) && Movable(p, s, i)
    requires s.ws[i].pc.Copying? && s.ws[i].pc.rest == [] && s.ws[i].pc.k < p.maxRetries && !s.cancelled
    ensures Next(p, s, Work(i, End)).ws[i].pc.Returning? <==>
        s.ws[i].pc.off - p.Chunks()[i].start == p.Chunks()[i].Size()
    ensures s.ws[i].pc.off - p.Chunks()[i].start != p.Chunks()[i].Size() ==>
              Leads(p, server, s0, t) && |t.ws| == |s.ws| && t.ws[i].pc == Sleeping(s.ws[i].pc.k + 1) &&
                  t.retries == s.retries + 1
  {
    t := s;
    if s.ws[i].pc.off - p.Chunks()[i].start != p.Chunks()[i].Size() {
      t := Goes(p, server, s0, s, i, End);
      t := RollsBack(p, server, s0, t, i);
      t := Then(p, server, s0, t, Work(i, Decide));
    }
  }
}
