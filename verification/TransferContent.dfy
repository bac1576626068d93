/** What a transfer publishes. */
module TransferContent {
  import opened Prelude
  import opened Storage
  import opened Chunking
  import opened Transfer
  import opened TransferInvariants

  // ---- The chunks as regions of the file ----

  lemma ChunkInside(p: Params, i: nat)
    requires p.Valid() && i < |p.Chunks()|
    ensures var c := p.Chunks()[i]; 0 <= c.Size() && c.start + c.Size() <= p.total
    ensures !p.Single() ==> p.Chunks()[i].Size() > 0
  {
    if !p.Single() { SplitShape(p.total, p.chunkSize, i); }
  }

  lemma ChunksApart(p: Params, i: nat, j: nat)
    requires p.Valid() && i < |p.Chunks()| && j < |p.Chunks()| && i != j
    ensures p.Chunks()[i].end < p.Chunks()[j].start || p.Chunks()[j].end < p.Chunks()[i].start
  {
    if i < j { SplitOrdered(p.total, p.chunkSize, i, j); } else { SplitOrdered(p.total, p.chunkSize, j, i); }
  }

  /** f and g hold the same bytes from lo up to hi. */
  ghost predicate Agree(f: Bytes, g: Bytes, lo: int, hi: int)
  {
    0 <= lo && hi <= |f| && hi <= |g| && forall o :: lo <= o < hi ==> f[o] == g[o]
  }

  /** The part of the object a range request for the chunk asks for (inclusive ranges,
      section 14.1.2 of RFC 9110). */
  function Slice(p: Params, obj: Bytes, i: nat): Bytes
    requires p.Valid() && i < |p.Chunks()| && |obj| == p.total
  {
    ChunkInside(p, i);
    var c := p.Chunks()[i];
    obj[c.start..c.start + c.Size()]
  }

  /** The server sends nothing but a prefix of what was asked: it may refuse, cut short or break
      off, but it honours ranges and does not make bytes up. */
  predicate HonestLabel(p: Params, obj: Bytes, l: Label)
    requires p.Valid() && |obj| == p.total
  {
    l.Work? && l.act.Accept? && l.i < |p.Chunks()| ==> l.act.body <= Slice(p, obj, l.i)
  }

  predicate Honest(p: Params, obj: Bytes, ls: seq<Label>)
    requires p.Valid() && |obj| == p.total
  {
    forall n :: 0 <= n < |ls| ==> HonestLabel(p, obj, ls[n])
  }

  // ---- What the temporary file holds, honest server ----

  predicate Whole(p: Params, tmp: Option<Bytes>) { tmp.Some? && |tmp.value| == p.total }

  /** The writer of chunk c stands at off with this many body bytes to come, all inside the chunk:
      what it wrote, and what it will write, is the object's. */
  ghost predicate Writing(p: Params, obj: Bytes, tmp: Option<Bytes>, c: Chunk, off: int, coming: Bytes)
  {
    && Whole(p, tmp) && |obj| == p.total
    && 0 <= c.start <= off && off + |coming| <= c.start + c.Size() <= p.total
    && coming == obj[off..off + |coming|]
    && Agree(tmp.value, obj, c.start, off)
  }

  ghost predicate Written(p: Params, obj: Bytes, tmp: Option<Bytes>, c: Chunk, n: int)
  {
    Whole(p, tmp) && 0 <= n <= c.Size() && Agree(tmp.value, obj, c.start, c.start + n)
  }

  ghost predicate DataOk(p: Params, obj: Bytes, tmp: Option<Bytes>, c: Chunk, pc: Pc)
  {
    match pc
    case Copying(_, _, off, rest) => Writing(p, obj, tmp, c, off, rest)
    case Holding(_, _, off, buf, rest) => Writing(p, obj, tmp, c, off, buf + rest)
    case Returning(ok, n) => ok ==> Written(p, obj, tmp, c, n)
    case Leaving(ok, n) => ok ==> Written(p, obj, tmp, c, n)
    case Exited(ok, n) => ok ==> Written(p, obj, tmp, c, n)
    case _ => true
  }

  predicate Inside(p: Params, c: Chunk) { 0 <= c.Size() && c.start + c.Size() <= p.total }

  lemma WriteKeeps(p: Params, obj: Bytes, tmp: Option<Bytes>, c: Chunk, off: nat, buf: Bytes, rest: Bytes)
    requires Writing(p, obj, tmp, c, off, buf + rest)
    ensures Writing(p, obj, Some(Overlay(tmp.value, off, buf)), c, off + |buf|, rest)
  {
    OverlayEffect(tmp.value, off, buf);
    var coming := buf + rest;
    assert buf == coming[..|buf|] == obj[off..off + |buf|];
    assert rest == coming[|buf|..] == obj[off + |buf|..off + |coming|];
    forall o | c.start <= o < off + |buf|
      ensures Overlay(tmp.value, off, buf)[o] == obj[o]
    {
      if off <= o { assert buf[o - off] == obj[off..off + |buf|][o - off]; }
    }
  }

  lemma WriteData(p: Params, obj: Bytes, tmp: Option<Bytes>, c: Chunk, counter: int, cancelled: bool, w: Worker, n: nat)
    requires Can(p, cancelled, w, Write(n)) && DataOk(p, obj, tmp, c, w.pc)
    ensures DataOk(p, obj, TmpAfter(p, tmp, w, Write(n)), c, Moved(p, c, counter, cancelled, w, Write(n)).pc)
  {
    if n == |w.pc.buf| {
      assert w.pc.buf[..n] == w.pc.buf;
      WriteKeeps(p, obj, tmp, c, w.pc.off, w.pc.buf, w.pc.rest);
    }
  }

  lemma AcceptData(p: Params, obj: Bytes, tmp: Option<Bytes>, c: Chunk, counter: int, cancelled: bool, w: Worker,
          body: Bytes)
    requires |obj| == p.total && Inside(p, c) && Can(p, cancelled, w, Accept(body))
    requires !p.Single() ==> Whole(p, tmp)
    requires body <= obj[c.start..c.start + c.Size()]
    ensures DataOk(p, obj, TmpAfter(p, tmp, w, Accept(body)), c, Moved(p, c, counter, cancelled, w, Accept(body)).pc)
  {
    assert body == obj[c.start..c.start + |body|];
  }

  /** The goroutine's own step keeps its region right. */
  lemma OwnData(p: Params, obj: Bytes, tmp: Option<Bytes>, c: Chunk, counter: int, cancelled: bool, w: Worker, act: Act)
    requires |obj| == p.total && Inside(p, c) && Can(p, cancelled, w, act)
    requires !p.Single() ==> Whole(p, tmp)
    requires act.Accept? ==> act.body <= obj[c.start..c.start + c.Size()]
    requires DataOk(p, obj, tmp, c, w.pc)
    ensures DataOk(p, obj, TmpAfter(p, tmp, w, act), c, Moved(p, c, counter, cancelled, w, act).pc)
  {
    match act
    case Read(n) => assert w.pc.rest[..n] + w.pc.rest[n..] == w.pc.rest;
    case Write(n) => WriteData(p, obj, tmp, c, counter, cancelled, w, n);
    case Accept(body) => AcceptData(p, obj, tmp, c, counter, cancelled, w, body);
    case _ =>
  }

  /** A step of chunk i leaves the bytes of every other chunk alone. */
  lemma OtherRegion(p: Params, obj: Bytes, tmp: Option<Bytes>, i: nat, cancelled: bool, w: Worker, act: Act, j: nat,
          pc: Pc)
    requires p.Valid() && !p.Single() && i < |p.Chunks()| && j < |p.Chunks()| && i != j && |obj| == p.total
    requires Can(p, cancelled, w, act) && Whole(p, tmp)
    requires DataOk(p, obj, tmp, p.Chunks()[i], w.pc) && DataOk(p, obj, tmp, p.Chunks()[j], pc)
    ensures Whole(p, TmpAfter(p, tmp, w, act))
    ensures DataOk(p, obj, TmpAfter(p, tmp, w, act), p.Chunks()[j], pc)
  {
    if act.Write? {
      ChunksApart(p, i, j);
      OverlayEffect(tmp.value, w.pc.off, w.pc.buf[..act.n]);
    }
  }

  predicate Active(s: State)
  {
    s.phase.Dispatch? || s.phase.Admit? || s.phase.Waiting? || s.phase.Syncing? || s.phase.Sizing? ||
        s.phase.Hashing? || s.phase.Renaming?
  }

  ghost predicate Intact(p: Params, obj: Bytes, s: State)
    requires p.Valid()
  {
    && |obj| == p.total && |s.ws| == |p.Chunks()|
    && (Active(s) ==>
          && (!p.Single() ==> Whole(p, s.tmp))
          && forall i :: 0 <= i < |s.ws| ==> DataOk(p, obj, s.tmp, p.Chunks()[i], s.ws[i].pc))
  }

  lemma IntactMove(p: Params, obj: Bytes, s: State, i: nat, act: Act)
    requires p.Valid() && Shape(p, s) && Intact(p, obj, s)
    requires Enabled(p, s, Work(i, act)) && HonestLabel(p, obj, Work(i, act)) && Active(s)
    ensures Intact(p, obj, Next(p, s, Work(i, act)))
  {
    var t := Next(p, s, Work(i, act));
    ChunkInside(p, i);
    OwnData(p, obj, s.tmp, p.Chunks()[i], s.counter, s.cancelled, s.ws[i], act);
    forall j | 0 <= j < |s.ws| && j != i
      ensures DataOk(p, obj, t.tmp, p.Chunks()[j], t.ws[j].pc)
    {
      OtherRegion(p, obj, s.tmp, i, s.cancelled, s.ws[i], act, j, s.ws[j].pc);
    }
    if !p.Single() {
      WholeKept(p, obj, s.tmp, i, s.cancelled, s.ws[i], act);
    }
  }

  lemma WholeKept(p: Params, obj: Bytes, tmp: Option<Bytes>, i: nat, cancelled: bool, w: Worker, act: Act)
    requires p.Valid() && !p.Single() && i < |p.Chunks()| && Can(p, cancelled, w, act) && Whole(p, tmp)
    requires DataOk(p, obj, tmp, p.Chunks()[i], w.pc)
    ensures Whole(p, TmpAfter(p, tmp, w, act))
  {
    if act.Write? { OverlayEffect(tmp.value, w.pc.off, w.pc.buf[..act.n]); }
  }

  lemma IntactStep(p: Params, obj: Bytes, s: State, l: Label)
    requires p.Valid() && Shape(p, s) && Intact(p, obj, s) && Enabled(p, s, l) && HonestLabel(p, obj, l)
    ensures Intact(p, obj, Next(p, s, l))
  {
    match l
    case Work(i, act) => if Active(s) { IntactMove(p, obj, s, i, act); }
    case _ =>
  }

  // ---- Publication ----

  /** Once the bytes add up, at the rename at the latest, the temporary file is the object, every
      byte of it. */
  lemma Complete(p: Params, obj: Bytes, s: State)
    requires p.Valid() && Inv(p, s) && Intact(p, obj, s) && (s.phase.Renaming? || (Arrived(p, s) && Active(s)))
    ensures s.tmp == Some(obj)
  {
    if s.phase.Renaming? { AllLanded(p, s); }
    AllArrived(p, s);
    if p.Single() {
      SingleComplete(p, obj, s);
    } else {
      forall o | 0 <= o < p.total
        ensures s.tmp.value[o] == obj[o]
      {
        var i := SplitCovers(p.total, p.chunkSize, o);
        assert DataOk(p, obj, s.tmp, p.Chunks()[i], s.ws[i].pc) && WorkerOk(p, i, s.ws[i]);
      }
      assert s.tmp.value == obj;
    }
  }

  lemma SingleComplete(p: Params, obj: Bytes, s: State)
    requires p.Valid() && Inv(p, s) && Intact(p, obj, s) && Arrived(p, s) && Active(s) && p.Single()
    requires forall i :: 0 <= i < |s.ws| ==> s.ws[i].pc.Exited? && s.ws[i].pc.ok
    ensures s.tmp == Some(obj)
  {
    assert DataOk(p, obj, s.tmp, p.Chunks()[0], s.ws[0].pc);
    TallyConstant(Gain, s.ws, s.ws[0].pc.n);
    assert s.tmp.value == obj;
  }

  /** The final path holds what it held, until a success puts the object there; a failure past
      the early checks leaves no temporary file. */
  ghost predicate Published(p: Params, obj: Bytes, tmp0: Option<Bytes>, dst0: Option<Bytes>, s: State)
  {
    && s.dst == (if Succeeded(s) then Some(obj) else dst0)
    && (s.phase.Ended? ==> s.tmp == (if s.phase.outcome == Failed(Early) then tmp0 else None))
    && (s.phase.Start? ==> s.tmp == tmp0)
    && (s.phase.Cleanup? ==> !s.phase.why.Early?)
  }

  lemma PublishedMain(p: Params, obj: Bytes, tmp0: Option<Bytes>, dst0: Option<Bytes>, s: State, l: Label)
    requires p.Valid() && Published(p, obj, tmp0, dst0, s) && Enabled(p, s, l) && !l.Work? && !l.Rename?
    ensures Published(p, obj, tmp0, dst0, Next(p, s, l))
  {
  }

  lemma PublishedKept(p: Params, obj: Bytes, tmp0: Option<Bytes>, dst0: Option<Bytes>, s: State, t: State)
    requires Published(p, obj, tmp0, dst0, s) && !s.phase.Ended? && !s.phase.Start?
    requires t.phase == s.phase && t.dst == s.dst
    ensures Published(p, obj, tmp0, dst0, t)
  {
  }

  lemma PublishedStep(p: Params, obj: Bytes, tmp0: Option<Bytes>, dst0: Option<Bytes>, s: State, l: Label)
    requires p.Valid() && Inv(p, s) && Intact(p, obj, s) && Published(p, obj, tmp0, dst0, s)
    requires Enabled(p, s, l) && HonestLabel(p, obj, l)
    ensures Published(p, obj, tmp0, dst0, Next(p, s, l))
  {
    match l
    case Rename(ok) => Complete(p, obj, s);
    case Work(i, act) =>
      assert !s.phase.Start?;
      PublishedKept(p, obj, tmp0, dst0, s, Move(p, s, i, act));
    case _ => PublishedMain(p, obj, tmp0, dst0, s, l);
  }

  lemma {:induction false} EndToEndFrom(p: Params, obj: Bytes, tmp0: Option<Bytes>, dst0: Option<Bytes>, s: State,
          ls: seq<Label>)
    requires p.Valid() && Inv(p, s) && Intact(p, obj, s) && Published(p, obj, tmp0, dst0, s)
    requires Follows(p, s, ls) && Honest(p, obj, ls)
    ensures var t := After(p, s, ls); Inv(p, t) && Intact(p, obj, t) && Published(p, obj, tmp0, dst0, t)
    decreases |ls|
  {
    if ls != [] {
      assert HonestLabel(p, obj, ls[0]);
      InvStep(p, s, ls[0]);
      IntactStep(p, obj, s, ls[0]);
      PublishedStep(p, obj, tmp0, dst0, s, ls[0]);
      EndToEndFrom(p, obj, tmp0, dst0, Next(p, s, ls[0]), ls[1..]);
    }
  }

  /**
    For every interleaving, if the server honours ranges, the final path holds in every
    reachable state, crashes included, either what it held before or, once Download has
    reported success, the object byte for byte with no goroutine left.
   */
  lemma EndToEnd(p: Params, obj: Bytes, tmp0: Option<Bytes>, dst0: Option<Bytes>, ls: seq<Label>)
    requires p.Valid() && |obj| == p.total
    requires Follows(p, Init(p, tmp0, dst0), ls) && Honest(p, obj, ls)
    ensures var s := After(p, Init(p, tmp0, dst0), ls);
            && s.dst == (if Succeeded(s) then Some(obj) else dst0)
            && (s.phase.Ended? ==> Quiescent(s) && s.tmp == (if s.phase.outcome == Failed(Early) then tmp0 else None))
  {
    InvInit(p, tmp0, dst0);
    EndToEndFrom(p, obj, tmp0, dst0, Init(p, tmp0, dst0), ls);
  }

  // ---- Any server ----

  /** What the checksum buys whatever the server sent: nothing is published but with a success,
      and a success that verified published a file with the object's hash. */
  ghost predicate Checked(p: Params, dst0: Option<Bytes>, s: State)
  {
    && (match s.phase
        case Renaming(v) => v == p.verify && (v ==> s.tmp.Some? && p.md5(s.tmp.value) == p.etag)
        case Ended(Success(_, _, _, v)) => v == p.verify && s.dst.Some? && (v ==> p.md5(s.dst.value) == p.etag)
        case Hashing => p.verify
        case _ => true)
    && (!Succeeded(s) ==> s.dst == dst0)
  }

  lemma CheckedStep(p: Params, dst0: Option<Bytes>, s: State, l: Label)
    requires p.Valid() && Shape(p, s) && Checked(p, dst0, s) && Enabled(p, s, l)
    ensures Checked(p, dst0, Next(p, s, l))
  {
    match l
    case Work(i, act) => assert !Quiescent(s);
    case _ =>
  }

  lemma {:induction false} CheckedAlong(p: Params, dst0: Option<Bytes>, s: State, ls: seq<Label>)
    requires p.Valid() && Shape(p, s) && Checked(p, dst0, s) && Follows(p, s, ls)
    ensures Checked(p, dst0, After(p, s, ls))
    decreases |ls|
  {
    if ls != [] {
      ShapeStep(p, s, ls[0]);
      CheckedStep(p, dst0, s, ls[0]);
      CheckedAlong(p, dst0, Next(p, s, ls[0]), ls[1..]);
    }
  }

  /**
    With no assumption on the server at all: the final path changes only with a success, and
    a success that verified a checksum which only the object has published the object.
   */
  lemma ChecksumSuffices(p: Params, obj: Bytes, tmp0: Option<Bytes>, dst0: Option<Bytes>, ls: seq<Label>)
    requires p.Valid() && Follows(p, Init(p, tmp0, dst0), ls)
    requires p.md5(obj) == p.etag && forall x :: p.md5(x) == p.etag ==> x == obj
    ensures var s := After(p, Init(p, tmp0, dst0), ls);
            && (Succeeded(s) && s.phase.outcome.verified ==> s.dst == Some(obj))
            && (Succeeded(s) ==> s.phase.outcome.verified == p.verify)
            && (!Succeeded(s) ==> s.dst == dst0)
  {
    InvInit(p, tmp0, dst0);
    CheckedAlong(p, dst0, Init(p, tmp0, dst0), ls);
  }
}
