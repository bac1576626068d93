/** Runs of a transfer built step by step: whole chunks, whole objects. */
module TransferRuns {
  import opened Prelude
  import opened Storage
  import opened Chunking
  import opened Transfer
  import opened TransferInvariants
  import opened TransferContent

  /** One more step of a run from s0. */
  lemma Then(p: Params, server: Server, s0: State, s: State, l: Label) returns (t: State)
    requires p.Valid() && Leads(p, server, s0, s) && Enabled(p, s, l) && Answers(server, l)
    ensures t == Next(p, s, l) && Leads(p, server, s0, t)
  {
    LeadsNext(p, server, s0, s, l);
    t := Next(p, s, l);
  }

  /** A goroutine can move: the transfer is not over. */
  predicate Movable(p: Params, s: State, i: nat)
    requires p.Valid()
  {
    !s.Over() && i < |s.ws| == |p.Chunks()|
  }

  /** s with goroutine i at w, and the file and the counter as given. */
  function At(s: State, i: nat, w: Worker, tmp: Option<Bytes>, counter: int): State
    requires i < |s.ws|
  {
    s.(ws := s.ws[i := w], tmp := tmp, counter := counter)
  }

  lemma AtTwice(s: State, i: nat, v: Worker, w: Worker, a: Option<Bytes>, b: Option<Bytes>, m: int, n: int)
    requires i < |s.ws|
    ensures At(At(s, i, v, a, m), i, w, b, n) == At(s, i, w, b, n)
  {
    assert s.ws[i := v][i := w] == s.ws[i := w];
  }

  /** A step of a goroutine that neither returns, nor retries, nor leaves. */
  predicate Quiet(act: Act) { !act.Return? && !act.Decide? && !act.Leave? }

  lemma Goes(p: Params, server: Server, s0: State, s: State, i: nat, act: Act) returns (t: State)
    requires p.Valid() && Leads(p, server, s0, s) && Movable(p, s, i) && Can(p, s.cancelled, s.ws[i], act) && Quiet(act)
    requires act.Accept? ==> server(i, act.body)
    ensures t == At(s, i, Moved(p, p.Chunks()[i], s.counter, s.cancelled, s.ws[i], act),
                    TmpAfter(p, s.tmp, s.ws[i], act), CounterAfter(s.counter, s.ws[i], act))
    ensures Leads(p, server, s0, t) && Movable(p, t, i)
  {
    t := Then(p, server, s0, s, Work(i, act));
  }

  /** s after goroutine i has copied the first n bytes of what is left of its body onto f. */
  function Copied(s: State, i: nat, f: Bytes, n: nat): State
    requires i < |s.ws| && s.ws[i].pc.Copying? && n <= |s.ws[i].pc.rest|
  {
    var pc := s.ws[i].pc;
    At(s, i, s.ws[i].(pc := Copying(pc.k, pc.pre, pc.off + n, pc.rest[n..])),
       Some(Overlay(f, pc.off, pc.rest[..n])), s.counter + n)
  }

  lemma CopiesOne(p: Params, server: Server, s0: State, s: State, i: nat, f: Bytes) returns (t: State)
    requires p.Valid() && Leads(p, server, s0, s) && Movable(p, s, i) && s.tmp == Some(f)
    requires s.ws[i].pc.Copying? && s.ws[i].pc.rest != []
    ensures t == Copied(s, i, f, 1) && Leads(p, server, s0, t) && Movable(p, t, i)
  {
    var u := Goes(p, server, s0, s, i, Read(1));
    assert u.ws[i].pc.buf[..1] == s.ws[i].pc.rest[..1];
    t := Goes(p, server, s0, u, i, Write(1));
  }

  lemma CopiedNone(s: State, i: nat, f: Bytes)
    requires i < |s.ws| && s.ws[i].pc.Copying? && s.tmp == Some(f) && s.ws[i].pc.rest == []
    ensures Copied(s, i, f, 0) == s
  {
    assert s.ws[i := s.ws[i]] == s.ws;
  }

  lemma Halves(rest: Bytes)
    requires rest != []
    ensures rest[..1] + rest[1..] == rest[..|rest|] == rest
    ensures rest[1..][..|rest| - 1] == rest[1..] && rest[1..][|rest| - 1..] == rest[|rest|..] == []
  {
  }

  lemma CopiedMore(s: State, i: nat, f: Bytes, u: State)
    requires i < |s.ws| && s.ws[i].pc.Copying? && s.ws[i].pc.rest != [] && u == Copied(s, i, f, 1)
    ensures Copied(u, i, u.tmp.value, |u.ws[i].pc.rest|) == Copied(s, i, f, |s.ws[i].pc.rest|)
  {
    var off, rest := s.ws[i].pc.off, s.ws[i].pc.rest;
    Halves(rest);
    OverlayJoins(f, off, rest[..1], rest[1..]);
    var t := Copied(u, i, u.tmp.value, |rest| - 1);
    AtTwice(s, i, u.ws[i], t.ws[i], u.tmp, t.tmp, u.counter, t.counter);
  }

  /** The rest of the body is copied. */
  lemma {:induction false} Copies(p: Params, server: Server, s0: State, s: State, i: nat, f: Bytes) returns (t: State)
    requires p.Valid() && Leads(p, server, s0, s) && Movable(p, s, i) && s.tmp == Some(f) && s.ws[i].pc.Copying?
    ensures t == Copied(s, i, f, |s.ws[i].pc.rest|) && Leads(p, server, s0, t) && Movable(p, t, i)
    decreases |s.ws[i].pc.rest|
  {
    if s.ws[i].pc.rest == [] {
      CopiedNone(s, i, f);
      t := s;
    } else {
      var u := CopiesOne(p, server, s0, s, i, f);
      t := Copies(p, server, s0, u, i, u.tmp.value);
      CopiedMore(s, i, f, u);
    }
  }

  /** What the chunk's writes are laid over. */
  function Base(p: Params, s: State): Bytes
  {
    if p.Single() then Zeros(p.total) else if s.tmp.Some? then s.tmp.value else []
  }

  /** An attempt is answered with this body and copies all of it. */
  lemma Fetches(p: Params, server: Server, s0: State, s: State, i: nat, body: Bytes) returns (t: State)
    requires p.Valid() && Leads(p, server, s0, s) && Movable(p, s, i) && server(i, body)
    requires s.ws[i].pc.Ready? && (!p.Single() ==> s.tmp.Some?)
    ensures var c, w := p.Chunks()[i], s.ws[i];
            t == At(s, i, Worker(Copying(w.pc.k, s.counter, c.start + |body|, []), w.gets + 1, w.naps),
                    Some(Overlay(Base(p, s), c.start, body)), s.counter + |body|)
    ensures Leads(p, server, s0, t) && Movable(p, t, i)
  {
    var u := Goes(p, server, s0, s, i, Begin);
    u := Goes(p, server, s0, u, i, Accept(body));
    t := Copies(p, server, s0, u, i, Base(p, s));
    assert body[..|body|] == body && body[|body|..] == [];
    assert t.ws == s.ws[i := t.ws[i]];
  }

  /** s with goroutine i gone after bringing n bytes. */
  function Gone(s: State, i: nat, tmp: Option<Bytes>, n: nat): State
    requires i < |s.ws|
  {
    At(s, i, Worker(Exited(true, n), s.ws[i].gets + 1, s.ws[i].naps), tmp, s.counter + n)
      .(totalWritten := s.totalWritten + n, slots := s.slots - 1)
  }

  /** The body has ended at the right length: the goroutine returns its result and leaves. */
  lemma Leaves(p: Params, server: Server, s0: State, s: State, i: nat) returns (t: State)
    requires p.Valid() && Leads(p, server, s0, s) && Movable(p, s, i) && s.ws[i].pc.Copying? && s.ws[i].pc.rest == []
    requires s.ws[i].pc.off >= p.Chunks()[i].start
    requires p.Single() || s.ws[i].pc.off - p.Chunks()[i].start == p.Chunks()[i].Size()
    ensures var n := s.ws[i].pc.off - p.Chunks()[i].start;
            t == s.(ws := s.ws[i := s.ws[i].(pc := Exited(true, n))],
                    totalWritten := s.totalWritten + n, slots := s.slots - 1)
    ensures Leads(p, server, s0, t) && Movable(p, t, i)
  {
    var u := Goes(p, server, s0, s, i, End);
    u := Then(p, server, s0, u, Work(i, Return));
    t := Then(p, server, s0, u, Work(i, Leave));
  }

  /** The goroutine of chunk i fetches this body, returns it as its result and leaves. */
  lemma Lands(p: Params, server: Server, s0: State, s: State, i: nat, body: Bytes) returns (t: State)
    requires p.Valid() && Leads(p, server, s0, s) && Movable(p, s, i) && server(i, body)
    requires s.ws[i].pc.Ready? && (!p.Single() ==> s.tmp.Some? && |body| == p.Chunks()[i].Size())
    ensures t == Gone(s, i, Some(Overlay(Base(p, s), p.Chunks()[i].start, body)), |body|)
    ensures Leads(p, server, s0, t) && Movable(p, t, i)
  {
    var u := Fetches(p, server, s0, s, i, body);
    t := Leaves(p, server, s0, u, i);
    assert t.ws == s.ws[i := t.ws[i]];
  }

  /** A failed attempt is rolled back. */
  lemma RollsBack(p: Params, server: Server, s0: State, s: State, i: nat) returns (t: State)
    requires p.Valid() && Leads(p, server, s0, s) && Movable(p, s, i) && s.ws[i].pc.Rolling?
    ensures t == At(s, i, s.ws[i].(pc := Deciding(s.ws[i].pc.k)), s.tmp, s.counter - Max(0, s.counter - s.ws[i].pc.pre))
    ensures Leads(p, server, s0, t) && Movable(p, t, i)
  {
    var u := Goes(p, server, s0, s, i, Load);
    t := Goes(p, server, s0, u, i, Subtract);
  }

  /** A chunk is sent the whole object: all of it is copied from the chunk's start on, the length is
      found wrong, and the chunk is about to try again. */
  lemma Overruns(p: Params, server: Server, s0: State, s: State, i: nat, obj: Bytes) returns (t: State)
    requires p.Valid() && !p.Single() && Leads(p, server, s0, s) && Movable(p, s, i) && server(i, obj)
    requires s.ws[i] == FRESH && s.tmp.Some? && |obj| > p.Chunks()[i].Size() && !s.cancelled && p.maxRetries >= 1
    ensures Leads(p, server, s0, t) && Movable(p, t, i)
    ensures t.ws == s.ws[i := t.ws[i]] && t.ws[i].pc == Ready(1)
    ensures t.tmp == Some(Overlay(s.tmp.value, p.Chunks()[i].start, obj))
    ensures t == s.(ws := t.ws, tmp := t.tmp, counter := t.counter, retries := s.retries + 1)
  {
    t := Fetches(p, server, s0, s, i, obj);
    t := Goes(p, server, s0, t, i, End);
    t := RollsBack(p, server, s0, t, i);
    t := Then(p, server, s0, t, Work(i, Decide));
    t := Goes(p, server, s0, t, i, Wake);
  }

  // ---- A whole object ----

  /** The file g is one this server may make a transfer publish. */
  ghost predicate MaySend(p: Params, server: Server, g: Bytes)
    requires p.Valid()
  {
    && |g| == p.total && (p.verify ==> p.md5(g) == p.etag)
    && forall i :: 0 <= i < |p.Chunks()| ==> server(i, Slice(p, g, i))
  }

  /** The dispatcher stands before chunk i, and the chunks before it have brought their parts of g. */
  ghost predicate UpTo(p: Params, g: Bytes, dst: Option<Bytes>, s: State, i: nat)
    requires p.Valid()
  {
    && s.phase.Dispatch? && s.next == i <= |s.ws| == |p.Chunks()| && s.slots == 0 && s.retries == 0
    && !s.cancelled && s.firstErr.None? && s.dst == dst
    && (forall j :: 0 <= j < i ==> Parked(s.ws[j]))
    && Whole(p, s.tmp) && |g| == p.total
    && s.totalWritten == (if i < |p.Chunks()| then p.Chunks()[i].start else p.total)
    && 0 <= s.totalWritten <= p.total && Agree(s.tmp.value, g, 0, s.totalWritten)
  }

  lemma SliceLaid(p: Params, g: Bytes, f: Bytes, i: nat)
    requires p.Valid() && i < |p.Chunks()| && |f| == |g| == p.total && Agree(f, g, 0, p.Chunks()[i].start)
    ensures var c := p.Chunks()[i]; var h := Overlay(f, c.start, Slice(p, g, i));
            |h| == p.total && Agree(h, g, 0, c.start + c.Size())
  {
    ChunkInside(p, i);
    OverlayEffect(f, p.Chunks()[i].start, Slice(p, g, i));
  }

  lemma OneMore(p: Params, server: Server, s0: State, s: State, g: Bytes, i: nat) returns (t: State)
    requires p.Valid() && !p.Single() && MaySend(p, server, g) && Leads(p, server, s0, s)
    requires UpTo(p, g, s0.dst, s, i) && i < |p.Chunks()|
    ensures UpTo(p, g, s0.dst, t, i + 1) && Leads(p, server, s0, t)
  {
    var u := Then(p, server, s0, s, Check);
    u := Then(p, server, s0, u, Acquire);
    ChunkInside(p, i);
    t := Lands(p, server, s0, u, i, Slice(p, g, i));
    SliceLaid(p, g, s.tmp.value, i);
    SplitShape(p.total, p.chunkSize, i);
  }

  lemma {:induction false} Rest(p: Params, server: Server, s0: State, s: State, g: Bytes, i: nat) returns (t: State)
    requires p.Valid() && !p.Single() && MaySend(p, server, g) && Leads(p, server, s0, s)
    requires UpTo(p, g, s0.dst, s, i)
    ensures UpTo(p, g, s0.dst, t, |p.Chunks()|) && Leads(p, server, s0, t)
    decreases |p.Chunks()| - i
  {
    if i == |p.Chunks()| {
      t := s;
    } else {
      var u := OneMore(p, server, s0, s, g, i);
      t := Rest(p, server, s0, u, g, i + 1);
    }
  }

  /** From the size check on nothing stands in the way of g. */
  lemma Publishes(p: Params, server: Server, s0: State, s: State, g: Bytes) returns (t: State)
    requires p.Valid() && Leads(p, server, s0, s) && |s.ws| == |p.Chunks()|
    requires s.phase.Sizing? && s.totalWritten == p.total && s.tmp == Some(g) && (p.verify ==> p.md5(g) == p.etag)
    ensures Leads(p, server, s0, t) && t.dst == Some(g)
    ensures t.phase == Ended(Success(p.total, |p.Chunks()|, s.retries, p.verify))
  {
    var u := Then(p, server, s0, s, CheckSize);
    if p.verify { u := Then(p, server, s0, u, CheckHash(true)); }
    t := Then(p, server, s0, u, Rename(true));
  }

  lemma FetchesParallel(p: Params, server: Server, tmp: Option<Bytes>, dst: Option<Bytes>, g: Bytes) returns (t: State)
    requires p.Valid() && !p.Single() && MaySend(p, server, g)
    ensures Leads(p, server, Init(p, tmp, dst), t) && |t.ws| == |p.Chunks()|
    ensures t.phase.Sizing? && t.totalWritten == p.total && t.tmp == Some(g) && t.retries == 0
  {
    var s0 := Init(p, tmp, dst);
    LeadsSelf(p, server, s0);
    var u := Then(p, server, s0, s0, Open(true, false));
    CountBounds(p.total, p.chunkSize);
    if |p.Chunks()| > 0 { SplitShape(p.total, p.chunkSize, 0); }
    u := Rest(p, server, s0, u, g, 0);
    assert u.tmp.value == g;
    u := Then(p, server, s0, u, Check);
    u := Then(p, server, s0, u, WaitDone);
    t := Then(p, server, s0, u, Sync(true));
  }

  /** The single worker brings a body, whatever its length, and the size is looked at next. */
  lemma FetchesSingle(p: Params, server: Server, tmp: Option<Bytes>, dst: Option<Bytes>, body: Bytes) returns (t: State)
    requires p.Valid() && p.Single() && server(0, body)
    ensures Leads(p, server, Init(p, tmp, dst), t) && |t.ws| == |p.Chunks()|
    ensures t.phase.Sizing? && t.totalWritten == |body| && t.tmp == Some(Overlay(Zeros(p.total), 0, body)) &&
        t.retries == 0
    ensures t.ws[0] == Worker(Exited(true, |body|), 1, 0)
  {
    var s0 := Init(p, tmp, dst);
    LeadsSelf(p, server, s0);
    var u := Then(p, server, s0, s0, Open(true, false));
    u := Lands(p, server, s0, u, 0, body);
    t := Then(p, server, s0, u, WaitDone);
  }

  /** Whatever the sizes, the settings and the files that were there: a file that the server may send
      and that has the right hash, if one is verified, can be published, with no retry. */
  lemma SuccessReachable(p: Params, server: Server, tmp: Option<Bytes>, dst: Option<Bytes>, g: Bytes) returns (t: State)
    requires p.Valid() && MaySend(p, server, g)
    ensures Leads(p, server, Init(p, tmp, dst), t) && t.dst == Some(g)
    ensures t.phase == Ended(Success(p.total, |p.Chunks()|, 0, p.verify))
  {
    var s0 := Init(p, tmp, dst);
    var u;
    if p.Single() {
      assert Slice(p, g, 0) == g;
      u := FetchesSingle(p, server, tmp, dst, g);
      OverlayEffect(Zeros(p.total), 0, g);
      assert u.tmp.value == g;
    } else {
      u := FetchesParallel(p, server, tmp, dst, g);
    }
    t := Publishes(p, server, s0, u, g);
  }
}
