/**
  One call of Download (downloader/downloader.go) as a step system.

  The main goroutine, the goroutine of each chunk, the server, the disk, an outside
  cancellation and a crash take turns; a label names who moves and what the environment
  answered.  Next is a function of the state and the label, so a run is a sequence of
  labels, and every interleaving is such a sequence.

  A small object is fetched by the main goroutine itself, with the same retry loop and
  one request without a range: it is the single worker of a transfer that has no
  dispatcher.  Where the two paths differ the step asks Single().
 */
module Transfer {
  import opened Prelude
  import opened Storage
  import opened Chunking

  const BUFFER: nat := 256 * 1024

  /** What is fixed during a call: the size HEAD announced and the configuration. */
  datatype Params = Params(
    total: nat,
    chunkSize: nat,
    concurrency: nat,
    maxRetries: nat,
    verify: bool,             // not skipped, and the ETag is a plain MD5
    etag: string,             // unquoted and lower-cased
    md5: Bytes -> string
  ) {
    predicate Valid() { chunkSize >= 1 && concurrency >= 1 }

    predicate Single() { total <= chunkSize }

    function Chunks(): seq<Chunk>
      requires Valid()
    {
      if Single() then [Chunk(0, 0, total - 1)] else Split(total, chunkSize)
    }
  }

  /** Where a chunk's goroutine is.  k numbers the attempt; rd is what the attempt read. */
  datatype Pc =
    | Idle
    | Ready(k: nat)                                               // about to note the counter and send the request
    | Connecting(k: nat, pre: int)
    | Copying(k: nat, pre: int, off: nat, rest: Bytes)            // about to read; rest of the body is to come
    | Holding(k: nat, pre: int, off: nat, buf: Bytes, rest: Bytes)  // a buffer is read and counted, not yet written
    | Rolling(k: nat, pre: int, rd: int)                          // the attempt failed
    | Subtracting(k: nat, partial: int, rd: int)
    | Deciding(k: nat)
    | Sleeping(k: nat)                                            // backing off before attempt k
    | Returning(ok: bool, n: int)
    | Leaving(ok: bool, n: int)                                   // result recorded, slot still held
    | Exited(ok: bool, n: int)

  /** gets and naps count this worker's requests and back-offs; the code keeps only their sum. */
  datatype Worker = Worker(pc: Pc, gets: nat, naps: nat)

  datatype Failure =
    | Early                     // configuration, HEAD or directory: nothing was touched
    | OpenError
    | ChunkError(chunk: nat)
    | SyncError
    | SizeMismatch
    | ChecksumMismatch
    | RenameError

  datatype Outcome =
    | Success(bytes: int, chunks: nat, retries: int, verified: bool)
    | Failed(why: Failure)

  /** Where the main goroutine is. */
  datatype Phase =
    | Start
    | Dispatch                  // at the head of the loop over chunks
    | Admit                     // past the context check, waiting for a slot
    | Waiting                   // in wg.Wait, or in the single download
    | Syncing
    | Sizing
    | Hashing
    | Renaming(verified: bool)
    | Cleanup(why: Failure)
    | Ended(outcome: Outcome)
    | Crashed

  datatype State = State(
    phase: Phase,
    next: nat,                  // chunks dispatched so far
    ws: seq<Worker>,
    slots: int,                 // semaphore slots taken
    cancelled: bool,            // the context handed to the workers is done
    outside: bool,              // the caller cancelled
    firstErr: Option<nat>,      // the chunk whose error was kept
    totalWritten: int,
    counter: int,               // bytesCounter, the live progress
    retries: int,               // totalRetries
    tmp: Option<Bytes>,
    dst: Option<Bytes>
  ) {
    predicate Over() { phase.Ended? || phase.Crashed? }
  }

  function Init(p: Params, tmp: Option<Bytes>, dst: Option<Bytes>): State
    requires p.Valid()
  {
    State(Start, 0, seq(|p.Chunks()|, _ => Worker(Idle, 0, 0)), 0, false, false, None, 0, 0, 0, tmp, dst)
  }

  /** What a chunk's goroutine, or its part of the environment, does. */
  datatype Act =
    | Begin
    | Refuse                    // transport error, or a status that is not accepted
    | Accept(body: Bytes)       // an accepted response that will deliver body
    | OpenFail(created: bool)   // single download: the temporary file could not be prepared
    | Read(n: nat)
    | Write(n: nat)             // the disk took n bytes of the buffer
    | End                       // end of body
    | Break                     // any other end of the copy: read error, timeout, cancellation, fsync
    | Load
    | Subtract
    | Decide
    | Wake
    | Abort
    | Return
    | Leave

  datatype Label =
    | Reject
    | Open(ok: bool, created: bool)
    | Check
    | Acquire
    | WaitDone
    | Sync(ok: bool)
    | CheckSize
    | CheckHash(readable: bool) // whether the temporary file could be read back
    | Rename(ok: bool)
    | Remove
    | Cancel
    | Crash
    | Work(i: nat, act: Act)

  predicate Parked(w: Worker) { w.pc.Idle? || w.pc.Exited? }

  predicate Quiescent(s: State)
  {
    forall i :: 0 <= i < |s.ws| ==> Parked(s.ws[i])
  }

  predicate Can(p: Params, cancelled: bool, w: Worker, act: Act)
  {
    var pc := w.pc;
    match act
    case Begin => pc.Ready?
    case Refuse => pc.Connecting?
    case Accept(_) => pc.Connecting?
    case OpenFail(_) => pc.Connecting? && p.Single()
    case Read(n) => pc.Copying? && 1 <= n <= |pc.rest| && n <= BUFFER
    case Write(n) => pc.Holding? && n <= |pc.buf|
    case End => pc.Copying? && pc.rest == []
    case Break => pc.Copying?
    case Load => pc.Rolling?
    case Subtract => pc.Subtracting?
    case Decide => pc.Deciding?
    case Wake => pc.Sleeping?
    case Abort => pc.Sleeping? && cancelled
    case Return => pc.Returning?
    case Leave => pc.Leaving?
  }

  predicate Enabled(p: Params, s: State, l: Label)
    requires p.Valid()
  {
    && !s.Over()
    && |s.ws| == |p.Chunks()|
    && match l
       case Reject => s.phase.Start?
       case Open(_, _) => s.phase.Start?
       case Check => s.phase.Dispatch?
       case Acquire => s.phase.Admit? && s.next < |s.ws| && s.slots < p.concurrency
       case WaitDone => s.phase.Waiting? && Quiescent(s)
       case Sync(_) => s.phase.Syncing?
       case CheckSize => s.phase.Sizing?
       case CheckHash(_) => s.phase.Hashing?
       case Rename(ok) => s.phase.Renaming? && (ok ==> s.tmp.Some?)
       case Remove => s.phase.Cleanup?
       case Cancel => !s.outside
       case Crash => true
       case Work(i, act) => i < |s.ws| && Can(p, s.cancelled, s.ws[i], act)
  }

  /** Where goroutine w of chunk c stands after its step, given what it read of the shared state. */
  function Moved(p: Params, c: Chunk, counter: int, cancelled: bool, w: Worker, act: Act): Worker
    requires Can(p, cancelled, w, act)
  {
    var pc := w.pc;
    match act
    case Begin => Worker(Connecting(pc.k, counter), w.gets + 1, w.naps)
    case Refuse => w.(pc := Rolling(pc.k, pc.pre, 0))
    case Accept(body) => w.(pc := Copying(pc.k, pc.pre, c.start, body))
    case OpenFail(_) => w.(pc := Rolling(pc.k, pc.pre, 0))
    case Read(n) => w.(pc := Holding(pc.k, pc.pre, pc.off, pc.rest[..n], pc.rest[n..]))
    case Write(n) =>
      if n == |pc.buf| then w.(pc := Copying(pc.k, pc.pre, pc.off + n, pc.rest))
      else w.(pc := Rolling(pc.k, pc.pre, pc.off + |pc.buf| - c.start))
    case End =>
      if p.Single() || pc.off - c.start == c.Size()
      then w.(pc := Returning(true, pc.off - c.start))
      else w.(pc := Rolling(pc.k, pc.pre, pc.off - c.start))
    case Break => w.(pc := Rolling(pc.k, pc.pre, pc.off - c.start))
    case Load => w.(pc := Subtracting(pc.k, counter - pc.pre, pc.rd))
    case Subtract => w.(pc := Deciding(pc.k))
    case Decide =>
      if GivesUp(p, cancelled, pc.k) then w.(pc := Returning(false, 0))
      else Worker(Sleeping(pc.k + 1), w.gets, w.naps + 1)
    case Wake => w.(pc := Ready(pc.k))
    case Abort => w.(pc := Returning(false, 0))
    case Return => w.(pc := Leaving(pc.ok, pc.n))
    case Leave => w.(pc := Exited(pc.ok, pc.n))
  }

  predicate GivesUp(p: Params, cancelled: bool, k: nat) { cancelled || k >= p.maxRetries }

  /** The temporary file after a worker's step. */
  function TmpAfter(p: Params, tmp: Option<Bytes>, w: Worker, act: Act): Option<Bytes>
    requires act.Write? ==> w.pc.Holding? && act.n <= |w.pc.buf|
  {
    match act
    case Accept(_) => if p.Single() then Some(Zeros(p.total)) else tmp
    case OpenFail(created) => if created then Some([]) else tmp
    case Write(n) => if tmp.Some? then Some(Overlay(tmp.value, w.pc.off, w.pc.buf[..n])) else None
    case Wake => if p.Single() then None else tmp
    case _ => tmp
  }

  function CounterAfter(counter: int, w: Worker, act: Act): int
    requires act.Subtract? ==> w.pc.Subtracting?
  {
    match act
    case Read(n) => counter + n
    case Subtract => counter - Max(0, w.pc.partial)
    case _ => counter
  }

  /** One step of the goroutine of chunk i. */
  function Move(p: Params, s: State, i: nat, act: Act): State
    requires p.Valid() && |s.ws| == |p.Chunks()| && i < |s.ws| && Can(p, s.cancelled, s.ws[i], act)
  {
    var w := s.ws[i];
    var fails := act.Return? && !w.pc.ok && s.firstErr.None?;
    s.(ws := s.ws[i := Moved(p, p.Chunks()[i], s.counter, s.cancelled, w, act)],
       tmp := TmpAfter(p, s.tmp, w, act),
       counter := CounterAfter(s.counter, w, act),
       totalWritten := if act.Return? && w.pc.ok then s.totalWritten + w.pc.n else s.totalWritten,
       retries := if act.Decide? && !GivesUp(p, s.cancelled, w.pc.k) then s.retries + 1 else s.retries,
       firstErr := if fails then Some(i) else s.firstErr,
       cancelled := s.cancelled || (fails && !p.Single()),
       slots := if act.Leave? then s.slots - 1 else s.slots)
  }

  function Next(p: Params, s: State, l: Label): State
    requires p.Valid() && Enabled(p, s, l)
  {
    match l
    case Reject => s.(phase := Ended(Failed(Early)))
    case Open(ok, created) =>
      if p.Single() then
        s.(phase := Waiting, next := 1, slots := 1, ws := [Worker(Ready(0), 0, 0)])
      else if ok then s.(phase := Dispatch, tmp := Some(Zeros(p.total)))
      else s.(phase := Cleanup(OpenError), tmp := if created then Some([]) else s.tmp)
    case Check =>
      s.(phase := if s.next < |s.ws| && !s.cancelled then Admit else Waiting)
    case Acquire =>
      s.(phase := Dispatch, next := s.next + 1, slots := s.slots + 1, ws := s.ws[s.next := Worker(Ready(0), 0, 0)])
    case WaitDone =>
      s.(phase := if s.firstErr.Some? then Cleanup(ChunkError(s.firstErr.value))
                  else if p.Single() then Sizing else Syncing)
    case Sync(ok) => s.(phase := if ok then Sizing else Cleanup(SyncError))
    case CheckSize =>
      s.(phase := if s.totalWritten != p.total then Cleanup(SizeMismatch)
                  else if p.verify then Hashing else Renaming(false))
    case CheckHash(readable) =>
      s.(phase := if readable && s.tmp.Some? && p.md5(s.tmp.value) == p.etag then Renaming(true)
                  else Cleanup(ChecksumMismatch))
    case Rename(ok) =>
      if ok
      then s.(phase := Ended(Success(s.totalWritten, |s.ws|, s.retries, s.phase.verified)), dst := s.tmp, tmp := None)
      else s.(phase := Cleanup(RenameError))
    case Remove => s.(phase := Ended(Failed(s.phase.why)), tmp := None)
    case Cancel => s.(cancelled := true, outside := true)
    case Crash => s.(phase := Crashed)
    case Work(i, act) => Move(p, s, i, act)
  }

  /** The labels can be taken one after the other from s. */
  predicate Follows(p: Params, s: State, ls: seq<Label>)
    requires p.Valid()
    decreases |ls|
  {
    ls != [] ==> Enabled(p, s, ls[0]) && Follows(p, Next(p, s, ls[0]), ls[1..])
  }

  function After(p: Params, s: State, ls: seq<Label>): State
    requires p.Valid() && Follows(p, s, ls)
    decreases |ls|
  {
    if ls == [] then s else After(p, Next(p, s, ls[0]), ls[1..])
  }

  lemma {:induction false} FollowsAppend(p: Params, s: State, ls: seq<Label>, ms: seq<Label>)
    requires p.Valid() && Follows(p, s, ls) && Follows(p, After(p, s, ls), ms)
    ensures Follows(p, s, ls + ms) && After(p, s, ls + ms) == After(p, After(p, s, ls), ms)
    decreases |ls|
  {
    if ls == [] {
      assert ls + ms == ms;
    } else {
      assert (ls + ms)[1..] == ls[1..] + ms;
      FollowsAppend(p, Next(p, s, ls[0]), ls[1..], ms);
    }
  }

  // ---- Runs against a given server ----

  /** What the server may send as the body of an accepted response, chunk by chunk. */
  type Server = (nat, Bytes) -> bool

  predicate Answers(server: Server, l: Label)
  {
    l.Work? && l.act.Accept? ==> server(l.i, l.act.body)
  }

  predicate AllAnswers(server: Server, ls: seq<Label>)
  {
    forall n :: 0 <= n < |ls| ==> Answers(server, ls[n])
  }

  /** Some run against this server leads from s to t. */
  ghost predicate Leads(p: Params, server: Server, s: State, t: State)
    requires p.Valid()
  {
    exists ls :: Follows(p, s, ls) && After(p, s, ls) == t && AllAnswers(server, ls)
  }

  lemma LeadsSelf(p: Params, server: Server, s: State)
    requires p.Valid()
    ensures Leads(p, server, s, s)
  {
    assert Follows(p, s, []) && After(p, s, []) == s && AllAnswers(server, []);
  }

  lemma LeadsNext(p: Params, server: Server, s: State, t: State, l: Label)
    requires p.Valid() && Leads(p, server, s, t) && Enabled(p, t, l) && Answers(server, l)
    ensures Leads(p, server, s, Next(p, t, l))
  {
    var ls :| Follows(p, s, ls) && After(p, s, ls) == t && AllAnswers(server, ls);
    FollowsAppend(p, s, ls, [l]);
    assert AllAnswers(server, ls + [l]);
  }
}
