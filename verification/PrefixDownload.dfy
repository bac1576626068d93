/**
  The second phase of DownloadPrefix (downloader/multi.go) as a step system: the dispatch loop
  over the listed objects, one goroutine for each file, and the shared counts, results, first
  error and progress counter.  What a file's Download does inside is the transfer system; here
  it reports progress any number of times and then succeeds or fails.
 */
module PrefixDownload {
  import opened Prelude
  import Listing

  datatype Params = Params(objects: seq<Listing.Object>, fileConcurrency: int, failFast: bool) {
    /** DownloadPrefix runs four files at a time when the setting is below one. */
    function Slots(): int { if fileConcurrency < 1 then 4 else fileConcurrency }
  }

  datatype FileOutcome = Skipped | Done(bytes: int) | Error

  datatype FileResult = FileResult(index: nat, out: FileOutcome)

  /** A call of the closure that has computed its delta and not yet stored it.  A file's download
      calls from the goroutines of its chunks, so calls are told apart by goroutine. */
  datatype Callback = Callback(v: int, delta: int)

  /** Where a file's goroutine is. */
  datatype Pc =
    | Idle
    | Statting
    | Crediting                     // counted as skipped, size not yet in the progress counter
    | Downloading(last: int, pending: map<nat, Callback>)  // last is lastReported
    | Adding(bytes: int)            // counted as succeeded, bytes not yet in the total
    | Failing                       // counted as failed, fail-fast not yet looked at
    | Appending(out: FileOutcome)
    | Leaving(out: FileOutcome)
    | Exited(out: FileOutcome)

  /** reports is the history of what Download reported for this file, gained what its calls have
      added to the progress counter. */
  datatype Worker = Worker(pc: Pc, reports: seq<int>, gained: int)

  datatype MultiError = FirstError(index: nat) | SomeFailed(failed: nat, files: nat)

  datatype MultiResult = MultiResult(
    totalFiles: nat,
    totalBytes: int,
    succeeded: int,
    failed: int,
    skipped: int,
    results: seq<FileResult>,
    errors: seq<nat>
  )

  datatype Phase = Dispatch | Admit | Waiting | Ended(result: MultiResult, err: Option<MultiError>)

  datatype State = State(
    phase: Phase,
    next: nat,
    ws: seq<Worker>,
    slots: int,
    cancelled: bool,
    outside: bool,
    firstErr: Option<nat>,
    succeeded: int,
    failed: int,
    skipped: int,
    totalBytes: int,
    results: seq<FileResult>,
    global: int                     // globalBytesCounter
  )

  function Init(p: Params): State
  {
    State(Dispatch, 0, seq(|p.objects|, _ => Worker(Idle, [], 0)), 0, false, false, None, 0, 0, 0, 0, [], 0)
  }

  datatype Act =
    | Stat(hit: bool)               // the local file exists with the listed size, or not
    | Credit
    | Report(g: nat, v: int)        // goroutine g calls the closure, which computes its delta
    | Store(g: nat)                 // that call stores its value and adds its delta
    | Finish(ok: bool, bytes: int)
    | Add
    | FailFast
    | Append
    | Leave

  datatype Label = Check | Acquire | WaitDone | Cancel | Work(i: nat, act: Act)

  predicate Parked(w: Worker) { w.pc.Idle? || w.pc.Exited? }

  predicate Quiescent(s: State) { forall i :: 0 <= i < |s.ws| ==> Parked(s.ws[i]) }

  predicate Can(w: Worker, act: Act)
  {
    match act
    case Stat(_) => w.pc.Statting?
    case Credit => w.pc.Crediting?
    case Report(g, _) => w.pc.Downloading? && g !in w.pc.pending
    case Store(g) => w.pc.Downloading? && g in w.pc.pending
    case Finish(_, _) => w.pc.Downloading? && w.pc.pending == map[]
    case Add => w.pc.Adding?
    case FailFast => w.pc.Failing?
    case Append => w.pc.Appending?
    case Leave => w.pc.Leaving?
  }

  predicate Enabled(p: Params, s: State, l: Label)
  {
    && !s.phase.Ended? && |s.ws| == |p.objects|
    && match l
       case Check => s.phase.Dispatch?
       case Acquire => s.phase.Admit? && s.next < |s.ws| && s.slots < p.Slots()
       case WaitDone => s.phase.Waiting? && Quiescent(s)
       case Cancel => !s.outside
       case Work(i, act) => i < |s.ws| && Can(s.ws[i], act)
  }

  /** What a call adds to the progress counter: its delta, if there is one. */
  function Added(delta: int): int { Max(0, delta) }

  function Moved(w: Worker, act: Act): Worker
    requires Can(w, act)
  {
    match act
    case Stat(hit) => w.(pc := if hit then Crediting else Downloading(0, map[]))
    case Credit => w.(pc := Appending(Skipped))
    case Report(g, v) =>
      w.(pc := Downloading(w.pc.last, w.pc.pending[g := Callback(v, v - w.pc.last)]), reports := w.reports + [v])
    case Store(g) =>
      var c := w.pc.pending[g];
      w.(pc := Downloading(if c.delta > 0 then c.v else w.pc.last, w.pc.pending - {g}),
         gained := w.gained + Added(c.delta))
    case Finish(ok, bytes) => w.(pc := if ok then Adding(bytes) else Failing)
    case Add => w.(pc := Appending(Done(w.pc.bytes)))
    case FailFast => w.(pc := Appending(Error))
    case Append => w.(pc := Leaving(w.pc.out))
    case Leave => w.(pc := Exited(w.pc.out))
  }

  function Move(p: Params, s: State, i: nat, act: Act): State
    requires |s.ws| == |p.objects| && i < |s.ws| && Can(s.ws[i], act)
  {
    var w := s.ws[i];
    var stops := act.FailFast? && p.failFast && s.firstErr.None?;
    s.(ws := s.ws[i := Moved(w, act)],
       slots := if act.Leave? then s.slots - 1 else s.slots,
       cancelled := s.cancelled || stops,
       firstErr := if stops then Some(i) else s.firstErr,
       succeeded := if act.Finish? && act.ok then s.succeeded + 1 else s.succeeded,
       failed := if act.Finish? && !act.ok then s.failed + 1 else s.failed,
       skipped := if act.Stat? && act.hit then s.skipped + 1 else s.skipped,
       totalBytes := if act.Add? then s.totalBytes + w.pc.bytes else s.totalBytes,
       results := if act.Append? then s.results + [FileResult(i, w.pc.out)] else s.results,
       global := if act.Credit? then s.global + p.objects[i].size
                 else if act.Store? then s.global + Added(w.pc.pending[act.g].delta)
                 else s.global)
  }

  /** The keys of the failed results, in the order of the results. */
  function Errors(rs: seq<FileResult>): seq<nat>
  {
    if rs == [] then []
    else Errors(rs[..|rs| - 1]) + (if rs[|rs| - 1].out.Error? then [rs[|rs| - 1].index] else [])
  }

  function Summary(p: Params, s: State): MultiResult
  {
    MultiResult(|p.objects|, s.totalBytes, s.succeeded, s.failed, s.skipped, s.results, Errors(s.results))
  }

  function Verdict(p: Params, s: State): Option<MultiError>
  {
    if p.failFast && s.firstErr.Some? then Some(FirstError(s.firstErr.value))
    else if |Errors(s.results)| > 0 then Some(SomeFailed(|Errors(s.results)|, |p.objects|))
    else None
  }

  const FRESH := Worker(Statting, [], 0)

  function Next(p: Params, s: State, l: Label): State
    requires Enabled(p, s, l)
  {
    match l
    case Check => s.(phase := if s.next < |s.ws| && !s.cancelled then Admit else Waiting)
    case Acquire => s.(phase := Dispatch, next := s.next + 1, slots := s.slots + 1, ws := s.ws[s.next := FRESH])
    case WaitDone => s.(phase := Ended(Summary(p, s), Verdict(p, s)))
    case Cancel => s.(cancelled := true, outside := true)
    case Work(i, act) => Move(p, s, i, act)
  }

  predicate Follows(p: Params, s: State, ls: seq<Label>)
    decreases |ls|
  {
    ls != [] ==> Enabled(p, s, ls[0]) && Follows(p, Next(p, s, ls[0]), ls[1..])
  }

  function After(p: Params, s: State, ls: seq<Label>): State
    requires Follows(p, s, ls)
    decreases |ls|
  {
    if ls == [] then s else After(p, Next(p, s, ls[0]), ls[1..])
  }

  lemma {:induction false} FollowsAppend(p: Params, s: State, ls: seq<Label>, ms: seq<Label>)
    requires Follows(p, s, ls) && Follows(p, After(p, s, ls), ms)
    ensures Follows(p, s, ls + ms) && After(p, s, ls + ms) == After(p, After(p, s, ls), ms)
    decreases |ls|
  {
    if ls == [] {
      assert ls + ms == ms;
    } else {
      assert (ls + ms)[1..] == ls[1..] + ms;
      FollowsAppend(p, Next(p, s, ls[0]), ls[1..], ms);
    }
  }

  // ---- Loops the code runs over its lists ----

  function Size(o: Listing.Object): int { o.size }

  /** The announced total. */
  method TotalSize(objects: seq<Listing.Object>) returns (total: int)
    ensures total == Tally(Size, objects)
  {
    total := 0;
    for k := 0 to |objects|
      invariant total == Tally(Size, objects[..k])
    {
      TallyAppend(Size, objects[..k], objects[k]);
      assert objects[..k + 1] == objects[..k] + [objects[k]];
      total := total + objects[k].size;
    }
    assert objects[..|objects|] == objects;
  }

  /** The errors are those of the results at these places, in this order: all that failed. */
  predicate ErrorsAt(errors: seq<nat>, rs: seq<FileResult>, places: seq<nat>)
  {
    && |places| == |errors|
    && (forall m, n :: 0 <= m < n < |places| ==> places[m] < places[n])
    && (forall n :: 0 <= n < |places| ==> places[n] < |rs| && errors[n] == rs[places[n]].index)
    && forall k :: 0 <= k < |rs| ==> (k in places <==> rs[k].out.Error?)
  }

  lemma ErrorsLonger(errors: seq<nat>, rs: seq<FileResult>, places: seq<nat>, r: FileResult)
    requires ErrorsAt(errors, rs, places)
    ensures !r.out.Error? ==> ErrorsAt(errors, rs + [r], places)
    ensures r.out.Error? ==> ErrorsAt(errors + [r.index], rs + [r], places + [|rs|])
  {
  }

  lemma {:induction false} ErrorsInOrder(rs: seq<FileResult>) returns (places: seq<nat>)
    ensures ErrorsAt(Errors(rs), rs, places)
  {
    if rs == [] {
      places := [];
    } else {
      var n := |rs| - 1;
      places := ErrorsInOrder(rs[..n]);
      ErrorsLonger(Errors(rs[..n]), rs[..n], places, rs[n]);
      assert rs == rs[..n] + [rs[n]];
      if rs[n].out.Error? {
        places := places + [n];
      } else {
        assert Errors(rs) == Errors(rs[..n]);
      }
    }
  }

  method CollectErrors(rs: seq<FileResult>) returns (errors: seq<nat>)
    ensures errors == Errors(rs)
    ensures exists places :: ErrorsAt(errors, rs, places)
  {
    ghost var places := ErrorsInOrder(rs);
    errors := [];
    for k := 0 to |rs|
      invariant errors == Errors(rs[..k])
    {
      assert rs[..k + 1][..k] == rs[..k];
      if rs[k].out.Error? {
        errors := errors + [rs[k].index];
      }
    }
    assert rs[..|rs|] == rs;
  }

  class Cell {
    var value: int

    constructor (v: int)
      ensures value == v
    {
      value := v;
    }
  }

  /** The closure handed to a file's Download as OnProgress, with the variable it captures. */
  class FileProgress {
    const global: Cell
    var lastReported: int

    constructor (g: Cell)
      ensures global == g && lastReported == 0
    {
      global, lastReported := g, 0;
    }

    method OnProgress(perFileBytes: int)
      modifies this, global
      ensures lastReported == Max(old(lastReported), perFileBytes)
      ensures global.value - lastReported == old(global.value) - old(lastReported)
      ensures global.value == old(global.value) + Added(perFileBytes - old(lastReported))
    {
      var delta := perFileBytes - lastReported;
      if delta > 0 {
        lastReported := perFileBytes;
        global.value := global.value + delta;
      }
    }
  }
}
