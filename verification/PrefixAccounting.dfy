/** What every run of a prefix download keeps: its counts, its results and its progress. */
module PrefixAccounting {
  import opened Prelude
  import Listing
  import opened PrefixDownload

  // ---- Who runs ----

  function Alive(w: Worker): int { if Parked(w) then 0 else 1 }

  ghost predicate Shape(p: Params, s: State)
  {
    && |s.ws| == |p.objects| && s.next <= |s.ws|
    && (forall i :: 0 <= i < |s.ws| ==> (s.ws[i].pc.Idle? <==> i >= s.next))
    && s.slots == Tally(Alive, s.ws) <= p.Slots()
    && (s.phase.Admit? ==> s.next < |s.ws|)
    && (s.phase.Ended? ==> Quiescent(s))
    && (s.phase.Waiting? || s.phase.Ended? ==> s.next == |s.ws| || s.cancelled)
    && Causes(p, s)
  }

  /** The context is done for one of two reasons: the caller, or the first error under fail-fast. */
  predicate Causes(p: Params, s: State)
  {
    && (s.cancelled ==> s.outside || s.firstErr.Some?)
    && (s.outside ==> s.cancelled)
    && (s.firstErr.Some? ==> s.cancelled && p.failFast)
  }

  // ---- What a goroutine has added to the shared variables ----

  /** The outcome a goroutine has reached, if it has. */
  function Reached(w: Worker): Option<FileOutcome>
  {
    match w.pc
    case Crediting => Some(Skipped)
    case Adding(bytes) => Some(Done(bytes))
    case Failing => Some(Error)
    case Appending(out) => Some(out)
    case Leaving(out) => Some(out)
    case Exited(out) => Some(out)
    case _ => None
  }

  function Succeeds(w: Worker): int { if Reached(w).Some? && Reached(w).value.Done? then 1 else 0 }

  function Fails(w: Worker): int { if Reached(w) == Some(Error) then 1 else 0 }

  function Skips(w: Worker): int { if Reached(w) == Some(Skipped) then 1 else 0 }

  function Brought(w: Worker): int
  {
    if Reached(w).Some? && Reached(w).value.Done? && !w.pc.Adding? then Reached(w).value.bytes else 0
  }

  predicate Posted(w: Worker) { w.pc.Leaving? || w.pc.Exited? }

  function Posts(w: Worker): int { if Posted(w) then 1 else 0 }

  function PostedBytes(w: Worker): int { if Posted(w) && w.pc.out.Done? then w.pc.out.bytes else 0 }

  function PostedErrors(w: Worker): int { if Posted(w) && w.pc.out.Error? then 1 else 0 }

  ghost predicate Tallies(s: State)
  {
    && s.succeeded == Tally(Succeeds, s.ws) && s.failed == Tally(Fails, s.ws) && s.skipped == Tally(Skips, s.ws)
    && s.totalBytes == Tally(Brought, s.ws)
  }

  function PostedDones(w: Worker): int { if Posted(w) && w.pc.out.Done? then 1 else 0 }

  function PostedSkips(w: Worker): int { if Posted(w) && w.pc.out.Skipped? then 1 else 0 }

  function WasDone(r: FileResult): int { if r.out.Done? then 1 else 0 }

  function WasSkipped(r: FileResult): int { if r.out.Skipped? then 1 else 0 }

  function Bytes(r: FileResult): int { if r.out.Done? then r.out.bytes else 0 }

  /** The results are the outcomes of the goroutines that have appended, each once. */
  ghost predicate Listed(ws: seq<Worker>, rs: seq<FileResult>)
  {
    && (forall k :: 0 <= k < |rs| ==> InPlace(ws, rs[k]))
    && (forall j, k :: 0 <= j < |rs| && 0 <= k < |rs| && j != k ==> rs[j].index != rs[k].index)
    && (forall i :: 0 <= i < |ws| && Posted(ws[i]) ==> Mentions(rs, i))
  }

  predicate InPlace(ws: seq<Worker>, r: FileResult)
  {
    r.index < |ws| && Posted(ws[r.index]) && ws[r.index].pc.out == r.out
  }

  predicate Mentions(rs: seq<FileResult>, i: nat)
  {
    exists k :: 0 <= k < |rs| && rs[k].index == i
  }

  ghost predicate PostSums(ws: seq<Worker>, rs: seq<FileResult>)
  {
    && |rs| == Tally(Posts, ws)
    && Tally(Bytes, rs) == Tally(PostedBytes, ws)
    && |Errors(rs)| == Tally(PostedErrors, ws)
    && Tally(WasDone, rs) == Tally(PostedDones, ws) && Tally(WasSkipped, rs) == Tally(PostedSkips, ws)
  }

  ghost predicate Posting(s: State) { Listed(s.ws, s.results) && PostSums(s.ws, s.results) }

  ghost predicate Inv(p: Params, s: State)
  {
    Shape(p, s) && Tallies(s) && Posting(s)
    && (s.phase.Ended? ==> s.phase.result == Summary(p, s) && s.phase.err == Verdict(p, s))
  }

  lemma InvInit(p: Params)
    ensures Inv(p, Init(p))
  {
    var ws := Init(p).ws;
    TallyConstant(Alive, ws, 0);
    TallyConstant(Succeeds, ws, 0);
    TallyConstant(Fails, ws, 0);
    TallyConstant(Skips, ws, 0);
    TallyConstant(Brought, ws, 0);
    TallyConstant(Posts, ws, 0);
    TallyConstant(PostedBytes, ws, 0);
    TallyConstant(PostedErrors, ws, 0);
    TallyConstant(PostedDones, ws, 0);
    TallyConstant(PostedSkips, ws, 0);
  }

  /** What a step adds to the shared variables shows in the goroutine's own entry. */
  lemma MovedEffect(w: Worker, act: Act)
    requires Can(w, act)
    ensures var v := Moved(w, act);
            && Alive(v) - Alive(w) == (if act.Leave? then -1 else 0)
            && Succeeds(v) - Succeeds(w) == (if act.Finish? && act.ok then 1 else 0)
            && Fails(v) - Fails(w) == (if act.Finish? && !act.ok then 1 else 0)
            && Skips(v) - Skips(w) == (if act.Stat? && act.hit then 1 else 0)
            && Brought(v) - Brought(w) == (if act.Add? then w.pc.bytes else 0)
            && Posts(v) - Posts(w) == (if act.Append? then 1 else 0)
            && PostedBytes(v) - PostedBytes(w) == (if act.Append? && w.pc.out.Done? then w.pc.out.bytes else 0)
            && PostedDones(v) - PostedDones(w) == (if act.Append? && w.pc.out.Done? then 1 else 0)
            && PostedSkips(v) - PostedSkips(w) == (if act.Append? && w.pc.out.Skipped? then 1 else 0)
            && PostedErrors(v) - PostedErrors(w) == (if act.Append? && w.pc.out.Error? then 1 else 0)
            && !Parked(w) && !v.pc.Idle?
            && (Posted(w) ==> Posted(v) && v.pc.out == w.pc.out)
            && (Posted(v) && !Posted(w) ==> act.Append?)
  {
  }

  /** A goroutine that moves, or gives its slot back, leaves the shape as it was. */
  lemma ShapeKept(p: Params, s: State, i: nat, v: Worker, t: State)
    requires Shape(p, s) && i < |s.ws| && !Parked(s.ws[i]) && !v.pc.Idle?
    requires t.ws == s.ws[i := v] && t.phase == s.phase && t.next == s.next
    requires t.slots - s.slots == Alive(v) - Alive(s.ws[i])
    requires Causes(p, t) && (s.cancelled ==> t.cancelled)
    ensures Shape(p, t)
  {
    TallyUpdate(Alive, s.ws, i, v);
  }

  lemma ShapeStep(p: Params, s: State, l: Label)
    requires Shape(p, s) && Enabled(p, s, l)
    ensures Shape(p, Next(p, s, l))
  {
    match l
    case Work(i, act) =>
      MovedEffect(s.ws[i], act);
      ShapeKept(p, s, i, Moved(s.ws[i], act), Move(p, s, i, act));
    case Acquire => TallyUpdate(Alive, s.ws, s.next, FRESH);
    case _ =>
  }

  lemma TalliesStep(p: Params, s: State, l: Label)
    requires Shape(p, s) && Tallies(s) && Enabled(p, s, l)
    ensures Tallies(Next(p, s, l))
  {
    if l.Work? || l.Acquire? {
      var i := if l.Work? then l.i else s.next;
      var v := if l.Work? then Moved(s.ws[i], l.act) else FRESH;
      if l.Work? { MovedEffect(s.ws[i], l.act); }
      TallyUpdate(Succeeds, s.ws, i, v);
      TallyUpdate(Fails, s.ws, i, v);
      TallyUpdate(Skips, s.ws, i, v);
      TallyUpdate(Brought, s.ws, i, v);
    }
  }

  lemma ResultAdded(rs: seq<FileResult>, r: FileResult)
    ensures Tally(Bytes, rs + [r]) == Tally(Bytes, rs) + Bytes(r)
    ensures Tally(WasDone, rs + [r]) == Tally(WasDone, rs) + WasDone(r)
    ensures Tally(WasSkipped, rs + [r]) == Tally(WasSkipped, rs) + WasSkipped(r)
    ensures |Errors(rs + [r])| == |Errors(rs)| + (if r.out.Error? then 1 else 0)
  {
    TallyAppend(Bytes, rs, r);
    TallyAppend(WasDone, rs, r);
    TallyAppend(WasSkipped, rs, r);
    assert (rs + [r])[..|rs|] == rs;
  }

  lemma ListedKept(ws: seq<Worker>, rs: seq<FileResult>, i: nat, w: Worker)
    requires Listed(ws, rs) && i < |ws|
    requires (Posted(w) <==> Posted(ws[i])) && (Posted(w) ==> w.pc.out == ws[i].pc.out)
    ensures Listed(ws[i := w], rs)
  {
    forall k | 0 <= k < |rs| ensures InPlace(ws[i := w], rs[k]) {
      assert InPlace(ws, rs[k]);
    }
  }

  lemma ListedAppend(ws: seq<Worker>, rs: seq<FileResult>, i: nat, w: Worker)
    requires Listed(ws, rs) && i < |ws| && !Posted(ws[i]) && Posted(w)
    ensures Listed(ws[i := w], rs + [FileResult(i, w.pc.out)])
  {
    var r := FileResult(i, w.pc.out);
    var qs, vs := rs + [r], ws[i := w];
    forall k | 0 <= k < |qs|
      ensures InPlace(vs, qs[k]) && (k < |rs| ==> qs[k].index != i)
    {
      if k < |rs| { assert InPlace(ws, rs[k]); }
    }
    forall j | 0 <= j < |vs| && Posted(vs[j])
      ensures Mentions(qs, j)
    {
      if j == i {
        assert qs[|rs|].index == i;
      } else {
        assert Mentions(rs, j);
        var k :| 0 <= k < |rs| && rs[k].index == j;
        assert qs[k].index == j;
      }
    }
  }

  lemma PostingKept(ws: seq<Worker>, rs: seq<FileResult>, i: nat, w: Worker)
    requires Listed(ws, rs) && PostSums(ws, rs) && i < |ws|
    requires (Posted(w) <==> Posted(ws[i])) && (Posted(w) ==> w.pc.out == ws[i].pc.out)
    ensures Listed(ws[i := w], rs) && PostSums(ws[i := w], rs)
  {
    ListedKept(ws, rs, i, w);
    TallyUpdate(Posts, ws, i, w);
    TallyUpdate(PostedBytes, ws, i, w);
    TallyUpdate(PostedErrors, ws, i, w);
    TallyUpdate(PostedDones, ws, i, w);
    TallyUpdate(PostedSkips, ws, i, w);
  }

  lemma PostingAppends(ws: seq<Worker>, rs: seq<FileResult>, i: nat, w: Worker)
    requires Listed(ws, rs) && PostSums(ws, rs) && i < |ws| && !Posted(ws[i]) && Posted(w)
    ensures Listed(ws[i := w], rs + [FileResult(i, w.pc.out)]) && PostSums(ws[i := w], rs + [FileResult(i, w.pc.out)])
  {
    ListedAppend(ws, rs, i, w);
    ResultAdded(rs, FileResult(i, w.pc.out));
    TallyUpdate(Posts, ws, i, w);
    TallyUpdate(PostedBytes, ws, i, w);
    TallyUpdate(PostedErrors, ws, i, w);
    TallyUpdate(PostedDones, ws, i, w);
    TallyUpdate(PostedSkips, ws, i, w);
  }

  lemma PostingStep(p: Params, s: State, l: Label)
    requires Shape(p, s) && Posting(s) && Enabled(p, s, l)
    ensures Posting(Next(p, s, l))
  {
    match l
    case Work(i, act) =>
      if act.Append? {
        PostingAppends(s.ws, s.results, i, Moved(s.ws[i], act));
      } else {
        PostingKept(s.ws, s.results, i, Moved(s.ws[i], act));
      }
    case Acquire => PostingKept(s.ws, s.results, s.next, FRESH);
    case _ =>
  }

  lemma InvStep(p: Params, s: State, l: Label)
    requires Inv(p, s) && Enabled(p, s, l)
    ensures Inv(p, Next(p, s, l))
  {
    ShapeStep(p, s, l);
    TalliesStep(p, s, l);
    PostingStep(p, s, l);
  }

  lemma {:induction false} InvAlong(p: Params, s: State, ls: seq<Label>)
    requires Inv(p, s) && Follows(p, s, ls)
    ensures Inv(p, After(p, s, ls))
    decreases |ls|
  {
    if ls != [] {
      InvStep(p, s, ls[0]);
      InvAlong(p, Next(p, s, ls[0]), ls[1..]);
    }
  }

  // ---- The accounts at the end ----

  function EndsWell(w: Worker): int { if Reached(w).Some? && !Reached(w).value.Error? then 1 else 0 }

  lemma AtRest(ws: seq<Worker>)
    requires forall i :: 0 <= i < |ws| ==> Parked(ws[i])
    ensures Tally(Posts, ws) == Tally(Succeeds, ws) + Tally(Fails, ws) + Tally(Skips, ws)
    ensures Tally(PostedBytes, ws) == Tally(Brought, ws)
    ensures Tally(PostedErrors, ws) == Tally(Fails, ws)
    ensures Tally(PostedDones, ws) == Tally(Succeeds, ws) && Tally(PostedSkips, ws) == Tally(Skips, ws)
  {
    TallySplit(Succeeds, Skips, EndsWell, ws);
    TallySplit(EndsWell, Fails, Posts, ws);
    assert Terms(PostedBytes, ws) == Terms(Brought, ws);
    assert Terms(PostedErrors, ws) == Terms(Fails, ws);
    assert Terms(PostedDones, ws) == Terms(Succeeds, ws) && Terms(PostedSkips, ws) == Terms(Skips, ws);
  }

  lemma {:induction false} NoErrors(rs: seq<FileResult>, k: nat)
    requires |Errors(rs)| == 0 && k < |rs|
    ensures !rs[k].out.Error?
    decreases |rs|
  {
    if k < |rs| - 1 { NoErrors(rs[..|rs| - 1], k); }
  }

  /** What DownloadPrefix returns adds up, in every run: the three counts are the results, the
      total is the bytes of the succeeded ones, there is an error for each failed one, and no
      object has two results. */
  lemma AccountsAddUp(p: Params, ls: seq<Label>)
    requires Follows(p, Init(p), ls) && After(p, Init(p), ls).phase.Ended?
    ensures var r := After(p, Init(p), ls).phase.result;
            && r.totalFiles == |p.objects|
            && r.succeeded + r.failed + r.skipped == |r.results|
            && r.succeeded == Tally(WasDone, r.results) && r.skipped == Tally(WasSkipped, r.results)
            && r.totalBytes == Tally(Bytes, r.results)
            && |r.errors| == r.failed && r.errors == Errors(r.results)
            && (forall k :: 0 <= k < |r.results| ==> r.results[k].index < |p.objects|)
            && (forall j, k :: 0 <= j < |r.results| && 0 <= k < |r.results| && j != k ==>
                r.results[j].index != r.results[k].index)
  {
    InvInit(p);
    InvAlong(p, Init(p), ls);
    var s := After(p, Init(p), ls);
    AtRest(s.ws);
    forall k | 0 <= k < |s.results| ensures s.results[k].index < |p.objects| {
      assert InPlace(s.ws, s.results[k]);
    }
  }

  /** The object has a result, and it is not an error. */
  predicate Handled(rs: seq<FileResult>, i: nat)
  {
    exists k :: 0 <= k < |rs| && rs[k].index == i && !rs[k].out.Error?
  }

  lemma AllPosted(ws: seq<Worker>)
    ensures Tally(Posts, ws) == |ws| <==> forall i :: 0 <= i < |ws| ==> Posted(ws[i])
  {
    var ones := seq(|ws|, _ => 1);
    SumConstant(ones, 1);
    SumCompare(Terms(Posts, ws), ones);
    if Terms(Posts, ws) == ones {
      forall i | 0 <= i < |ws| ensures Posted(ws[i]) {
        assert Terms(Posts, ws)[i] == ones[i];
      }
    }
  }

  lemma HandledIfPosted(s: State, i: nat)
    requires Posting(s) && |Errors(s.results)| == 0 && i < |s.ws|
    ensures Posted(s.ws[i]) <==> Handled(s.results, i)
  {
    if Posted(s.ws[i]) {
      assert Mentions(s.results, i);
      var k :| 0 <= k < |s.results| && s.results[k].index == i;
      NoErrors(s.results, k);
    }
    if Handled(s.results, i) {
      var k :| 0 <= k < |s.results| && s.results[k].index == i;
      assert InPlace(s.ws, s.results[k]);
    }
  }

  /**
    What a nil error means.  Nothing failed; and every listed object was downloaded or skipped
    exactly when there are as many results as files, which is always so unless the caller
    cancelled.
   */
  lemma NilError(p: Params, ls: seq<Label>)
    requires Follows(p, Init(p), ls) && After(p, Init(p), ls).phase.Ended? && After(p, Init(p), ls).phase.err.None?
    ensures var s := After(p, Init(p), ls); var r := s.phase.result;
            && r.failed == 0
            && ((forall i :: 0 <= i < |p.objects| ==> Handled(r.results, i)) <==> |r.results| == r.totalFiles)
            && (!s.outside ==> |r.results| == r.totalFiles)
  {
    InvInit(p);
    InvAlong(p, Init(p), ls);
    var s := After(p, Init(p), ls);
    AtRest(s.ws);
    AllPosted(s.ws);
    forall i | 0 <= i < |s.ws| ensures Posted(s.ws[i]) <==> Handled(s.results, i) {
      HandledIfPosted(s, i);
    }
  }

  /** The condition is needed: a caller that cancels before the first check gets a nil error
      and nothing done. */
  lemma CancelledNilError(p: Params)
    requires p.objects != []
    ensures var ls := [Cancel, Check, WaitDone];
            Follows(p, Init(p), ls) && After(p, Init(p), ls).phase.Ended?
            && After(p, Init(p), ls).phase.err.None? && After(p, Init(p), ls).phase.result.results == []
  {
    var ls := [Cancel, Check, WaitDone];
    assert ls[1..] == [Check, WaitDone] && ls[1..][1..] == [WaitDone] && [WaitDone][1..] == [];
    var s1 := Next(p, Init(p), Cancel);
    var s2 := Next(p, s1, Check);
    assert Follows(p, s2, [WaitDone]);
    assert Follows(p, s1, [Check, WaitDone]);
  }

  /** Fail-fast keeps the first error and returns it. */
  lemma {:induction false} FirstErrorReturned(p: Params, s: State, ls: seq<Label>)
    requires Inv(p, s) && Follows(p, s, ls) && s.firstErr.Some?
    ensures var t := After(p, s, ls);
            t.firstErr == s.firstErr && (t.phase.Ended? ==> t.phase.err == Some(FirstError(s.firstErr.value)))
    decreases |ls|
  {
    if ls != [] {
      InvStep(p, s, ls[0]);
      FirstErrorReturned(p, Next(p, s, ls[0]), ls[1..]);
    }
  }

  // ---- Which error is returned ----

  predicate Failed(w: Worker)
  {
    (w.pc.Appending? || w.pc.Leaving? || w.pc.Exited?) && w.pc.out.Error?
  }

  /** The first error names a file that failed, and under fail-fast it is set once one has. */
  ghost predicate FirstKept(p: Params, s: State)
  {
    && |s.ws| == |p.objects|
    && (s.firstErr.Some? ==> s.firstErr.value < |s.ws| && Failed(s.ws[s.firstErr.value]))
    && (p.failFast ==> forall i :: 0 <= i < |s.ws| && Failed(s.ws[i]) ==> s.firstErr.Some?)
  }

  lemma {:induction false} FirstKeptAlong(p: Params, s: State, ls: seq<Label>)
    requires Shape(p, s) && FirstKept(p, s) && Follows(p, s, ls)
    ensures FirstKept(p, After(p, s, ls))
    decreases |ls|
  {
    if ls != [] {
      ShapeStep(p, s, ls[0]);
      assert FirstKept(p, Next(p, s, ls[0]));
      FirstKeptAlong(p, Next(p, s, ls[0]), ls[1..]);
    }
  }

  lemma {:induction false} ErrorsAre(rs: seq<FileResult>, i: nat)
    ensures i in Errors(rs) <==> exists k :: 0 <= k < |rs| && rs[k].index == i && rs[k].out.Error?
    decreases |rs|
  {
    if rs != [] {
      var n := |rs| - 1;
      ErrorsAre(rs[..n], i);
      assert rs == rs[..n] + [rs[n]];
      if i in Errors(rs) && i !in Errors(rs[..n]) { assert rs[n].index == i; }
    }
  }

  /** A file that failed is among the errors, and the errors are files that failed. */
  lemma ErrorsFailed(s: State, i: nat)
    requires Posting(s) && Quiescent(s) && i < |s.ws|
    ensures i in Errors(s.results) <==> Failed(s.ws[i])
  {
    ErrorsAre(s.results, i);
    if Failed(s.ws[i]) {
      assert Mentions(s.results, i);
      var k :| 0 <= k < |s.results| && s.results[k].index == i;
      assert InPlace(s.ws, s.results[k]);
    }
    if i in Errors(s.results) {
      var k :| 0 <= k < |s.results| && s.results[k].index == i && s.results[k].out.Error?;
      assert InPlace(s.ws, s.results[k]);
    }
  }

  /** The error for these results: none if nothing failed, under fail-fast one of the failed
      files, and else how many of the listed files failed. */
  predicate Reports(failFast: bool, r: MultiResult, err: Option<MultiError>)
  {
    if r.failed == 0 then err.None?
    else if failFast then err.Some? && err.value.FirstError? && err.value.index in r.errors
    else err == Some(SomeFailed(|r.errors|, r.totalFiles))
  }

  /** The first error is one of them, and under fail-fast there is one if anything failed. */
  lemma FirstAmongErrors(p: Params, s: State)
    requires FirstKept(p, s) && Posting(s) && Quiescent(s)
    ensures s.firstErr.Some? ==> s.firstErr.value in Errors(s.results)
    ensures p.failFast && Errors(s.results) != [] ==> s.firstErr.Some?
  {
    var es := Errors(s.results);
    if es != [] {
      ErrorsAre(s.results, es[0]);
      var k :| 0 <= k < |s.results| && s.results[k].index == es[0] && s.results[k].out.Error?;
      assert InPlace(s.ws, s.results[k]);
    }
    if s.firstErr.Some? { ErrorsFailed(s, s.firstErr.value); }
  }

  /** What is returned is the verdict on the shared variables as they are left. */
  lemma {:induction false} ReturnsVerdict(p: Params, s: State, ls: seq<Label>)
    requires Follows(p, s, ls) && !s.phase.Ended?
    ensures var t := After(p, s, ls);
            t.phase.Ended? ==> t.phase.result == Summary(p, t) && t.phase.err == Verdict(p, t)
    decreases |ls|
  {
    if ls != [] {
      var u := Next(p, s, ls[0]);
      if u.phase.Ended? {
        assert ls[1..] == [];
      } else {
        ReturnsVerdict(p, u, ls[1..]);
      }
    }
  }

  /** What is returned beside the result, in every run. */
  lemma ErrorReturned(p: Params, ls: seq<Label>)
    requires Follows(p, Init(p), ls) && After(p, Init(p), ls).phase.Ended?
    ensures var s := After(p, Init(p), ls); Reports(p.failFast, s.phase.result, s.phase.err)
  {
    AccountsAddUp(p, ls);
    InvInit(p);
    InvAlong(p, Init(p), ls);
    FirstKeptAlong(p, Init(p), ls);
    FirstAmongErrors(p, After(p, Init(p), ls));
    ReturnsVerdict(p, Init(p), ls);
  }

  // ---- Cancellation ----

  function Admitted(s: State): int { if s.phase.Admit? then 1 else 0 }

  /** Once cancelled, at most the file already past the check is still started. */
  lemma {:induction false} CancelStopsDispatch(p: Params, s: State, ls: seq<Label>)
    requires Follows(p, s, ls) && s.cancelled
    ensures After(p, s, ls).next + Admitted(After(p, s, ls)) <= s.next + Admitted(s)
    decreases |ls|
  {
    if ls != [] {
      CancelStopsDispatch(p, Next(p, s, ls[0]), ls[1..]);
    }
  }

  // ---- Every run ends ----

  function WorkerRank(w: Worker): int
  {
    match w.pc
    case Idle => 9
    case Statting => 6
    case Downloading(_, _) => 5
    case Crediting => 4
    case Adding(_) => 4
    case Failing => 4
    case Appending(_) => 3
    case Leaving(_) => 2
    case Exited(_) => 0
  }

  function Rank(s: State): int
  {
    Tally(WorkerRank, s.ws) + (if s.outside then 0 else 1)
    + (match s.phase
       case Dispatch => 3 + 2 * (|s.ws| - s.next)
       case Admit => 2 + 2 * (|s.ws| - s.next)
       case Waiting => 1
       case Ended(_, _) => 0)
  }

  predicate IsReport(l: Label) { l.Work? && (l.act.Report? || l.act.Store?) }

  function StepsBesidesReports(ls: seq<Label>): nat
  {
    if ls == [] then 0 else (if IsReport(ls[0]) then 0 else 1) + StepsBesidesReports(ls[1..])
  }

  lemma RankStep(p: Params, s: State, l: Label)
    requires Shape(p, s) && Enabled(p, s, l)
    ensures Rank(Next(p, s, l)) <= Rank(s) - (if IsReport(l) then 0 else 1)
  {
    match l
    case Work(i, act) => TallyUpdate(WorkerRank, s.ws, i, Moved(s.ws[i], act));
    case Acquire => TallyUpdate(WorkerRank, s.ws, s.next, FRESH);
    case _ =>
  }

  lemma {:induction false} RankIsPositive(ws: seq<Worker>)
    ensures Tally(WorkerRank, ws) >= 0
  {
    if ws != [] {
      assert Terms(WorkerRank, ws)[1..] == Terms(WorkerRank, ws[1..]);
      RankIsPositive(ws[1..]);
    }
  }

  lemma {:induction false} BoundedFrom(p: Params, s: State, ls: seq<Label>)
    requires Shape(p, s) && Follows(p, s, ls)
    ensures StepsBesidesReports(ls) <= Rank(s)
    decreases |ls|
  {
    if ls == [] {
      RankIsPositive(s.ws);
    } else {
      ShapeStep(p, s, ls[0]);
      RankStep(p, s, ls[0]);
      BoundedFrom(p, Next(p, s, ls[0]), ls[1..]);
    }
  }

  /** Apart from progress reports, a prefix download of n files takes at most 11 n + 4 steps. */
  lemma RunsAreBounded(p: Params, ls: seq<Label>)
    requires Follows(p, Init(p), ls)
    ensures StepsBesidesReports(ls) <= 11 * |p.objects| + 4
  {
    InvInit(p);
    TallyConstant(WorkerRank, Init(p).ws, 9);
    BoundedFrom(p, Init(p), ls);
  }

  /** And until it has ended somebody can move. */
  lemma SomeoneMoves(p: Params, s: State) returns (l: Label)
    requires Shape(p, s) && !s.phase.Ended?
    ensures Enabled(p, s, l) && !l.Cancel? && !(l.Work? && l.act.Report?)
  {
    if s.phase.Dispatch? {
      l := Check;
    } else if s.phase.Admit? && s.slots < p.Slots() {
      l := Acquire;
    } else if Quiescent(s) {
      if s.phase.Admit? { TallyConstant(Alive, s.ws, 0); }
      l := WaitDone;
    } else {
      var i :| 0 <= i < |s.ws| && !Parked(s.ws[i]);
      l := Work(i, match s.ws[i].pc
                   case Statting => Stat(false)
                   case Crediting => Credit
                   case Downloading(_, pending) =>
                     if pending == map[] then Finish(false, 0) else (var g :| g in pending; Store(g))
                   case Adding(_) => Add
                   case Failing => FailFast
                   case Appending(_) => Append
                   case _ => Leave);
    }
  }
}
