/**
  DownloadPrefix as the code writes it (downloader/multi.go): the checks, the listing, the dispatch
  loop, the goroutine of a file and the accounting, over a ghost state of the prefix system.  As in
  Downloader, no other goroutine moves inside a method.
 */
module MultiDownloader {
  import opened Prelude
  import Listing
  import Lister
  import opened PrefixDownload
  import opened PrefixAccounting
  import Paths

  ghost predicate Reachable(p: Params, s: State)
  {
    exists ls :: Follows(p, Init(p), ls) && After(p, Init(p), ls) == s
  }

  lemma ReachedNext(p: Params, s: State, l: Label)
    requires Reachable(p, s) && Enabled(p, s, l)
    ensures Reachable(p, Next(p, s, l))
  {
    var ls :| Follows(p, Init(p), ls) && After(p, Init(p), ls) == s;
    FollowsAppend(p, Init(p), ls, [l]);
  }

  /** The result adds up, the error is the one for it, and a nil error says what
      PrefixAccounting.NilError says. */
  predicate Balanced(objects: seq<Listing.Object>, failFast: bool, r: MultiResult, err: Option<MultiError>)
  {
    && Reports(failFast, r, err)
    && r.totalFiles == |objects|
    && r.succeeded + r.failed + r.skipped == |r.results|
    && r.succeeded == Tally(WasDone, r.results) && r.skipped == Tally(WasSkipped, r.results)
    && r.totalBytes == Tally(Bytes, r.results)
    && |r.errors| == r.failed && r.errors == Errors(r.results)
    && (forall k :: 0 <= k < |r.results| ==> r.results[k].index < |objects|)
    && (forall j, k :: 0 <= j < |r.results| && 0 <= k < |r.results| && j != k ==>
        r.results[j].index != r.results[k].index)
    && (err.None? ==> ((forall i :: 0 <= i < |objects| ==> Handled(r.results, i)) <==> |r.results| == r.totalFiles))
  }

  lemma ReachedBalances(p: Params, s: State)
    requires Reachable(p, s) && s.phase.Ended?
    ensures Balanced(p.objects, p.failFast, s.phase.result, s.phase.err)
    ensures s.phase.err.None? && !s.outside ==> |s.phase.result.results| == |p.objects|
  {
    var ls :| Follows(p, Init(p), ls) && After(p, Init(p), ls) == s;
    AccountsAddUp(p, ls);
    ErrorReturned(p, ls);
    if s.phase.err.None? { NilError(p, ls); }
  }

  /** The sizes of the files that are there, by path. */
  type Sizes = map<string, int>

  /** What is in store for a call: whether the directory can be made, which page cannot be listed,
      whether the caller cancels, and what Download returns for each object: a size or an error. */
  datatype World = World(
    makesDir: bool,
    fails: nat -> bool,
    cancels: bool,
    downloads: nat -> Option<int>
  )

  // ---- What a call leaves on the disk ----

  /** What became of one object, and what that did to the disk.  A download that succeeds leaves the
      file and no temporary file; one that fails leaves at most the temporary file it found. */
  predicate FileDone(path: string, tmp: string, o: Listing.Object, download: Option<int>, before: Sizes, after: Sizes,
      out: FileOutcome)
  {
    && (out.Skipped? <==> path in before && before[path] == o.size)
    && (out.Skipped? ==> after == before)
    && (out.Done? ==> download == Some(out.bytes) && after == (before - {tmp})[path := out.bytes])
    && (out.Error? ==> download.None? && (after == before || after == before - {tmp}))
  }

  /** No two objects go to one file, and none to a temporary file. */
  predicate SeparateFiles(place: string -> string, temp: string -> string, objects: seq<Listing.Object>)
  {
    forall i, j :: 0 <= i < |objects| && 0 <= j < |objects| ==>
      (i != j ==> place(objects[i].key) != place(objects[j].key)) &&
      temp(place(objects[i].key)) != place(objects[j].key)
  }

  predicate Same(path: string, a: Sizes, b: Sizes)
  {
    (path in a <==> path in b) && (path in a ==> a[path] == b[path])
  }

  /** One result: skipped exactly if the file was there with the listed size; downloaded as the world
      has it, and then there with the size downloaded; and otherwise the path is as it was. */
  predicate ResultOk(path: string, o: Listing.Object, download: Option<int>, before: Sizes, after: Sizes,
      out: FileOutcome)
  {
    && (out.Skipped? <==> path in before && before[path] == o.size)
    && (out.Done? ==> download == Some(out.bytes) && path in after && after[path] == out.bytes)
    && (out.Error? ==> download.None?)
    && (!out.Done? ==> Same(path, before, after))
  }

  /** The results are those of the first objects, in order, and the others' paths are untouched. */
  predicate ResultsOk(place: string -> string, objects: seq<Listing.Object>, downloads: nat -> Option<int>,
      before: Sizes, after: Sizes, rs: seq<FileResult>)
  {
    && |rs| <= |objects|
    && (forall k :: 0 <= k < |rs| ==>
          rs[k].index == k && ResultOk(place(objects[k].key), objects[k], downloads(k), before, after, rs[k].out))
    && (forall k :: |rs| <= k < |objects| ==> Same(place(objects[k].key), before, after))
  }

  lemma OthersKeep(place: string -> string, temp: string -> string, objects: seq<Listing.Object>, i: nat, k: nat,
          download: Option<int>, now: Sizes, after: Sizes, out: FileOutcome)
    requires SeparateFiles(place, temp, objects) && i < |objects| && k < |objects| && i != k
    requires FileDone(place(objects[i].key), temp(place(objects[i].key)), objects[i], download, now, after, out)
    ensures Same(place(objects[k].key), now, after)
  {
  }

  lemma ResultsNext(place: string -> string, temp: string -> string, objects: seq<Listing.Object>,
          downloads: nat -> Option<int>, before: Sizes, now: Sizes, after: Sizes, rs: seq<FileResult>, out: FileOutcome)
    requires SeparateFiles(place, temp, objects) && |rs| < |objects|
    requires ResultsOk(place, objects, downloads, before, now, rs)
    requires var i := |rs|; var path := place(objects[i].key);
             FileDone(path, temp(path), objects[i], downloads(i), now, after, out)
    ensures ResultsOk(place, objects, downloads, before, after, rs + [FileResult(|rs|, out)])
  {
    var i := |rs|;
    var path := place(objects[i].key);
    forall k | 0 <= k < |objects| && k != i ensures Same(place(objects[k].key), now, after) {
      OthersKeep(place, temp, objects, i, k, downloads(i), now, after, out);
    }
    assert temp(path) != path && Same(path, before, now);
    assert ResultOk(path, objects[i], downloads(i), before, after, out);
  }

  /** The results are those of the first objects, in order, and what Download returned for them; under
      fail-fast no error but the last. */
  predicate InOrder(failFast: bool, downloads: nat -> Option<int>, rs: seq<FileResult>)
  {
    && (forall k :: 0 <= k < |rs| ==> rs[k].index == k && FromDownload(downloads(k), rs[k].out))
    && (failFast ==> forall k :: 0 <= k < |rs| - 1 ==> !rs[k].out.Error?)
  }

  predicate FromDownload(download: Option<int>, out: FileOutcome)
  {
    (out.Done? ==> download == Some(out.bytes)) && (out.Error? ==> download.None?)
  }

  /** A failure has stopped the dispatch. */
  predicate FailedFast(failFast: bool, rs: seq<FileResult>) { failFast && rs != [] && rs[|rs| - 1].out.Error? }

  lemma InOrderNext(failFast: bool, downloads: nat -> Option<int>, rs: seq<FileResult>, out: FileOutcome)
    requires InOrder(failFast, downloads, rs) && !FailedFast(failFast, rs) && FromDownload(downloads(|rs|), out)
    ensures InOrder(failFast, downloads, rs + [FileResult(|rs|, out)])
    ensures FailedFast(failFast, rs + [FileResult(|rs|, out)]) <==> failFast && out.Error?
  {
  }

  /** The variables of one call, those its goroutines share included. */
  class Session {
    const p: Params
    const place: string -> string   // where a key's file goes
    const temp: string -> string    // the temporary file beside a file
    const world: World
    const global: Cell          // globalBytesCounter
    var sizes: Sizes
    var succeededFiles: int
    var failedFiles: int
    var skippedFiles: int
    var totalDownloaded: int
    var fileResults: seq<FileResult>
    var firstErr: Option<nat>
    var done: bool
    var slots: int
    ghost var s: State

    constructor (p: Params, place: string -> string, temp: string -> string, world: World, g: Cell, sizes: Sizes)
      requires g.value == 0
      ensures Valid() && s == Init(p) && this.p == p && this.place == place && this.temp == temp
      ensures this.world == world && global == g && this.sizes == sizes && fileResults == [] && !done
    {
      this.p, this.place, this.temp, this.world, global, this.sizes := p, place, temp, world, g, sizes;
      succeededFiles, failedFiles, skippedFiles, totalDownloaded, slots := 0, 0, 0, 0, 0;
      fileResults, firstErr, done := [], None, false;
      s := Init(p);
      assert Follows(p, Init(p), []) && After(p, Init(p), []) == Init(p);
    }

    ghost predicate Valid()
      reads this, global
    {
      && Reachable(p, s) && |s.ws| == |p.objects|
      && s.succeeded == succeededFiles && s.failed == failedFiles && s.skipped == skippedFiles
      && s.totalBytes == totalDownloaded && s.results == fileResults && s.firstErr == firstErr
      && s.cancelled == done && s.slots == slots && s.global == global.value
      && (s.outside ==> s.cancelled && world.cancels)
    }

    /** Where object i goes. */
    function PathOf(i: nat): string
      requires i < |p.objects|
    {
      place(p.objects[i].key)
    }

    ghost predicate Running()
      reads this, global
    {
      Valid() && !s.phase.Ended?
    }

    /** Goroutine i moves nobody else, and not the dispatcher. */
    twostate predicate Mine(i: nat)
      reads this
    {
      && i < |old(s).ws| == |s.ws| && s.ws == old(s).ws[i := s.ws[i]]
      && s.phase == old(s).phase && s.next == old(s).next
    }

    ghost method Take(l: Label)
      requires Reachable(p, s) && Enabled(p, s, l)
      modifies this`s
      ensures s == Next(p, old(s), l) && Reachable(p, s)
    {
      ReachedNext(p, s, l);
      s := Next(p, s, l);
    }

    method Err() returns (e: bool)
      requires Running()
      modifies this`done, this`s
      ensures Running() && e == done && (old(done) ==> done) && (done != old(done) ==> world.cancels)
      ensures s == old(s).(cancelled := s.cancelled, outside := s.outside)
    {
      if world.cancels && !done {
        if * {
          Take(Cancel);
          done := true;
        }
      }
      e := done;
    }

    // ---- One file ----

    /** Whether the local file is there with the listed size. */
    method Stat(i: nat) returns (hit: bool)
      requires Running() && i < |s.ws| && s.ws[i].pc.Statting?
      modifies this`skippedFiles, this`s
      ensures Running() && Mine(i) && s.slots == old(s).slots
      ensures s.ws[i] == old(s).ws[i].(pc := if hit then Crediting else Downloading(0, map[]))
      ensures hit <==> var path := PathOf(i);
                       path in sizes && sizes[path] == p.objects[i].size
    {
      var localPath := place(p.objects[i].key);
      hit := localPath in sizes && sizes[localPath] == p.objects[i].size;
      if hit {
        skippedFiles := skippedFiles + 1;
      }
      Take(Work(i, Act.Stat(hit)));
    }

    /** The skipped size goes to the progress counter. */
    method Credit(i: nat)
      requires Running() && i < |s.ws| && s.ws[i].pc.Crediting?
      modifies this`s, global
      ensures Running() && Mine(i) && s.slots == old(s).slots && s.ws[i] == old(s).ws[i].(pc := Appending(Skipped))
      ensures global.value == old(global.value) + p.objects[i].size
    {
      global.value := global.value + p.objects[i].size;
      Take(Work(i, Act.Credit));
    }

    /** A report of progress, which comes back to the closure. */
    method CallBack(i: nat, progress: FileProgress, perFileBytes: int)
      requires Running() && i < |s.ws| && progress.global == global
      requires s.ws[i].pc == Downloading(progress.lastReported, map[])
      modifies this`s, progress, global
      ensures Running() && Mine(i) && s.slots == old(s).slots
      ensures s.ws[i].pc == Downloading(progress.lastReported, map[])
      ensures progress.lastReported == Max(old(progress.lastReported), perFileBytes)
    {
      progress.OnProgress(perFileBytes);
      Take(Work(i, Report(0, perFileBytes)));
      Take(Work(i, Store(0)));
    }

    /** Download, seen from here: reports of progress, and then a size or an error. */
    method Download(i: nat) returns (err: bool, bytes: int)
      requires Running() && i < |s.ws| && s.ws[i].pc == Downloading(0, map[])
      modifies this`s, this`sizes, global
      ensures Running() && Mine(i) && s.slots == old(s).slots && s.ws[i].pc.Downloading? && s.ws[i].pc.pending == map[]
      ensures world.downloads(i) == if err then None else Some(bytes)
      ensures var path := PathOf(i); var tmp := temp(path);
              if err then sizes == old(sizes) || sizes == old(sizes) - {tmp}
              else sizes == (old(sizes) - {tmp})[path := bytes]
    {
      var progress := new FileProgress(global);
      var more := *;
      var rounds: nat := *;
      while more && rounds > 0
        invariant Running() && Mine(i) && s.slots == old(s).slots && progress.global == global
        invariant s.ws[i].pc == Downloading(progress.lastReported, map[]) && sizes == old(sizes)
        decreases rounds
      {
        var perFileBytes: int := *;
        CallBack(i, progress, perFileBytes);
        more, rounds := *, rounds - 1;
      }
      var result := world.downloads(i);
      if result.None? {
        if * {
          sizes := sizes - {temp(PathOf(i))};
        }
        return true, 0;
      }
      sizes := (sizes - {temp(PathOf(i))})[PathOf(i) := result.value];
      return false, result.value;
    }

    /** What became of the download goes to the counts, and to the first error. */
    method Settle(i: nat, err: bool, bytes: int)
      requires Running() && i < |s.ws| && s.ws[i].pc.Downloading? && s.ws[i].pc.pending == map[]
      modifies this`succeededFiles, this`failedFiles, this`totalDownloaded, this`firstErr, this`done, this`s
      ensures Running() && Mine(i) && s.slots == old(s).slots &&
          s.ws[i].pc == Appending(if err then Error else Done(bytes))
      ensures succeededFiles == old(succeededFiles) + (if err then 0 else 1)
      ensures failedFiles == old(failedFiles) + (if err then 1 else 0)
      ensures totalDownloaded == old(totalDownloaded) + (if err then 0 else bytes)
      ensures firstErr == if err && p.failFast && old(firstErr).None? then Some(i) else old(firstErr)
      ensures done == (old(done) || firstErr != old(firstErr))
    {
      if err {
        failedFiles := failedFiles + 1;
        Take(Work(i, Finish(false, bytes)));
        if p.failFast {
          if firstErr == None {
            firstErr := Some(i);
            done := true;
          }
        }
        Take(Work(i, FailFast));
      } else {
        succeededFiles := succeededFiles + 1;
        Take(Work(i, Finish(true, bytes)));
        totalDownloaded := totalDownloaded + bytes;
        Take(Work(i, Add));
      }
    }

    method Append(i: nat, out: FileOutcome)
      requires Running() && i < |s.ws| && s.ws[i].pc == Appending(out)
      modifies this`fileResults, this`s
      ensures Running() && Mine(i) && s.slots == old(s).slots && s.ws[i].pc == Leaving(out)
      ensures fileResults == old(fileResults) + [FileResult(i, out)]
    {
      fileResults := fileResults + [FileResult(i, out)];
      Take(Work(i, Act.Append));
    }

    /** What becomes of a file: skipped, downloaded or failed, and counted. */
    method Process(i: nat) returns (out: FileOutcome)
      requires Running() && i < |s.ws| && s.ws[i].pc.Statting?
      modifies this`sizes, this`succeededFiles, this`failedFiles, this`skippedFiles, this`totalDownloaded
      modifies this`firstErr, this`done, this`s, global
      ensures Running() && Mine(i) && s.slots == old(s).slots && s.ws[i].pc == Appending(out)
      ensures FileDone(PathOf(i), temp(PathOf(i)), p.objects[i], world.downloads(i), old(sizes), sizes, out)
      ensures done != old(done) ==> p.failFast && out.Error?
      ensures p.failFast && out.Error? ==> done || old(firstErr).Some?
      ensures firstErr.Some? <==> old(firstErr).Some? || (p.failFast && out.Error?)
    {
      var hit := Stat(i);
      if hit {
        Credit(i);
        out := Skipped;
      } else {
        var err, bytes := Download(i);
        Settle(i, err, bytes);
        out := if err then Error else Done(bytes);
      }
    }

    /** The goroutine of a file: exactly one result, and one slot back. */
    method RunFile(i: nat)
      requires Running() && i < |s.ws| && s.ws[i].pc.Statting?
      modifies this, global
      ensures Running() && Mine(i) && s.ws[i].pc.Exited? && slots == old(slots) - 1
      ensures fileResults == old(fileResults) + [FileResult(i, s.ws[i].pc.out)]
      ensures FileDone(PathOf(i), temp(PathOf(i)), p.objects[i], world.downloads(i), old(sizes), sizes, s.ws[i].pc.out)
      ensures done != old(done) ==> p.failFast && s.ws[i].pc.out.Error?
      ensures p.failFast && s.ws[i].pc.out.Error? ==> done || old(firstErr).Some?
      ensures firstErr.Some? <==> old(firstErr).Some? || (p.failFast && s.ws[i].pc.out.Error?)
    {
      var out := Process(i);
      Append(i, out);
      slots := slots - 1;
      Take(Work(i, Leave));
    }

    // ---- All files ----

    /** One round of the dispatch loop. */
    method DispatchOne(i: nat) returns (stop: bool)
      requires Running() && s.phase.Dispatch? && i == s.next < |s.ws| && slots == 0 && (firstErr.Some? ==> done)
      modifies this, global
      ensures Running() && |s.ws| == |old(s).ws| && slots == 0 && (firstErr.Some? ==> done)
      ensures stop ==> s.phase.Waiting? && s.next == i && s.ws == old(s).ws && fileResults == old(fileResults)
      ensures stop ==> sizes == old(sizes) && (old(done) || world.cancels)
      ensures !stop ==> s.phase.Dispatch? && s.next == i + 1 && s.ws[i].pc.Exited? && s.ws == old(s).ws[i := s.ws[i]]
      ensures !stop ==> fileResults == old(fileResults) + [FileResult(i, s.ws[i].pc.out)]
      ensures !stop ==>
          FileDone(PathOf(i), temp(PathOf(i)), p.objects[i], world.downloads(i), old(sizes), sizes, s.ws[i].pc.out)
      ensures !stop ==> !old(done) && done == (p.failFast && s.ws[i].pc.out.Error?)
    {
      stop := Err();
      Take(Check);
      if !stop {
        slots := slots + 1;
        Take(Acquire);
        RunFile(i);
      }
    }

    /** The dispatch loop, up to the end of the wait: one result for each file started, in order, and for
        all files unless the caller cancels or, under fail-fast, the last one failed. */
    method Dispatch()
      requires Running() && s == Init(p) && fileResults == [] && !done
      modifies this, global
      ensures Running() && s.phase.Waiting? && Quiescent(s)
      ensures |fileResults| == s.next && InOrder(p.failFast, world.downloads, fileResults)
      ensures |fileResults| < |p.objects| ==> world.cancels || FailedFast(p.failFast, fileResults)
      ensures SeparateFiles(place, temp, p.objects) ==>
          ResultsOk(place, p.objects, world.downloads, old(sizes), sizes, fileResults)
    {
      var i := 0;
      ghost var separate := SeparateFiles(place, temp, p.objects);
      while i < |p.objects|
        invariant 0 <= i <= |p.objects| && Running() && slots == 0
        invariant s.phase.Dispatch? && s.next == i == |fileResults|
        invariant forall j :: 0 <= j < |s.ws| ==> if j < i then s.ws[j].pc.Exited? else s.ws[j].pc.Idle?
        invariant InOrder(p.failFast, world.downloads, fileResults)
        invariant firstErr.Some? || FailedFast(p.failFast, fileResults) ==> done
        invariant done ==> world.cancels || FailedFast(p.failFast, fileResults)
        invariant separate ==>
            ResultsOk(place, p.objects, world.downloads, old(sizes), sizes, fileResults)
      {
        ghost var now, rs := sizes, fileResults;
        var stop := DispatchOne(i);
        if stop {
          return;
        }
        InOrderNext(p.failFast, world.downloads, rs, s.ws[i].pc.out);
        if separate {
          ResultsNext(place, temp, p.objects, world.downloads, old(sizes), now, sizes, rs, s.ws[i].pc.out);
        }
        i := i + 1;
      }
      Take(Check);
    }

    /** After the wait: the errors, the result and the error returned. */
    method Conclude() returns (r: MultiResult, err: Option<MultiError>)
      requires Running() && s.phase.Waiting? && Quiescent(s)
      modifies this`s
      ensures Valid() && s.phase == Ended(r, err) && Balanced(p.objects, p.failFast, r, err)
      ensures r.results == fileResults
      ensures err.None? && !done ==> |r.results| == |p.objects|
      ensures err == if p.failFast && firstErr.Some? then Some(FirstError(firstErr.value))
                     else if r.errors != [] then Some(SomeFailed(|r.errors|, |p.objects|))
                     else None
    {
      var errors := CollectErrors(fileResults);
      r := MultiResult(|p.objects|, totalDownloaded, succeededFiles, failedFiles, skippedFiles, fileResults, errors);
      if p.failFast && firstErr.Some? {
        err := Some(FirstError(firstErr.value));
      } else if |errors| > 0 {
        err := Some(SomeFailed(|errors|, |p.objects|));
      } else {
        err := None;
      }
      Take(WaitDone);
      ReachedBalances(p, s);
    }
  }

  datatype Refusal = NoPrefix | NoOutputDir | NoDirectory | ListError(e: Listing.Error) | NothingFound

  datatype Outcome = Refused(why: Refusal) | Returned(total: int, result: MultiResult, err: Option<MultiError>)

  /** There is a result for every object, or fail-fast stopped at the last one. */
  predicate AllDone(objects: seq<Listing.Object>, failFast: bool, rs: seq<FileResult>)
  {
    |rs| == |objects| || FailedFast(failFast, rs)
  }

  /** No two objects go to one file, and none to a temporary file. */
  predicate Separate(outputDir: string, prefix: string, objects: seq<Listing.Object>)
  {
    forall i, j :: 0 <= i < |objects| && 0 <= j < |objects| ==>
      var path, other := Paths.LocalPath(outputDir, prefix, objects[i].key),
                         Paths.LocalPath(outputDir, prefix, objects[j].key);
      (i != j ==> path != other) && Paths.TempPath(path) != other
  }

  /** What became of the objects, in order, and of their files. */
  predicate Filed(outputDir: string, prefix: string, objects: seq<Listing.Object>, downloads: nat -> Option<int>,
      before: Sizes, after: Sizes, rs: seq<FileResult>)
  {
    && |rs| <= |objects|
    && (forall k :: 0 <= k < |rs| ==>
          var path := Paths.LocalPath(outputDir, prefix, objects[k].key);
          rs[k].index == k && ResultOk(path, objects[k], downloads(k), before, after, rs[k].out))
    && (forall k :: |rs| <= k < |objects| ==>
          Same(Paths.LocalPath(outputDir, prefix, objects[k].key), before, after))
  }

  lemma FiledAsPlaced(place: string -> string, outputDir: string, prefix: string, objects: seq<Listing.Object>,
          downloads: nat -> Option<int>, before: Sizes, after: Sizes, rs: seq<FileResult>)
    requires forall key :: place(key) == Paths.LocalPath(outputDir, prefix, key)
    ensures SeparateFiles(place, Paths.TempPath, objects) <==> Separate(outputDir, prefix, objects)
    ensures ResultsOk(place, objects, downloads, before, after, rs) <==>
        Filed(outputDir, prefix, objects, downloads, before, after, rs)
  {
  }

  /** The files, once listed. */
  method DownloadAll(objects: seq<Listing.Object>, outputDir: string, prefix: string, fileConcurrency: int,
                     failFast: bool, world: World, sizes: Sizes)
    returns (result: MultiResult, err: Option<MultiError>, after: Sizes)
    ensures Balanced(objects, failFast, result, err)
    ensures InOrder(failFast, world.downloads, result.results)
    ensures AllDone(objects, failFast, result.results) || world.cancels
    ensures err.None? && !world.cancels ==> |result.results| == |objects|
    ensures Separate(outputDir, prefix, objects) ==>
        Filed(outputDir, prefix, objects, world.downloads, sizes, after, result.results)
  {
    var place := (key: string) => Paths.LocalPath(outputDir, prefix, key);
    var counter := new Cell(0);
    var p := Params(objects, fileConcurrency, failFast);
    var session := new Session(p, place, Paths.TempPath, world, counter, sizes);
    session.Dispatch();
    result, err := session.Conclude();
    after := session.sizes;
    FiledAsPlaced(place, outputDir, prefix, objects, world.downloads, sizes, after, result.results);
  }

  /** No page fails. */
  ghost predicate Lists(world: World, pages: seq<Listing.Page>)
  {
    forall n :: 0 <= n < |pages| ==> !world.fails(n)
  }

  /**
    DownloadPrefix.  It refuses an empty prefix or output directory, a directory that cannot be made,
    a listing that failed or was cancelled and an empty one, in this order, and nothing else.
    Otherwise it announces the sum of the sizes of all objects the pages list, markers apart, and
    returns a result over exactly those that adds up.  There are results for all of them unless the
    caller cancels or, under fail-fast, the last result is an error.  If no two objects go to one file
    or a temporary one, an object is skipped exactly if its file was there with the listed size; what
    is downloaded is there afterwards; and every other path is as it was.
   */
  method DownloadPrefix(prefix: string, outputDir: string, fileConcurrency: int, failFast: bool,
                        server: Listing.Server, world: World, sizes: Sizes, ghost pages: seq<Listing.Page>)
    returns (r: Outcome, after: Sizes)
    requires Listing.Chain(server, "", pages)
    ensures prefix == "" <==> r == Refused(NoPrefix)
    ensures prefix != "" && outputDir == "" <==> r == Refused(NoOutputDir)
    ensures prefix != "" && outputDir != "" && !world.makesDir <==> r == Refused(NoDirectory)
    ensures r.Refused? && r.why.ListError? && r.why.e.PageError? ==>
        r.why.e.page < |pages| && Lister.FirstFailing(world.fails, r.why.e.page)
    ensures r == Refused(ListError(Listing.Cancelled)) ==> world.cancels
    ensures Listing.Collected(Listing.Contents(pages), Listing.Everything(pages))
    ensures r == Refused(NothingFound) ==> Lists(world, pages) && Listing.Contents(pages) == []
    ensures r.Returned? ==> Lists(world, pages) && Listing.Contents(pages) != []
    ensures r.Refused? ==> after == sizes
    ensures r.Returned? ==> r.total == Tally(Size, Listing.Contents(pages))
    ensures r.Returned? ==> Balanced(Listing.Contents(pages), failFast, r.result, r.err)
    ensures r.Returned? ==> InOrder(failFast, world.downloads, r.result.results)
    ensures r.Returned? ==> AllDone(Listing.Contents(pages), failFast, r.result.results) || world.cancels
    ensures r.Returned? && !world.cancels && r.err.None? ==> |r.result.results| == |Listing.Contents(pages)|
    ensures r.Returned? && Separate(outputDir, prefix, Listing.Contents(pages)) ==>
        Filed(outputDir, prefix, Listing.Contents(pages), world.downloads, sizes, after, r.result.results)
  {
    after := sizes;
    Listing.ContentsExactly(pages);
    if prefix == "" {
      return Refused(NoPrefix), sizes;
    }
    if outputDir == "" {
      return Refused(NoOutputDir), sizes;
    }
    if !world.makesDir {
      return Refused(NoDirectory), sizes;
    }
    var pipe := new Lister.Pipe(server, world.fails, world.cancels);
    var objects, listErr := pipe.ListAll(pages);
    if listErr.Some? {
      return Refused(ListError(listErr.value)), sizes;
    }
    if |objects| == 0 {
      return Refused(NothingFound), sizes;
    }
    var totalSize := TotalSize(objects);
    var result, err;
    result, err, after := DownloadAll(objects, outputDir, prefix, fileConcurrency, failFast, world, sizes);
    r := Returned(totalSize, result, err);
  }
}
