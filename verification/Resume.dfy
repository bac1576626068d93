/** Downloads one after the other, through crashes, and downloads side by side on one disk. */
module Resume {
  import opened Prelude
  import opened Storage
  import opened Transfer
  import opened TransferInvariants
  import opened TransferContent
  import opened Paths

  // ---- One file over many runs ----

  /** What survives a process: the temporary and the final path of one object. */
  datatype Disk = Disk(tmp: Option<Bytes>, dst: Option<Bytes>)

  /** One call of Download, as far as it got.  The process may have died after any label, so a
      call that stops before its end stands for a crash there. */
  datatype Call = Call(p: Params, ls: seq<Label>)

  /** The call fetches this object from a server that honours ranges. */
  predicate Fair(obj: Bytes, d: Disk, c: Call)
  {
    && c.p.Valid() && c.p.total == |obj|
    && Follows(c.p, Init(c.p, d.tmp, d.dst), c.ls) && Honest(c.p, obj, c.ls)
  }

  function AfterCall(obj: Bytes, d: Disk, c: Call): Disk
    requires Fair(obj, d, c)
  {
    var s := After(c.p, Init(c.p, d.tmp, d.dst), c.ls);
    Disk(s.tmp, s.dst)
  }

  /** Each call starts on the disk the one before left. */
  predicate AllFair(obj: Bytes, d: Disk, cs: seq<Call>)
    decreases |cs|
  {
    cs != [] ==> Fair(obj, d, cs[0]) && AllFair(obj, AfterCall(obj, d, cs[0]), cs[1..])
  }

  function AfterCalls(obj: Bytes, d: Disk, cs: seq<Call>): Disk
    requires AllFair(obj, d, cs)
    decreases |cs|
  {
    if cs == [] then d else AfterCalls(obj, AfterCall(obj, d, cs[0]), cs[1..])
  }

  /** Whatever crashed in between, the final path holds what it held at first or the object. */
  lemma {:induction false} OldOrComplete(obj: Bytes, d: Disk, cs: seq<Call>)
    requires AllFair(obj, d, cs)
    ensures AfterCalls(obj, d, cs).dst == d.dst || AfterCalls(obj, d, cs).dst == Some(obj)
    decreases |cs|
  {
    if cs != [] {
      EndToEnd(cs[0].p, obj, d.tmp, d.dst, cs[0].ls);
      OldOrComplete(obj, AfterCall(obj, d, cs[0]), cs[1..]);
    }
  }

  /** DownloadPrefix skips an object whose local file has the listed size. */
  predicate Skips(size: nat, d: Disk) { d.dst.Some? && |d.dst.value| == size }

  ghost predicate SkipIsSound(obj: Bytes, d: Disk, cs: seq<Call>)
  {
    AllFair(obj, d, cs) && Skips(|obj|, AfterCalls(obj, d, cs)) ==> AfterCalls(obj, d, cs).dst == Some(obj)
  }

  /** Skipping by size never skips an incomplete file, over all sequences of runs, exactly when
      the path did not hold another file of that size to begin with. */
  lemma SkipSoundExactly(obj: Bytes, d: Disk)
    ensures (forall cs :: SkipIsSound(obj, d, cs)) <==> (Skips(|obj|, d) ==> d.dst == Some(obj))
  {
    if forall cs :: SkipIsSound(obj, d, cs) {
      assert SkipIsSound(obj, d, []);
      assert AfterCalls(obj, d, []) == d;
    }
    if Skips(|obj|, d) ==> d.dst == Some(obj) {
      forall cs
        ensures SkipIsSound(obj, d, cs)
      {
        if AllFair(obj, d, cs) { OldOrComplete(obj, d, cs); }
      }
    }
  }

  /** The size alone would not do for the temporary file: preallocation gives it the full size
      before a byte has arrived, and a crash leaves it there. */
  lemma TempHasFullSizeEarly(p: Params, obj: Bytes, d: Disk)
    requires p.Valid() && !p.Single() && p.total == |obj|
    ensures var c := Call(p, [Open(true, false), Crash]);
            Fair(obj, d, c) && AfterCall(obj, d, c) == Disk(Some(Zeros(|obj|)), d.dst)
  {
    var ls := [Open(true, false), Crash];
    assert ls[1..] == [Crash] && [Crash][1..] == [];
    var s := Next(p, Init(p, d.tmp, d.dst), ls[0]);
    assert Follows(p, s, [Crash]) && After(p, s, [Crash]).tmp == Some(Zeros(p.total));
  }

  // ---- Many files on one disk ----

  type Files = map<string, Bytes>

  function View(fs: Files, path: string): Option<Bytes>
  {
    if path in fs then Some(fs[path]) else None
  }

  function Put(fs: Files, path: string, v: Option<Bytes>): Files
  {
    if v.Some? then fs[path := v.value] else fs - {path}
  }

  /** One download among several, with the paths it uses.  The tmp and dst of its state are
      what it last saw there. */
  datatype Job = Job(p: Params, s: State, tmpPath: string, dstPath: string)

  predicate AllValid(jobs: seq<Job>) { forall i :: 0 <= i < |jobs| ==> jobs[i].p.Valid() }

  /** The job's state, with its two files as they are on the disk. */
  function Loaded(fs: Files, job: Job): State
  {
    job.s.(tmp := View(fs, job.tmpPath), dst := View(fs, job.dstPath))
  }

  predicate CanTake(fs: Files, jobs: seq<Job>, i: nat, l: Label)
    requires AllValid(jobs)
  {
    i < |jobs| && Enabled(jobs[i].p, Loaded(fs, jobs[i]), l)
  }

  /** Job i takes a step on the shared disk. */
  function DiskAfter(fs: Files, jobs: seq<Job>, i: nat, l: Label): Files
    requires AllValid(jobs) && CanTake(fs, jobs, i, l)
  {
    var t := Next(jobs[i].p, Loaded(fs, jobs[i]), l);
    Put(Put(fs, jobs[i].tmpPath, t.tmp), jobs[i].dstPath, t.dst)
  }

  function JobsAfter(fs: Files, jobs: seq<Job>, i: nat, l: Label): (js: seq<Job>)
    requires AllValid(jobs) && CanTake(fs, jobs, i, l)
    ensures AllValid(js) && |js| == |jobs|
  {
    jobs[i := jobs[i].(s := Next(jobs[i].p, Loaded(fs, jobs[i]), l))]
  }

  datatype Turn = Turn(job: nat, step: Label)

  predicate Runs(fs: Files, jobs: seq<Job>, ts: seq<Turn>)
    requires AllValid(jobs)
    decreases |ts|
  {
    ts != [] ==>
      CanTake(fs, jobs, ts[0].job, ts[0].step)
      && Runs(DiskAfter(fs, jobs, ts[0].job, ts[0].step), JobsAfter(fs, jobs, ts[0].job, ts[0].step), ts[1..])
  }

  function EndDisk(fs: Files, jobs: seq<Job>, ts: seq<Turn>): Files
    requires AllValid(jobs) && Runs(fs, jobs, ts)
    decreases |ts|
  {
    if ts == [] then fs
    else EndDisk(DiskAfter(fs, jobs, ts[0].job, ts[0].step), JobsAfter(fs, jobs, ts[0].job, ts[0].step), ts[1..])
  }

  function EndJobs(fs: Files, jobs: seq<Job>, ts: seq<Turn>): (js: seq<Job>)
    requires AllValid(jobs) && Runs(fs, jobs, ts)
    ensures |js| == |jobs|
    decreases |ts|
  {
    if ts == [] then jobs
    else EndJobs(DiskAfter(fs, jobs, ts[0].job, ts[0].step), JobsAfter(fs, jobs, ts[0].job, ts[0].step), ts[1..])
  }

  /** The turns of one job, in order. */
  function Of(ts: seq<Turn>, i: nat): seq<Label>
  {
    if ts == [] then [] else (if ts[0].job == i then [ts[0].step] else []) + Of(ts[1..], i)
  }

  /** No path serves two purposes. */
  predicate Apart(jobs: seq<Job>)
  {
    && (forall i, j :: 0 <= i < |jobs| && 0 <= j < |jobs| ==> jobs[i].tmpPath != jobs[j].dstPath)
    && (forall i, j :: 0 <= i < |jobs| && 0 <= j < |jobs| && i != j ==>
          jobs[i].tmpPath != jobs[j].tmpPath && jobs[i].dstPath != jobs[j].dstPath)
  }

  predicate InSync(fs: Files, jobs: seq<Job>)
  {
    forall i :: 0 <= i < |jobs| ==> Loaded(fs, jobs[i]) == jobs[i].s
  }

  lemma SyncStep(fs: Files, jobs: seq<Job>, i: nat, l: Label)
    requires AllValid(jobs) && Apart(jobs) && InSync(fs, jobs) && CanTake(fs, jobs, i, l)
    ensures InSync(DiskAfter(fs, jobs, i, l), JobsAfter(fs, jobs, i, l)) && Apart(JobsAfter(fs, jobs, i, l))
  {
    var js := JobsAfter(fs, jobs, i, l);
    var gs := DiskAfter(fs, jobs, i, l);
    forall j | 0 <= j < |js|
      ensures Loaded(gs, js[j]) == js[j].s
    {
      assert Loaded(fs, jobs[j]) == jobs[j].s;
      if j != i {
        assert View(gs, js[j].tmpPath) == View(fs, jobs[j].tmpPath);
        assert View(gs, js[j].dstPath) == View(fs, jobs[j].dstPath);
      }
    }
  }

  /** Side by side on one disk, each download runs as if it were alone: its own turns are a run
      of its own, and its two paths hold what that run says. */
  lemma {:induction false} AsIfAlone(fs: Files, jobs: seq<Job>, ts: seq<Turn>, i: nat)
    requires AllValid(jobs) && Apart(jobs) && InSync(fs, jobs) && Runs(fs, jobs, ts) && i < |jobs|
    ensures Follows(jobs[i].p, jobs[i].s, Of(ts, i))
    ensures var job := EndJobs(fs, jobs, ts)[i];
            && job == jobs[i].(s := After(jobs[i].p, jobs[i].s, Of(ts, i)))
            && job.s == Loaded(EndDisk(fs, jobs, ts), job)
    decreases |ts|
  {
    if ts != [] {
      var j, l := ts[0].job, ts[0].step;
      SyncStep(fs, jobs, j, l);
      assert Loaded(fs, jobs[j]) == jobs[j].s;
      AsIfAlone(DiskAfter(fs, jobs, j, l), JobsAfter(fs, jobs, j, l), ts[1..], i);
      if i == j {
        assert Of(ts, i)[0] == l && Of(ts, i)[1..] == Of(ts[1..], i);
      } else {
        assert Of(ts, i) == Of(ts[1..], i);
      }
    }
  }

  /** The downloads DownloadPrefix has in flight for these keys. */
  predicate Serve(jobs: seq<Job>, outputDir: string, prefix: string, keys: seq<string>)
  {
    |jobs| == |keys| && forall i :: 0 <= i < |jobs| ==>
      var path := LocalPath(outputDir, prefix, keys[i]);
      jobs[i].dstPath == path && jobs[i].tmpPath == TempPath(path)
  }

  /** No two keys go to one file, and none to another's temporary file. */
  predicate PlacesApart(outputDir: string, prefix: string, keys: seq<string>)
  {
    && (forall i, j :: 0 <= i < |keys| && 0 <= j < |keys| && i != j ==> !Meets(outputDir, prefix, keys[i], keys[j]))
    && (forall i, j :: 0 <= i < |keys| && 0 <= j < |keys| ==> !MeetsTemp(outputDir, prefix, keys[i], keys[j]))
  }

  /** For keys of any shape that go to files with names: no path serves two purposes exactly when
      their places are apart. */
  lemma ApartExactly(jobs: seq<Job>, outputDir: string, prefix: string, keys: seq<string>)
    requires outputDir != "" && Serve(jobs, outputDir, prefix, keys)
    requires forall i :: 0 <= i < |keys| ==> HasName(Where(outputDir, prefix, keys[i]))
    ensures Apart(jobs) <==> PlacesApart(outputDir, prefix, keys)
  {
    forall i, j | 0 <= i < |keys| && 0 <= j < |keys|
      ensures jobs[i].dstPath == jobs[j].dstPath <==> Meets(outputDir, prefix, keys[i], keys[j])
      ensures jobs[i].tmpPath == jobs[j].tmpPath <==> Meets(outputDir, prefix, keys[i], keys[j])
      ensures jobs[i].tmpPath == jobs[j].dstPath <==> MeetsTemp(outputDir, prefix, keys[i], keys[j])
    {
      SameFileExactly(outputDir, prefix, keys[i], keys[j]);
      SameTempExactly(outputDir, prefix, keys[i], keys[j]);
      TempIsFileExactly(outputDir, prefix, keys[i], keys[j]);
    }
  }

  /** The keys are distinct, and each lies under the prefix by ordinary names or is the prefix,
      which then has a last name. */
  predicate Plain(prefix: string, keys: seq<string>, rels: seq<seq<string>>)
  {
    && |rels| == |keys|
    && (forall i :: 0 <= i < |keys| ==> Under(keys[i], prefix, rels[i]) && Named(prefix, rels[i]))
    && (forall i, j :: 0 <= i < |keys| && 0 <= j < |keys| && i != j ==> keys[i] != keys[j])
  }

  /** File j has the names of the temporary file of i. */
  predicate NamesTemp(prefix: string, rels: seq<seq<string>>, i: nat, j: nat)
    requires i < |rels| && j < |rels|
  {
    Names(prefix, rels[i]) != [] && Names(prefix, rels[j]) == TempRel(Names(prefix, rels[i]))
  }

  /** The paths of two jobs meet only where one's names are the other's temporary names, or where
      their keys are the prefix and its twin. */
  predicate PathsApart(jobs: seq<Job>, prefix: string, keys: seq<string>, rels: seq<seq<string>>, i: nat, j: nat)
    requires |jobs| == |rels| == |keys| && i < |jobs| && j < |jobs|
  {
    && (jobs[i].tmpPath == jobs[j].dstPath <==> NamesTemp(prefix, rels, i, j))
    && (jobs[i].tmpPath == jobs[j].tmpPath <==> i == j || Twins(prefix, keys[i], keys[j]))
    && (jobs[i].dstPath == jobs[j].dstPath <==> i == j || Twins(prefix, keys[i], keys[j]))
  }

  lemma PairApart(jobs: seq<Job>, outputDir: string, prefix: string, keys: seq<string>, rels: seq<seq<string>>,
          i: nat, j: nat)
    requires outputDir != "" && Serve(jobs, outputDir, prefix, keys) && Plain(prefix, keys, rels) && i < |keys| &&
        j < |keys|
    ensures PathsApart(jobs, prefix, keys, rels, i, j)
  {
    TempMeetsFinal(outputDir, prefix, keys[i], rels[i], keys[j], rels[j]);
    TempPathsDistinct(outputDir, prefix, keys[i], rels[i], keys[j], rels[j]);
    FinalPathsDistinct(outputDir, prefix, keys[i], rels[i], keys[j], rels[j]);
  }

  predicate NoneNamesTemp(prefix: string, rels: seq<seq<string>>)
  {
    forall i, j :: 0 <= i < |rels| && 0 <= j < |rels| ==> !NamesTemp(prefix, rels, i, j)
  }

  predicate NoTwins(prefix: string, keys: seq<string>)
  {
    forall i, j :: 0 <= i < |keys| && 0 <= j < |keys| && i != j ==> !Twins(prefix, keys[i], keys[j])
  }

  /** Such keys never share a path exactly when none of them has another's temporary name, and the
      prefix does not come together with its twin. */
  lemma KeysApart(jobs: seq<Job>, outputDir: string, prefix: string, keys: seq<string>, rels: seq<seq<string>>)
    requires outputDir != "" && Serve(jobs, outputDir, prefix, keys) && Plain(prefix, keys, rels)
    ensures Apart(jobs) <==> NoneNamesTemp(prefix, rels) && NoTwins(prefix, keys)
  {
    forall i, j | 0 <= i < |keys| && 0 <= j < |keys|
      ensures PathsApart(jobs, prefix, keys, rels, i, j)
    {
      PairApart(jobs, outputDir, prefix, keys, rels, i, j);
    }
    ApartByNames(jobs, prefix, keys, rels);
  }

  lemma ApartByNames(jobs: seq<Job>, prefix: string, keys: seq<string>, rels: seq<seq<string>>)
    requires |jobs| == |rels| == |keys|
    requires forall i, j :: 0 <= i < |jobs| && 0 <= j < |jobs| ==> PathsApart(jobs, prefix, keys, rels, i, j)
    ensures Apart(jobs) <==> NoneNamesTemp(prefix, rels) && NoTwins(prefix, keys)
  {
    forall i, j | 0 <= i < |jobs| && 0 <= j < |jobs|
      ensures jobs[i].tmpPath == jobs[j].dstPath <==> NamesTemp(prefix, rels, i, j)
      ensures jobs[i].tmpPath == jobs[j].tmpPath <==> i == j || Twins(prefix, keys[i], keys[j])
      ensures jobs[i].dstPath == jobs[j].dstPath <==> i == j || Twins(prefix, keys[i], keys[j])
    {
      assert PathsApart(jobs, prefix, keys, rels, i, j);
    }
  }

  /** So a prefix download over a range-honouring server, crashed at any point, leaves at every
      key's path its old file or the whole object. */
  lemma PrefixOldOrComplete(fs: Files, jobs: seq<Job>, ts: seq<Turn>, i: nat, obj: Bytes)
    requires AllValid(jobs) && Apart(jobs) && InSync(fs, jobs) && Runs(fs, jobs, ts) && i < |jobs|
    requires jobs[i].s == Init(jobs[i].p, View(fs, jobs[i].tmpPath), View(fs, jobs[i].dstPath))
    requires jobs[i].p.total == |obj| && Honest(jobs[i].p, obj, Of(ts, i))
    ensures var now := View(EndDisk(fs, jobs, ts), jobs[i].dstPath);
            now == (if Succeeded(EndJobs(fs, jobs, ts)[i].s) then Some(obj) else View(fs, jobs[i].dstPath))
  {
    AsIfAlone(fs, jobs, ts, i);
    EndToEnd(jobs[i].p, obj, jobs[i].s.tmp, jobs[i].s.dst, Of(ts, i));
  }
}
