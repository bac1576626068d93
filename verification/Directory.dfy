/**
  Prefix downloads into one directory, the two systems together: the steps of DownloadPrefix with the
  steps of the downloads it starts, on one disk.  The skip test reads that disk, a file's download
  moves only while its goroutine is in it, and its result is the one its goroutine goes on with.  A
  process may die after any event, and another prefix download may follow.
 */
module Directory {
  import opened Prelude
  import opened Storage
  import Listing
  import P = PrefixDownload
  import A = PrefixAccounting
  import T = Transfer
  import I = TransferInvariants
  import C = TransferContent
  import opened Paths
  import opened Resume

  /** What each path of the directory is meant to hold: the objects do not change. */
  type Content = map<string, Bytes>

  datatype Whole = Whole(s: P.State, fs: Files, jobs: seq<Job>)

  /** A step of DownloadPrefix, or a step of the download of file i. */
  datatype Event = Outer(l: P.Label) | Inner(i: nat, step: T.Label)

  /** What os.Stat and the size comparison find. */
  predicate Hit(p: P.Params, w: Whole, i: nat)
    requires i < |w.jobs| == |p.objects|
  {
    var f := View(w.fs, w.jobs[i].dstPath);
    f.Some? && |f.value| == p.objects[i].size
  }

  /** The steps of DownloadPrefix that look at the disk, or at how a download ended, see what is there. */
  predicate Sees(p: P.Params, w: Whole, l: P.Label)
    requires |w.jobs| == |p.objects|
  {
    l.Work? && l.i < |w.jobs| ==>
      match l.act
      case Stat(hit) => hit == Hit(p, w, l.i)
      case Finish(ok, bytes) =>
        var phase := w.jobs[l.i].s.phase;
        phase.Ended? && ok == phase.outcome.Success? && (ok ==> bytes == phase.outcome.bytes)
      case _ => true
  }

  predicate Can(p: P.Params, content: Content, w: Whole, e: Event)
  {
    && AllValid(w.jobs) && |w.jobs| == |p.objects| == |w.s.ws|
    && match e
       case Outer(l) => P.Enabled(p, w.s, l) && Sees(p, w, l)
       case Inner(i, step) =>
         && i < |w.jobs| && w.s.ws[i].pc.Downloading? && CanTake(w.fs, w.jobs, i, step)
         && Meant(content, w.jobs[i]) && C.HonestLabel(w.jobs[i].p, content[w.jobs[i].dstPath], step)
  }

  /** The job fetches what its path is meant to hold. */
  predicate Meant(content: Content, job: Job)
  {
    && job.p.Valid() && job.dstPath in content && |content[job.dstPath]| == job.p.total
    && job.tmpPath !in content
  }

  function Next(p: P.Params, content: Content, w: Whole, e: Event): Whole
    requires Can(p, content, w, e)
  {
    match e
    case Outer(l) => w.(s := P.Next(p, w.s, l))
    case Inner(i, step) => Whole(w.s, DiskAfter(w.fs, w.jobs, i, step), JobsAfter(w.fs, w.jobs, i, step))
  }

  predicate Follows(p: P.Params, content: Content, w: Whole, es: seq<Event>)
    decreases |es|
  {
    es != [] ==> Can(p, content, w, es[0]) && Follows(p, content, Next(p, content, w, es[0]), es[1..])
  }

  function After(p: P.Params, content: Content, w: Whole, es: seq<Event>): Whole
    requires Follows(p, content, w, es)
    decreases |es|
  {
    if es == [] then w else After(p, content, Next(p, content, w, es[0]), es[1..])
  }

  /** A prefix download begins: one job for each listed object, at its start, with separate paths, and
      the listed sizes are those of the objects. */
  predicate Begins(p: P.Params, content: Content, w: Whole)
  {
    && w.s == P.Init(p) && |w.jobs| == |p.objects| && AllValid(w.jobs) && Apart(w.jobs)
    && forall i :: 0 <= i < |w.jobs| ==> Fresh(p, content, w, i)
  }

  predicate Fresh(p: P.Params, content: Content, w: Whole, i: nat)
    requires i < |w.jobs| == |p.objects|
  {
    var job := w.jobs[i];
    && Meant(content, job) && p.objects[i].size == |content[job.dstPath]|
    && job.s == T.Init(job.p, View(w.fs, job.tmpPath), View(w.fs, job.dstPath))
  }

  // ---- The invariant ----

  /** The path held a file of the listed size when the prefix download began. */
  predicate HadSize(content: Content, fs0: Files, path: string)
    requires path in content
  {
    View(fs0, path).Some? && |View(fs0, path).value| == |content[path]|
  }

  /** How far a file's goroutine is agrees with its download, and with what was on the disk. */
  predicate InStep(content: Content, fs0: Files, w: P.Worker, job: Job)
    requires job.dstPath in content
  {
    match w.pc
    case Idle => job.s.phase.Start?
    case Statting => job.s.phase.Start?
    case Downloading(_, _) => true
    case Crediting => HadSize(content, fs0, job.dstPath) && job.s.phase.Start?
    case Adding(_) => I.Succeeded(job.s)
    case Failing => true
    case Appending(out) => Justified(content, fs0, job, out)
    case Leaving(out) => Justified(content, fs0, job, out)
    case Exited(out) => Justified(content, fs0, job, out)
  }

  predicate Justified(content: Content, fs0: Files, job: Job, out: P.FileOutcome)
    requires job.dstPath in content
  {
    match out
    case Skipped => HadSize(content, fs0, job.dstPath) && job.s.phase.Start?
    case Done(_) => I.Succeeded(job.s)
    case Error => true
  }

  /** The download's own invariants, from the disk the prefix download began on. */
  ghost predicate JobOk(content: Content, fs0: Files, job: Job)
  {
    && Meant(content, job) && I.Inv(job.p, job.s) && C.Intact(job.p, content[job.dstPath], job.s)
    && C.Published(job.p, content[job.dstPath], View(fs0, job.tmpPath), View(fs0, job.dstPath), job.s)
  }

  ghost predicate Good(p: P.Params, content: Content, fs0: Files, w: Whole, i: nat)
    requires i < |w.jobs| == |p.objects| == |w.s.ws|
  {
    && JobOk(content, fs0, w.jobs[i]) && p.objects[i].size == |content[w.jobs[i].dstPath]|
    && InStep(content, fs0, w.s.ws[i], w.jobs[i])
  }

  /** A path no job uses holds what it held. */
  ghost predicate Untouched(fs0: Files, fs: Files, jobs: seq<Job>)
  {
    forall path :: Nobodys(jobs, path) ==> View(fs, path) == View(fs0, path)
  }

  predicate Nobodys(jobs: seq<Job>, path: string)
  {
    forall i :: 0 <= i < |jobs| ==> path != jobs[i].tmpPath && path != jobs[i].dstPath
  }

  ghost predicate Inv(p: P.Params, content: Content, fs0: Files, w: Whole)
  {
    && A.Inv(p, w.s) && |w.jobs| == |p.objects| == |w.s.ws|
    && AllValid(w.jobs) && Apart(w.jobs) && InSync(w.fs, w.jobs) && Untouched(fs0, w.fs, w.jobs)
    && forall i :: 0 <= i < |w.jobs| ==> Good(p, content, fs0, w, i)
  }

  lemma JobInit(content: Content, fs0: Files, job: Job)
    requires Meant(content, job) && job.s == T.Init(job.p, View(fs0, job.tmpPath), View(fs0, job.dstPath))
    ensures JobOk(content, fs0, job) && job.s.phase.Start? && Loaded(fs0, job) == job.s
  {
    I.InvInit(job.p, View(fs0, job.tmpPath), View(fs0, job.dstPath));
  }

  lemma InvInit(p: P.Params, content: Content, w: Whole)
    requires Begins(p, content, w)
    ensures Inv(p, content, w.fs, w)
  {
    A.InvInit(p);
    forall i | 0 <= i < |w.jobs| ensures Good(p, content, w.fs, w, i) && Loaded(w.fs, w.jobs[i]) == w.jobs[i].s {
      assert Fresh(p, content, w, i);
      JobInit(content, w.fs, w.jobs[i]);
    }
  }

  /** A download's own step. */
  lemma JobStep(content: Content, fs0: Files, job: Job, l: T.Label)
    requires JobOk(content, fs0, job) && T.Enabled(job.p, job.s, l) && C.HonestLabel(job.p, content[job.dstPath], l)
    ensures JobOk(content, fs0, job.(s := T.Next(job.p, job.s, l)))
  {
    var obj := content[job.dstPath];
    I.InvStep(job.p, job.s, l);
    C.IntactStep(job.p, obj, job.s, l);
    C.PublishedStep(job.p, obj, View(fs0, job.tmpPath), View(fs0, job.dstPath), job.s, l);
  }

  /** It moves no paths, and the other files not at all. */
  lemma InnerFrame(fs: Files, jobs: seq<Job>, i: nat, l: T.Label, path: string)
    requires AllValid(jobs) && CanTake(fs, jobs, i, l)
    ensures var js := JobsAfter(fs, jobs, i, l);
            && (forall j :: 0 <= j < |js| ==> js[j].tmpPath == jobs[j].tmpPath && js[j].dstPath == jobs[j].dstPath)
            && (Nobodys(js, path) <==> Nobodys(jobs, path))
    ensures Nobodys(jobs, path) ==> View(DiskAfter(fs, jobs, i, l), path) == View(fs, path)
  {
    var js := JobsAfter(fs, jobs, i, l);
    assert forall j :: 0 <= j < |js| ==> js[j].tmpPath == jobs[j].tmpPath && js[j].dstPath == jobs[j].dstPath;
  }

  lemma InnerGood(p: P.Params, content: Content, fs0: Files, w: Whole, i: nat, l: T.Label)
    requires Inv(p, content, fs0, w) && Can(p, content, w, Inner(i, l))
    ensures var v := Next(p, content, w, Inner(i, l));
            |v.jobs| == |w.jobs| && forall j :: 0 <= j < |v.jobs| ==> Good(p, content, fs0, v, j)
  {
    var v := Next(p, content, w, Inner(i, l));
    assert Loaded(w.fs, w.jobs[i]) == w.jobs[i].s;
    assert Good(p, content, fs0, w, i);
    JobStep(content, fs0, w.jobs[i], l);
    forall j | 0 <= j < |v.jobs| ensures Good(p, content, fs0, v, j) {
      assert Good(p, content, fs0, w, j);
    }
  }

  lemma InnerStep(p: P.Params, content: Content, fs0: Files, w: Whole, i: nat, l: T.Label)
    requires Inv(p, content, fs0, w) && Can(p, content, w, Inner(i, l))
    ensures Inv(p, content, fs0, Next(p, content, w, Inner(i, l)))
  {
    var v := Next(p, content, w, Inner(i, l));
    SyncStep(w.fs, w.jobs, i, l);
    InnerGood(p, content, fs0, w, i, l);
    forall path | Nobodys(v.jobs, path) ensures View(v.fs, path) == View(fs0, path) {
      InnerFrame(w.fs, w.jobs, i, l, path);
    }
  }

  /** A goroutine's step agrees with its download. */
  lemma WorkerStep(p: P.Params, content: Content, fs0: Files, w: Whole, i: nat, act: P.Act)
    requires Inv(p, content, fs0, w) && Can(p, content, w, Outer(P.Work(i, act)))
    ensures w.jobs[i].dstPath in content && InStep(content, fs0, P.Moved(w.s.ws[i], act), w.jobs[i])
  {
    var job := w.jobs[i];
    assert Good(p, content, fs0, w, i);
    assert Loaded(w.fs, job) == job.s;
    if act.Stat? { assert View(w.fs, job.dstPath) == job.s.dst == View(fs0, job.dstPath); }
  }

  lemma OuterStep(p: P.Params, content: Content, fs0: Files, w: Whole, l: P.Label)
    requires Inv(p, content, fs0, w) && Can(p, content, w, Outer(l))
    ensures Inv(p, content, fs0, Next(p, content, w, Outer(l)))
  {
    var v := Next(p, content, w, Outer(l));
    A.InvStep(p, w.s, l);
    if l.Work? { WorkerStep(p, content, fs0, w, l.i, l.act); }
    forall j | 0 <= j < |v.jobs| ensures Good(p, content, fs0, v, j) {
      assert Good(p, content, fs0, w, j);
    }
  }

  lemma {:induction false} InvAlong(p: P.Params, content: Content, fs0: Files, w: Whole, es: seq<Event>)
    requires Inv(p, content, fs0, w) && Follows(p, content, w, es)
    ensures Inv(p, content, fs0, After(p, content, w, es))
    decreases |es|
  {
    if es != [] {
      match es[0] {
        case Outer(l) => OuterStep(p, content, fs0, w, l);
        case Inner(i, step) => InnerStep(p, content, fs0, w, i, step);
      }
      InvAlong(p, content, fs0, Next(p, content, w, es[0]), es[1..]);
    }
  }

  // ---- One prefix download ----

  /** Each path of the directory holds its first file or its object. */
  ghost predicate OldOrMeant(content: Content, fs0: Files, fs: Files)
  {
    forall path :: path in content ==> View(fs, path) == View(fs0, path) || View(fs, path) == Some(content[path])
  }

  lemma InvKeeps(p: P.Params, content: Content, fs0: Files, w: Whole)
    requires Inv(p, content, fs0, w)
    ensures OldOrMeant(content, fs0, w.fs)
  {
    forall path | path in content
      ensures View(w.fs, path) == View(fs0, path) || View(w.fs, path) == Some(content[path])
    {
      if i :| 0 <= i < |w.jobs| && w.jobs[i].dstPath == path {
        assert Good(p, content, fs0, w, i) && Loaded(w.fs, w.jobs[i]) == w.jobs[i].s;
      } else {
        forall i | 0 <= i < |w.jobs| ensures path != w.jobs[i].tmpPath && path != w.jobs[i].dstPath {
          assert Good(p, content, fs0, w, i);
        }
        assert Nobodys(w.jobs, path);
      }
    }
  }

  /** A file of the right size is the right file. */
  ghost predicate Sound(content: Content, fs: Files)
  {
    forall path :: path in content && HadSize(content, fs, path) ==> View(fs, path) == Some(content[path])
  }

  /** The steps of DownloadPrefix among the events. */
  function Outers(es: seq<Event>): seq<P.Label>
  {
    if es == [] then [] else (if es[0].Outer? then [es[0].l] else []) + Outers(es[1..])
  }

  lemma {:induction false} Projected(p: P.Params, content: Content, w: Whole, es: seq<Event>)
    requires Follows(p, content, w, es)
    ensures P.Follows(p, w.s, Outers(es)) && P.After(p, w.s, Outers(es)) == After(p, content, w, es).s
    decreases |es|
  {
    if es != [] {
      Projected(p, content, Next(p, content, w, es[0]), es[1..]);
      if es[0].Outer? {
        assert Outers(es)[0] == es[0].l && Outers(es)[1..] == Outers(es[1..]);
      } else {
        assert Outers(es) == Outers(es[1..]);
      }
    }
  }

  lemma ResultOnDisk(p: P.Params, content: Content, fs0: Files, w: Whole, i: nat)
    requires Inv(p, content, fs0, w) && Sound(content, fs0) && i < |w.jobs| && A.Handled(w.s.results, i)
    ensures w.jobs[i].dstPath in content
    ensures View(w.fs, w.jobs[i].dstPath) == Some(content[w.jobs[i].dstPath])
  {
    var k :| 0 <= k < |w.s.results| && w.s.results[k].index == i && !w.s.results[k].out.Error?;
    assert A.InPlace(w.s.ws, w.s.results[k]);
    assert Good(p, content, fs0, w, i) && Loaded(w.fs, w.jobs[i]) == w.jobs[i].s;
  }

  /** What the results say is on the disk: at any moment of any run, crashes included, a file with a
      result that is no error, downloaded or skipped, is complete; and when DownloadPrefix returns
      no error and the caller did not cancel, every listed file is. */
  lemma ResultsOnDisk(p: P.Params, content: Content, w: Whole, es: seq<Event>)
    requires Begins(p, content, w) && Sound(content, w.fs) && Follows(p, content, w, es)
    ensures var v := After(p, content, w, es);
            && |v.jobs| == |p.objects|
            && (forall i :: 0 <= i < |v.jobs| && A.Handled(v.s.results, i) ==>
                  v.jobs[i].dstPath in content && View(v.fs, v.jobs[i].dstPath) == Some(content[v.jobs[i].dstPath]))
            && (v.s.phase.Ended? && v.s.phase.err.None? && !v.s.outside ==>
                  forall i :: 0 <= i < |v.jobs| ==> A.Handled(v.s.results, i))
  {
    InvInit(p, content, w);
    InvAlong(p, content, w.fs, w, es);
    var v := After(p, content, w, es);
    forall i | 0 <= i < |v.jobs| && A.Handled(v.s.results, i)
      ensures v.jobs[i].dstPath in content && View(v.fs, v.jobs[i].dstPath) == Some(content[v.jobs[i].dstPath])
    {
      assert Good(p, content, w.fs, v, i);
      ResultOnDisk(p, content, w.fs, v, i);
    }
    Projected(p, content, w, es);
    if v.s.phase.Ended? && v.s.phase.err.None? && !v.s.outside { A.NilError(p, Outers(es)); }
  }

  // ---- One prefix download after the other ----

  /** A prefix download, as far as it got. */
  datatype Round = Round(p: P.Params, jobs: seq<Job>, es: seq<Event>)

  function Opening(fs: Files, r: Round): Whole { Whole(P.Init(r.p), fs, r.jobs) }

  predicate Fits(content: Content, fs: Files, r: Round)
  {
    Begins(r.p, content, Opening(fs, r)) && Follows(r.p, content, Opening(fs, r), r.es)
  }

  function AfterRound(content: Content, fs: Files, r: Round): Files
    requires Fits(content, fs, r)
  {
    After(r.p, content, Opening(fs, r), r.es).fs
  }

  /** Each begins on the disk the one before left. */
  predicate AllFit(content: Content, fs: Files, rs: seq<Round>)
    decreases |rs|
  {
    rs != [] ==> Fits(content, fs, rs[0]) && AllFit(content, AfterRound(content, fs, rs[0]), rs[1..])
  }

  function AfterRounds(content: Content, fs: Files, rs: seq<Round>): Files
    requires AllFit(content, fs, rs)
    decreases |rs|
  {
    if rs == [] then fs else AfterRounds(content, AfterRound(content, fs, rs[0]), rs[1..])
  }

  /** No round uses the path. */
  predicate Spared(rs: seq<Round>, path: string)
  {
    forall k :: 0 <= k < |rs| ==> Nobodys(rs[k].jobs, path)
  }

  lemma RoundKeeps(content: Content, fs: Files, r: Round, path: string)
    requires Fits(content, fs, r)
    ensures OldOrMeant(content, fs, AfterRound(content, fs, r))
    ensures Nobodys(r.jobs, path) ==> View(AfterRound(content, fs, r), path) == View(fs, path)
  {
    var w := Opening(fs, r);
    InvInit(r.p, content, w);
    InvAlong(r.p, content, fs, w, r.es);
    var v := After(r.p, content, w, r.es);
    InvKeeps(r.p, content, fs, v);
    SamePaths(r.p, content, w, r.es);
    if Nobodys(r.jobs, path) {
      assert Nobodys(v.jobs, path) by {
        forall i | 0 <= i < |v.jobs| ensures path != v.jobs[i].tmpPath && path != v.jobs[i].dstPath {
          assert v.jobs[i].tmpPath == w.jobs[i].tmpPath && v.jobs[i].dstPath == w.jobs[i].dstPath;
        }
      }
    }
  }

  lemma {:induction false} SamePaths(p: P.Params, content: Content, w: Whole, es: seq<Event>)
    requires Follows(p, content, w, es)
    ensures var v := After(p, content, w, es);
            |v.jobs| == |w.jobs| && forall i :: 0 <= i < |v.jobs| ==>
              v.jobs[i].tmpPath == w.jobs[i].tmpPath && v.jobs[i].dstPath == w.jobs[i].dstPath
    decreases |es|
  {
    if es != [] { SamePaths(p, content, Next(p, content, w, es[0]), es[1..]); }
  }

  /** Over any sequence of prefix downloads into the directory, each crashed anywhere, every path that
      an object is meant for holds its first file or the object, and a path nobody used is as it was. */
  lemma {:induction false} RoundsKeep(content: Content, fs: Files, rs: seq<Round>, path: string)
    requires AllFit(content, fs, rs)
    ensures OldOrMeant(content, fs, AfterRounds(content, fs, rs))
    ensures Spared(rs, path) ==> View(AfterRounds(content, fs, rs), path) == View(fs, path)
    decreases |rs|
  {
    if rs != [] {
      var gs := AfterRound(content, fs, rs[0]);
      RoundKeeps(content, fs, rs[0], path);
      RoundsKeep(content, gs, rs[1..], path);
      if Spared(rs, path) {
        assert Nobodys(rs[0].jobs, path);
        forall k | 0 <= k < |rs[1..]| ensures Nobodys(rs[1..][k].jobs, path) { assert Nobodys(rs[k + 1].jobs, path); }
      }
    }
  }

  ghost predicate StaysSound(content: Content, fs: Files, rs: seq<Round>)
  {
    AllFit(content, fs, rs) ==> Sound(content, AfterRounds(content, fs, rs))
  }

  /** The skip test never passes an incomplete file, at any moment of any sequence of prefix downloads,
      exactly when it would not have at first. */
  lemma SkipSoundExactly(content: Content, fs: Files)
    ensures (forall rs :: StaysSound(content, fs, rs)) <==> Sound(content, fs)
  {
    if forall rs :: StaysSound(content, fs, rs) {
      assert StaysSound(content, fs, []);
      assert AfterRounds(content, fs, []) == fs;
    }
    if Sound(content, fs) {
      forall rs ensures StaysSound(content, fs, rs) {
        if AllFit(content, fs, rs) { RoundsKeep(content, fs, rs, ""); }
      }
    }
  }

  /** So, from a sound directory, after any crashed prefix downloads: one that returns no error, not
      cancelled from outside, leaves every object it listed complete on the disk. */
  lemma ResumeCompletes(content: Content, fs: Files, rs: seq<Round>, r: Round, i: nat)
    requires Sound(content, fs) && AllFit(content, fs, rs) && Fits(content, AfterRounds(content, fs, rs), r)
    requires var s := After(r.p, content, Opening(AfterRounds(content, fs, rs), r), r.es).s;
             s.phase.Ended? && s.phase.err.None? && !s.outside
    requires i < |r.jobs|
    ensures r.jobs[i].dstPath in content
    ensures View(AfterRound(content, AfterRounds(content, fs, rs), r), r.jobs[i].dstPath) ==
        Some(content[r.jobs[i].dstPath])
  {
    var gs := AfterRounds(content, fs, rs);
    SkipSoundExactly(content, fs);
    assert StaysSound(content, fs, rs);
    ResultsOnDisk(r.p, content, Opening(gs, r), r.es);
    SamePaths(r.p, content, Opening(gs, r), r.es);
    var v := After(r.p, content, Opening(gs, r), r.es);
    assert A.Handled(v.s.results, i);
  }

  // ---- In terms of keys ----

  /** The objects of the bucket under a prefix, by key. */
  type Store = map<string, Bytes>

  /** The directory is meant to hold the objects of the store, each where its key goes. */
  predicate Laid(store: Store, outputDir: string, prefix: string, content: Content)
  {
    && (forall key :: key in store ==>
          var path := LocalPath(outputDir, prefix, key); path in content && content[path] == store[key])
    && (forall path :: path in content ==> exists key :: key in store && path == LocalPath(outputDir, prefix, key))
  }

  /** The keys of the store go to files with names; no two to one, and none to a temporary file. */
  predicate StoreApart(store: Store, outputDir: string, prefix: string)
  {
    && (forall key :: key in store ==> HasName(Where(outputDir, prefix, key)))
    && (forall key, other :: key in store && other in store ==>
          !MeetsTemp(outputDir, prefix, key, other) && (key != other ==> !Meets(outputDir, prefix, key, other)))
  }

  function KeysOf(p: P.Params): (keys: seq<string>)
    ensures |keys| == |p.objects| && forall i :: 0 <= i < |keys| ==> keys[i] == p.objects[i].key
  {
    seq(|p.objects|, i requires 0 <= i < |p.objects| => p.objects[i].key)
  }

  /** The listing is of objects of the store, each once and with its size. */
  predicate Lists(p: P.Params, store: Store)
  {
    && (forall i :: 0 <= i < |p.objects| ==>
          var o := p.objects[i]; o.key in store && o.size == |store[o.key]|)
    && (forall i, j :: 0 <= i < |p.objects| && 0 <= j < |p.objects| && i != j ==> p.objects[i].key != p.objects[j].key)
  }

  /** What DownloadPrefix sets up for a listing: for each key a download of its object to where it goes. */
  predicate SetUp(p: P.Params, outputDir: string, prefix: string, w: Whole)
  {
    && w.s == P.Init(p) && Serve(w.jobs, outputDir, prefix, KeysOf(p)) && AllValid(w.jobs)
    && forall i :: 0 <= i < |w.jobs| ==>
         var job := w.jobs[i];
         job.p.total == p.objects[i].size && job.s == T.Init(job.p, View(w.fs, job.tmpPath), View(w.fs, job.dstPath))
  }

  lemma ListedApart(p: P.Params, store: Store, outputDir: string, prefix: string, jobs: seq<Job>)
    requires outputDir != "" && StoreApart(store, outputDir, prefix) && Lists(p, store)
    requires Serve(jobs, outputDir, prefix, KeysOf(p))
    ensures Apart(jobs)
  {
    var keys := KeysOf(p);
    forall i | 0 <= i < |keys| ensures keys[i] in store && HasName(Where(outputDir, prefix, keys[i])) {
      assert p.objects[i].key in store;
    }
    assert PlacesApart(outputDir, prefix, keys) by {
      forall i, j | 0 <= i < |keys| && 0 <= j < |keys|
        ensures !MeetsTemp(outputDir, prefix, keys[i], keys[j])
        ensures i != j ==> !Meets(outputDir, prefix, keys[i], keys[j])
      {
        assert i != j ==> p.objects[i].key != p.objects[j].key;
      }
    }
    ApartExactly(jobs, outputDir, prefix, keys);
  }

  lemma TempNotMeant(store: Store, outputDir: string, prefix: string, content: Content, key: string)
    requires outputDir != "" && StoreApart(store, outputDir, prefix) && Laid(store, outputDir, prefix, content)
    requires key in store
    ensures TempPath(LocalPath(outputDir, prefix, key)) !in content
  {
    var path := TempPath(LocalPath(outputDir, prefix, key));
    if path in content {
      var other :| other in store && path == LocalPath(outputDir, prefix, other);
      TempIsFileExactly(outputDir, prefix, key, other);
    }
  }

  /** Then a prefix download begins. */
  lemma BeginsByKeys(p: P.Params, store: Store, outputDir: string, prefix: string, content: Content, w: Whole)
    requires outputDir != "" && StoreApart(store, outputDir, prefix) && Laid(store, outputDir, prefix, content)
    requires Lists(p, store) && SetUp(p, outputDir, prefix, w)
    ensures Begins(p, content, w)
  {
    ListedApart(p, store, outputDir, prefix, w.jobs);
    forall i | 0 <= i < |w.jobs| ensures Fresh(p, content, w, i) {
      TempNotMeant(store, outputDir, prefix, content, p.objects[i].key);
    }
  }

  /** From a sound directory and after any crashed prefix downloads, one that lists objects of the store
      and returns no error, not cancelled from outside, leaves each of them, complete, where its key
      goes in the output directory. */
  lemma KeysComplete(store: Store, outputDir: string, prefix: string, content: Content, fs: Files, rs: seq<Round>,
          r: Round, key: string)
    requires outputDir != "" && StoreApart(store, outputDir, prefix) && Laid(store, outputDir, prefix, content)
    requires Sound(content, fs) && AllFit(content, fs, rs)
    requires var w := Opening(AfterRounds(content, fs, rs), r);
             && Lists(r.p, store) && SetUp(r.p, outputDir, prefix, w) && Follows(r.p, content, w, r.es)
             && var s := After(r.p, content, w, r.es).s;
                s.phase.Ended? && s.phase.err.None? && !s.outside
    requires key in KeysOf(r.p)
    ensures var gs := AfterRounds(content, fs, rs);
            && Fits(content, gs, r)
            && key in store && View(AfterRound(content, gs, r), LocalPath(outputDir, prefix, key)) == Some(store[key])
  {
    var gs := AfterRounds(content, fs, rs);
    BeginsByKeys(r.p, store, outputDir, prefix, content, Opening(gs, r));
    var i :| 0 <= i < |r.p.objects| && r.p.objects[i].key == key;
    ResumeCompletes(content, fs, rs, r, i);
  }
}
