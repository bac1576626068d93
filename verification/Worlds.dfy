/**
  What the server, the disk and the caller have in store for one call of Download, and what the call
  comes to in that world when each goroutine runs to its end as soon as it is started.
 */
module Worlds {
  import opened Prelude
  import opened Storage
  import opened Chunking
  import opened Transfer
  import opened TransferContent
  import opened TransferRuns

  /** No answer or a refusing one; or an accepted one that delivers body and then ends, or breaks off
      (a read error, the timeout, a cancelled context). */
  datatype Response = Refused | Accepted(body: Bytes, ends: bool)

  /** The code learns each of these when it asks. */
  datatype World = World(
    early: bool,                      // a check before the download stage fails
    answer: (nat, nat) -> Response,   // to attempt k at chunk i
    room: (nat, nat) -> nat,          // how many bytes of it the disk takes
    opening: nat -> Opening,          // of the temporary file; for attempt k of a single download, else for 0
    syncs: nat -> bool,               // whether fsync succeeds, likewise
    readable: bool,                   // whether the temporary file can be read back
    renames: bool,
    cancels: bool                     // whether the caller will cancel at some time
  )

  /** The server of this world: it sends nothing but the bodies in store. */
  ghost function ServerOf(world: World): Server
  {
    (i: nat, body: Bytes) => exists k: nat :: world.answer(i, k).Accepted? && world.answer(i, k).body == body
  }

  ghost predicate Obeys(world: World, server: Server)
  {
    forall i, k :: world.answer(i, k).Accepted? ==> server(i, world.answer(i, k).body)
  }

  // ---- One chunk ----

  /** Attempt k at chunk i is accepted, delivers its body to the end, and the disk takes all of it;
      a chunk is as long as was asked for; a single download opens and syncs its file. */
  predicate GoesWell(p: Params, world: World, i: nat, k: nat)
    requires p.Valid() && i < |p.Chunks()|
  {
    var a := world.answer(i, k);
    && a.Accepted? && a.ends && |a.body| <= world.room(i, k)
    && (if p.Single() then world.opening(k).Opened? && world.syncs(k) else |a.body| == p.Chunks()[i].Size())
  }

  /** The first attempt from k on that goes well, if one does before they are used up. */
  function Luck(p: Params, world: World, i: nat, k: nat): (r: Option<nat>)
    requires p.Valid() && i < |p.Chunks()|
    ensures r.Some? ==> k <= r.value <= p.maxRetries && GoesWell(p, world, i, r.value)
    ensures r.Some? ==> forall j :: k <= j < r.value ==> !GoesWell(p, world, i, j)
    ensures r.None? ==> forall j :: k <= j <= p.maxRetries ==> !GoesWell(p, world, i, j)
    decreases p.maxRetries + 1 - k
  {
    if k > p.maxRetries then None
    else if GoesWell(p, world, i, k) then Some(k)
    else Luck(p, world, i, k + 1)
  }

  predicate Lucky(p: Params, world: World, i: nat)
    requires p.Valid() && i < |p.Chunks()|
  {
    Luck(p, world, i, 0).Some?
  }

  ghost predicate SomeGoesWell(p: Params, world: World, i: nat)
    requires p.Valid() && i < |p.Chunks()|
  {
    exists k: nat :: k <= p.maxRetries && GoesWell(p, world, i, k)
  }

  lemma LuckyExactly(p: Params, world: World, i: nat)
    requires p.Valid() && i < |p.Chunks()|
    ensures Lucky(p, world, i) <==> SomeGoesWell(p, world, i)
  {
  }

  /** The last attempt made at chunk i, which is how often it is retried. */
  function Last(p: Params, world: World, i: nat): nat
    requires p.Valid() && i < |p.Chunks()|
  {
    var r := Luck(p, world, i, 0);
    if r.Some? then r.value else p.maxRetries
  }

  function BodyOf(r: Response): Bytes { if r.Refused? then [] else r.body }

  /** What reaches the file of the body of attempt k. */
  function Taken(world: World, i: nat, k: nat): Bytes
  {
    var body := BodyOf(world.answer(i, k));
    body[..Min(|body|, world.room(i, k))]
  }

  /** The file f after n attempts at chunk i, which starts at off. */
  function ChunkLaid(world: World, f: Bytes, off: nat, i: nat, n: nat): Bytes
  {
    if n == 0 then f else Overlay(ChunkLaid(world, f, off, i, n - 1), off, Taken(world, i, n - 1))
  }

  /** Laid gives the file after so many attempts at chunk i. */
  ghost predicate Lays(world: World, laid: nat -> Bytes, off: nat, i: nat)
  {
    forall n: nat {:trigger Taken(world, i, n)} :: laid(n + 1) == Overlay(laid(n), off, Taken(world, i, n))
  }

  lemma ChunkLays(world: World, f: Bytes, off: nat, i: nat) returns (laid: nat -> Bytes)
    ensures laid(0) == f && Lays(world, laid, off, i)
  {
    laid := (n: nat) => ChunkLaid(world, f, off, i, n);
  }

  lemma {:induction false} LaysExactly(world: World, laid: nat -> Bytes, off: nat, i: nat, n: nat)
    requires Lays(world, laid, off, i)
    ensures laid(n) == ChunkLaid(world, laid(0), off, i, n)
  {
    if n > 0 {
      LaysExactly(world, laid, off, i, n - 1);
      assert laid(n - 1 + 1) == Overlay(laid(n - 1), off, Taken(world, i, n - 1));
    }
  }

  // ---- All chunks ----

  /** The end of the first i chunks. */
  function EndOf(p: Params, i: nat): int
    requires p.Valid() && i <= |p.Chunks()|
  {
    if i < |p.Chunks()| then p.Chunks()[i].start else p.total
  }

  /** The file after the first i chunks of a chunked download. */
  function Laid(p: Params, world: World, i: nat): Bytes
    requires p.Valid() && i <= |p.Chunks()|
  {
    if i == 0 then Zeros(p.total)
    else ChunkLaid(world, Laid(p, world, i - 1), p.Chunks()[i - 1].start, i - 1, Last(p, world, i - 1) + 1)
  }

  /** The first of the chunks from i on that uses up its attempts. */
  function Unlucky(p: Params, world: World, i: nat): (r: Option<nat>)
    requires p.Valid() && i <= |p.Chunks()|
    ensures r.Some? ==> i <= r.value < |p.Chunks()| && !Lucky(p, world, r.value)
    ensures r.Some? ==> forall j :: i <= j < r.value ==> Lucky(p, world, j)
    ensures r.None? ==> forall j :: i <= j < |p.Chunks()| ==> Lucky(p, world, j)
    decreases |p.Chunks()| - i
  {
    if i == |p.Chunks()| then None
    else if !Lucky(p, world, i) then Some(i)
    else Unlucky(p, world, i + 1)
  }

  /** How often the first i chunks are retried. */
  function Waits(p: Params, world: World, i: nat): nat
    requires p.Valid() && i <= |p.Chunks()|
  {
    if i == 0 then 0 else Waits(p, world, i - 1) + Last(p, world, i - 1)
  }

  // ---- The whole call ----

  /** The body a single download ends with. */
  function WholeBody(p: Params, world: World): Bytes
    requires p.Valid() && p.Single()
  {
    BodyOf(world.answer(0, Last(p, world, 0)))
  }

  /** What the temporary file holds when every chunk has come. */
  function Content(p: Params, world: World): Bytes
    requires p.Valid()
  {
    if p.Single() then Overlay(Zeros(p.total), 0, WholeBody(p, world)) else Laid(p, world, |p.Chunks()|)
  }

  /** The checksum and the rename. */
  function LastSteps(p: Params, world: World): Outcome
    requires p.Valid()
  {
    if p.verify && !(world.readable && p.md5(Content(p, world)) == p.etag) then Failed(ChecksumMismatch)
    else if !world.renames then Failed(RenameError)
    else Success(p.total, |p.Chunks()|, Waits(p, world, |p.Chunks()|), p.verify)
  }

  /** What the call returns, if the caller does not cancel. */
  function Verdict(p: Params, world: World): Outcome
    requires p.Valid()
  {
    if world.early then Failed(Early)
    else if !p.Single() && !world.opening(0).Opened? then Failed(OpenError)
    else if Unlucky(p, world, 0).Some? then Failed(ChunkError(Unlucky(p, world, 0).value))
    else if p.Single() then
      if |WholeBody(p, world)| != p.total then Failed(SizeMismatch) else LastSteps(p, world)
    else if !world.syncs(0) then Failed(SyncError)
    else LastSteps(p, world)
  }

  // ---- What that means ----

  /** Bytes the file takes of chunk i's attempts up to the one that goes well are the object's. */
  ghost predicate Truthful(p: Params, world: World, obj: Bytes, i: nat)
    requires p.Valid() && i < |p.Chunks()| && |obj| == p.total
  {
    Lucky(p, world, i) && forall k: nat :: k <= Last(p, world, i) ==> BodyOf(world.answer(i, k)) <= Slice(p, obj, i)
  }

  /** Attempts at chunk i leave what comes before it. */
  lemma {:induction false} ChunkLaidKeeps(p: Params, world: World, obj: Bytes, f: Bytes, i: nat, n: nat)
    requires p.Valid() && !p.Single() && i < |p.Chunks()| && |f| == |obj| == p.total && Truthful(p, world, obj, i)
    requires n <= Last(p, world, i) + 1 && Agree(f, obj, 0, p.Chunks()[i].start)
    ensures var g := ChunkLaid(world, f, p.Chunks()[i].start, i, n);
            |g| == p.total && Agree(g, obj, 0, p.Chunks()[i].start)
  {
    if n > 0 {
      ChunkInside(p, i);
      ChunkLaidKeeps(p, world, obj, f, i, n - 1);
      OverlayEffect(ChunkLaid(world, f, p.Chunks()[i].start, i, n - 1), p.Chunks()[i].start, Taken(world, i, n - 1));
    }
  }

  /** And the last of them lays the chunk. */
  lemma ChunkLaidWhole(p: Params, world: World, obj: Bytes, f: Bytes, i: nat)
    requires p.Valid() && !p.Single() && i < |p.Chunks()| && |f| == |obj| == p.total && Truthful(p, world, obj, i)
    requires Agree(f, obj, 0, p.Chunks()[i].start)
    ensures var g := ChunkLaid(world, f, p.Chunks()[i].start, i, Last(p, world, i) + 1);
            |g| == p.total && Agree(g, obj, 0, EndOf(p, i + 1))
  {
    var k := Last(p, world, i);
    ChunkInside(p, i);
    ChunkLaidKeeps(p, world, obj, f, i, k);
    assert Taken(world, i, k) == BodyOf(world.answer(i, k)) == Slice(p, obj, i);
    SliceLaid(p, obj, ChunkLaid(world, f, p.Chunks()[i].start, i, k), i);
    SplitShape(p.total, p.chunkSize, i);
  }

  lemma {:induction false} LaidAgrees(p: Params, world: World, obj: Bytes, i: nat)
    requires p.Valid() && !p.Single() && i <= |p.Chunks()| && |obj| == p.total
    requires forall j :: 0 <= j < i ==> Truthful(p, world, obj, j)
    ensures |Laid(p, world, i)| == p.total && Agree(Laid(p, world, i), obj, 0, EndOf(p, i))
  {
    CountBounds(p.total, p.chunkSize);
    if i == 0 {
      if |p.Chunks()| > 0 { SplitShape(p.total, p.chunkSize, 0); }
    } else {
      LaidAgrees(p, world, obj, i - 1);
      ChunkLaidWhole(p, world, obj, Laid(p, world, i - 1), i - 1);
    }
  }

  /** With truthful bodies the temporary file comes to hold the object. */
  lemma ContentIsObject(p: Params, world: World, obj: Bytes)
    requires p.Valid() && |obj| == p.total && forall i :: 0 <= i < |p.Chunks()| ==> Truthful(p, world, obj, i)
    requires p.Single() ==> |WholeBody(p, world)| == p.total
    ensures Content(p, world) == obj
  {
    if p.Single() {
      assert Truthful(p, world, obj, 0) && WholeBody(p, world) <= Slice(p, obj, 0) == obj;
      OverlayEffect(Zeros(p.total), 0, WholeBody(p, world));
      assert Content(p, world) == obj;
    } else {
      LaidAgrees(p, world, obj, |p.Chunks()|);
      assert Laid(p, world, |p.Chunks()|) == obj;
    }
  }

  /** The accepted answers are beginnings of what was asked for. */
  ghost predicate HonestWorld(p: Params, world: World, obj: Bytes)
    requires p.Valid() && |obj| == p.total
  {
    forall i: nat, k: nat :: i < |p.Chunks()| ==> BodyOf(world.answer(i, k)) <= Slice(p, obj, i)
  }

  /** In an honest world where nobody cancels the call succeeds if and only if: the checks pass; every
      chunk has an attempt that goes well (brings the whole object, if there is only one); the file
      opens and syncs; the object has the hash, if one is verified, and can be read back; and the
      rename works.  Then the object is published. */
  lemma SucceedsExactly(p: Params, world: World, obj: Bytes)
    requires p.Valid() && |obj| == p.total && HonestWorld(p, world, obj)
    ensures Verdict(p, world).Success? <==>
      && !world.early && world.renames
      && (forall i :: 0 <= i < |p.Chunks()| ==> SomeGoesWell(p, world, i))
      && (p.verify ==> world.readable && p.md5(obj) == p.etag)
      && (if p.Single() then WholeBody(p, world) == obj else world.opening(0).Opened? && world.syncs(0))
    ensures Verdict(p, world).Success? ==> Content(p, world) == obj
  {
    forall i | 0 <= i < |p.Chunks()| ensures Lucky(p, world, i) <==> SomeGoesWell(p, world, i) {
      LuckyExactly(p, world, i);
    }
    if forall i :: 0 <= i < |p.Chunks()| ==> Lucky(p, world, i) {
      forall i | 0 <= i < |p.Chunks()| ensures Truthful(p, world, obj, i) {
        assert Lucky(p, world, i);
      }
      if p.Single() { WholeIsObject(p, world, obj); }
      if !p.Single() || |WholeBody(p, world)| == p.total { ContentIsObject(p, world, obj); }
    }
  }

  lemma WholeIsObject(p: Params, world: World, obj: Bytes)
    requires p.Valid() && p.Single() && |obj| == p.total && HonestWorld(p, world, obj)
    ensures |WholeBody(p, world)| == p.total <==> WholeBody(p, world) == obj
  {
    assert Slice(p, obj, 0) == obj && WholeBody(p, world) <= Slice(p, obj, 0);
  }

  /** Nothing goes wrong: every first request is accepted with the whole slice asked for, the disk
      takes it, and no check, open, sync, read back or rename fails. */
  ghost predicate AllWell(p: Params, world: World, obj: Bytes)
    requires p.Valid() && |obj| == p.total
  {
    && !world.early && world.opening(0).Opened? && world.syncs(0) && world.readable && world.renames
    && (forall i :: 0 <= i < |p.Chunks()| ==>
          world.answer(i, 0) == Accepted(Slice(p, obj, i), true) && world.room(i, 0) >= |Slice(p, obj, i)|)
    && (p.verify ==> p.md5(obj) == p.etag)
  }

  lemma {:induction false} NoWaits(p: Params, world: World, i: nat)
    requires p.Valid() && i <= |p.Chunks()| && forall j :: 0 <= j < i ==> Luck(p, world, j, 0) == Some(0)
    ensures Waits(p, world, i) == 0
  {
    if i > 0 { NoWaits(p, world, i - 1); }
  }

  /** Then the call succeeds without a retry, and publishes the object. */
  lemma WellSucceeds(p: Params, world: World, obj: Bytes)
    requires p.Valid() && |obj| == p.total && AllWell(p, world, obj)
    ensures Verdict(p, world) == Success(p.total, |p.Chunks()|, 0, p.verify)
    ensures Content(p, world) == obj
  {
    forall i | 0 <= i < |p.Chunks()|
      ensures Luck(p, world, i, 0) == Some(0) && Truthful(p, world, obj, i)
    {
      ChunkInside(p, i);
    }
    NoWaits(p, world, |p.Chunks()|);
    if p.Single() { assert Slice(p, obj, 0) == obj; }
    ContentIsObject(p, world, obj);
  }
}
