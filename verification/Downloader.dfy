/**
  Download as the code writes it: the copy loop, the attempt, the retry loops, the goroutine of a
  chunk, the dispatcher and what comes after the wait (downloader/downloader.go).

  Each method moves a ghost state of the step system along with its own variables.  The contracts
  say that the code takes no step the system does not have, that files, counters and errors are at
  every return what the system's state says they are, and what each method comes to in the world
  it is called in: which attempts fail, what they leave in the file, and what is returned.
 */
module Downloader {
  import opened Prelude
  import opened Storage
  import opened Chunking
  import opened Transfer
  import opened TransferInvariants
  import opened TransferContent
  import opened Worlds
  import opened ETags

  // ---- Runs against a server that honours ranges ----

  lemma HonestHonours(p: Params, world: World, obj: Bytes)
    requires p.Valid() && |obj| == p.total && HonestWorld(p, world, obj)
    ensures Honours(p, ServerOf(world), obj)
  {
    forall i: nat, body: Bytes | i < |p.Chunks()| && ServerOf(world)(i, body) ensures body <= Slice(p, obj, i) {
      var k: nat :| world.answer(i, k).Accepted? && world.answer(i, k).body == body;
      assert BodyOf(world.answer(i, k)) == body;
    }
  }

  /** The server honours ranges: what it sends for a chunk is a prefix of the chunk. */
  ghost predicate Honours(p: Params, server: Server, obj: Bytes)
    requires p.Valid() && |obj| == p.total
  {
    forall i: nat, body: Bytes :: i < |p.Chunks()| && server(i, body) ==> body <= Slice(p, obj, i)
  }

  /** Against such a server the final path is right wherever the run has got to. */
  lemma RightContent(p: Params, server: Server, obj: Bytes, tmp: Option<Bytes>, dst: Option<Bytes>, s: State)
    requires p.Valid() && |obj| == p.total && Honours(p, server, obj)
    requires Leads(p, server, Init(p, tmp, dst), s)
    ensures s.dst == if Succeeded(s) then Some(obj) else dst
  {
    var ls :| Follows(p, Init(p, tmp, dst), ls) && After(p, Init(p, tmp, dst), ls) == s && AllAnswers(server, ls);
    forall n | 0 <= n < |ls| ensures HonestLabel(p, obj, ls[n]) {
      assert Answers(server, ls[n]);
    }
    EndToEnd(p, obj, tmp, dst, ls);
  }

  lemma HonestContent(p: Params, world: World, tmp: Option<Bytes>, dst: Option<Bytes>, s: State)
    requires p.Valid() && Leads(p, ServerOf(world), Init(p, tmp, dst), s)
    ensures forall obj: Bytes :: |obj| == p.total && HonestWorld(p, world, obj) ==>
        s.dst == if Succeeded(s) then Some(obj) else dst
  {
    forall obj: Bytes | |obj| == p.total && HonestWorld(p, world, obj)
      ensures s.dst == if Succeeded(s) then Some(obj) else dst
    {
      HonestHonours(p, world, obj);
      RightContent(p, ServerOf(world), obj, tmp, dst, s);
    }
  }

  lemma AllWellSucceed(p: Params, world: World)
    requires p.Valid()
    ensures forall obj: Bytes :: |obj| == p.total && AllWell(p, world, obj) ==>
        Verdict(p, world) == Success(p.total, |p.Chunks()|, 0, p.verify) && Content(p, world) == obj
  {
    forall obj: Bytes | |obj| == p.total && AllWell(p, world, obj)
      ensures Verdict(p, world) == Success(p.total, |p.Chunks()|, 0, p.verify) && Content(p, world) == obj
    {
      WellSucceeds(p, world, obj);
    }
  }

  /** The first i chunks have come, each after as many attempts as it takes; or the first that could not
      come is kept as the error and has cancelled the others. */
  ghost predicate SoFar(p: Params, world: World, i: nat, written: int, retries: int, firstErr: Option<nat>, done: bool,
      bytes: Bytes)
    requires p.Valid() && i <= |p.Chunks()|
  {
    if firstErr.None? then
      && written == EndOf(p, i) && retries == Waits(p, world, i) && bytes == Laid(p, world, i)
      && (forall j :: 0 <= j < i ==> Lucky(p, world, j)) && (done ==> world.cancels)
    else
      && done && firstErr.value < |p.Chunks()|
      && (world.cancels ||
          (!Lucky(p, world, firstErr.value) && forall j :: 0 <= j < firstErr.value ==> Lucky(p, world, j)))
  }

  /** Chunk i has been handled: it came, or failed for want of luck or because of a cancel. */
  ghost predicate HandledAs(p: Params, world: World, i: nat, ok: bool, retries: int, laid: nat -> Bytes, retries1: int,
      bytes1: Bytes)
    requires p.Valid() && i < |p.Chunks()|
  {
    && (if ok then Lucky(p, world, i) else (!Lucky(p, world, i) || world.cancels))
    && (ok || !world.cancels ==>
          retries1 == retries + Last(p, world, i) && bytes1 == laid(Last(p, world, i) + 1))
  }

  lemma SoFarNext(p: Params, world: World, i: nat, written: int, retries: int, bytes: Bytes, laid: nat -> Bytes,
          ok: bool, done: bool, retries1: int, bytes1: Bytes)
    requires p.Valid() && !p.Single() && i < |p.Chunks()| && SoFar(p, world, i, written, retries, None, false, bytes)
    requires laid(0) == bytes && Lays(world, laid, p.Chunks()[i].start, i)
    requires HandledAs(p, world, i, ok, retries, laid, retries1, bytes1) && (!ok ==> done)
    requires ok && done ==> world.cancels
    ensures SoFar(p, world, i + 1, written + (if ok then p.Chunks()[i].Size() else 0), retries1,
                  if ok then None else Some(i), done, bytes1)
  {
    SplitShape(p.total, p.chunkSize, i);
    LaysExactly(world, laid, p.Chunks()[i].start, i, Last(p, world, i) + 1);
  }

  /** Where the dispatcher stopped decides what the chunks came to. */
  lemma SoFarEnds(p: Params, world: World, i: nat, written: int, retries: int, firstErr: Option<nat>, done: bool,
          bytes: Bytes)
    requires p.Valid() && !p.Single() && i <= |p.Chunks()| && (i < |p.Chunks()| ==> done)
    requires SoFar(p, world, i, written, retries, firstErr, done, bytes)
    ensures !world.cancels ==> firstErr == Unlucky(p, world, 0) && (firstErr.None? ==> written == p.total)
    ensures firstErr.None? && written == p.total ==>
        Unlucky(p, world, 0).None? && bytes == Content(p, world) && retries == Waits(p, world, |p.Chunks()|)
  {
    if i < |p.Chunks()| { SplitShape(p.total, p.chunkSize, i); }
  }

  /** The variables of one call of Download, those its goroutines share included. */
  class Session {
    const p: Params
    const etag: string          // as HEAD gave it
    const skipChecksum: bool
    const world: World
    ghost const server: Server
    const file: File            // what the temporary path holds, when it is there
    var there: bool
    var dst: Option<Bytes>      // what the final path holds
    var counter: int
    var retryCounter: int
    var totalWritten: int
    var firstErr: Option<nat>
    var done: bool              // the context is cancelled
    var slots: int
    ghost const origin: State   // where the step system stood when the call began
    ghost const possible: State -> bool   // the states some run leads to from there
    ghost var s: State          // where it stands

    constructor (p: Params, etag: string, skipChecksum: bool, world: World, f: File, there: bool, dst: Option<Bytes>)
      requires p.Valid()
      ensures Valid() && this.p == p && this.etag == etag && this.skipChecksum == skipChecksum
      ensures server == ServerOf(world) && this.world == world && file == f && this.there == there && this.dst == dst
      ensures origin == s == Init(p, if there then Some(f.bytes) else None, dst)
    {
      this.p, this.etag, this.skipChecksum, this.world, server := p, etag, skipChecksum, world, ServerOf(world);
      file, this.there, this.dst := f, there, dst;
      counter, retryCounter, totalWritten, slots := 0, 0, 0, 0;
      firstErr, done := None, false;
      ghost var start := Init(p, if there then Some(f.bytes) else None, dst);
      origin, s := start, start;
      possible := t => Leads(p, ServerOf(world), start, t);
      LeadsSelf(p, ServerOf(world), start);
    }

    /** Whether there is a checksum to verify, and which. */
    ghost predicate Decides()
      reads {}
    {
      p.verify == (!skipChecksum && Simple(etag)) && (p.verify ==> p.etag == ToLower(Unquote(etag)))
    }

    function Tmp(): Option<Bytes>
      reads this, file
    {
      if there then Some(file.bytes) else None
    }

    /** Some run leads from the origin to where the system stands. */
    ghost predicate Reached()
      requires p.Valid()
      reads this`s
    {
      possible(s) && forall t {:trigger Leads(p, server, origin, t)} :: possible(t) <==> Leads(p, server, origin, t)
    }

    ghost predicate Valid()
      reads this, file
    {
      && p.Valid() && Reached() && |s.ws| == |p.Chunks()|
      && s.tmp == Tmp() && s.dst == dst && s.counter == counter && s.retries == retryCounter
      && s.totalWritten == totalWritten && s.firstErr == firstErr && s.cancelled == done
      && (!p.Single() ==> s.slots == slots)
      && (s.outside ==> s.cancelled && world.cancels) && Obeys(world, server)
    }

    ghost predicate Running()
      reads this, file
    {
      Valid() && !s.Over()
    }

    /** Of the shared state only the goroutine's own entry, the file and the counter moved. */
    twostate predicate Copied(i: nat)
      reads this
    {
      && i < |old(s).ws| == |s.ws|
      && s == old(s).(ws := old(s).ws[i := s.ws[i]], tmp := s.tmp, counter := s.counter)
      && s.ws[i].gets == old(s).ws[i].gets && s.ws[i].naps == old(s).ws[i].naps
    }

    /** What a goroutine leaves alone until it has returned: the main goroutine's variables, the
        sums, and every other entry. */
    twostate predicate Mine(i: nat)
      reads this
    {
      && i < |old(s).ws| == |s.ws| && s.ws == old(s).ws[i := s.ws[i]]
      && s.phase == old(s).phase && s.next == old(s).next && s.dst == old(s).dst && s.slots == old(s).slots
      && s.totalWritten == old(s).totalWritten && s.firstErr == old(s).firstErr
    }

    /** The goroutine of chunk i failed in attempt k, which had noted the counter at pre. */
    ghost predicate Failing(i: nat, k: nat, pre: int)
      reads this
    {
      i < |s.ws| && s.ws[i].pc.Rolling? && s.ws[i].pc.k == k && s.ws[i].pc.pre == pre
    }

    /** The code, and the system, take one step. */
    ghost method Take(l: Label)
      requires p.Valid() && Reached() && Enabled(p, s, l) && Answers(server, l)
      modifies this`s
      ensures s == Next(p, old(s), l) && Reached()
    {
      assert Leads(p, server, origin, s);
      LeadsNext(p, server, origin, s, l);
      s := Next(p, s, l);
    }

    // ---- One request ----

    /** ctx.Err: the caller may cancel at any time. */
    method Err() returns (e: bool)
      requires Running()
      modifies this`done, this`s
      ensures Running() && e == done && (old(done) ==> done) && (done != old(done) ==> world.cancels)
      ensures s == old(s).(cancelled := s.cancelled, outside := s.outside)
    {
      if world.cancels && !done {
        if * {
          Take(Cancel);
          done := true;
        }
      }
      e := done;
    }

    /** countingReader.Read: up to a buffer of what is left of the body, counted as it is read. */
    method CountingRead(i: nat, rest: Bytes) returns (n: nat)
      requires Running() && i < |s.ws| && s.ws[i].pc.Copying? && s.ws[i].pc.rest == rest != []
      modifies this`counter, this`s
      ensures Running() && 1 <= n <= |rest| && n <= BUFFER && counter == old(counter) + n
      ensures s == Next(p, old(s), Work(i, Read(n)))
    {
      n :| 1 <= n <= |rest| && n <= BUFFER;
      counter := counter + n;
      Take(Work(i, Act.Read(n)));
    }

    /** The buffer that was read goes to the section of the file, or as much of it as the disk takes. */
    method WriteOut(i: nat, sw: SectionWriter, buf: Bytes, ghost rest: Bytes, ghost k: nat, ghost pre: int)
      returns (n: nat, err: bool)
      requires Running() && there && sw.Valid() && sw.file == file && i < |s.ws|
      requires s.ws[i].pc == Holding(k, pre, sw.offset, buf, rest)
      modifies this`s, file, sw`offset, sw`data
      ensures Running() && Copied(i) && s.counter == old(s).counter && sw.Valid()
      ensures n == Min(|buf|, old(file.room)) && file.room == old(file.room) - n && (err <==> n < |buf|)
      ensures sw.data == old(sw.data) + buf[..n] && sw.offset == old(sw.offset) + n
      ensures old(file.bytes == Overlay(sw.base, sw.initOff, sw.data)) ==>
          file.bytes == Overlay(sw.base, sw.initOff, sw.data)
      ensures err ==> Failing(i, k, pre)
      ensures !err ==> s.ws[i].pc == Copying(k, pre, sw.offset, rest)
    {
      n, err := sw.Write(buf);
      Take(Work(i, Act.Write(n)));
    }

    /** One round of io.CopyBuffer: read a buffer, write it. */
    method CopyOnce(i: nat, sw: SectionWriter, rest: Bytes, ghost k: nat, ghost pre: int) returns (n: nat, err: bool)
      requires Running() && there && sw.Valid() && sw.file == file && i < |s.ws| && rest != []
      requires s.ws[i].pc == Copying(k, pre, sw.offset, rest)
      modifies this`counter, this`s, file, sw`offset, sw`data
      ensures Running() && Copied(i) && sw.Valid()
      ensures n <= |rest| && sw.data == old(sw.data) + rest[..n] && sw.offset == old(sw.offset) + n
      ensures old(file.bytes == Overlay(sw.base, sw.initOff, sw.data)) ==>
          file.bytes == Overlay(sw.base, sw.initOff, sw.data)
      ensures n <= old(file.room) && file.room == old(file.room) - n
      ensures err ==> n == old(file.room) < |rest| && counter >= old(counter) && Failing(i, k, pre)
      ensures !err ==> n >= 1 && counter == old(counter) + n && s.ws[i].pc == Copying(k, pre, sw.offset, rest[n..])
    {
      var m := CountingRead(i, rest);
      n, err := WriteOut(i, sw, rest[..m], rest[m..], k, pre);
      assert rest[..m][..n] == rest[..n];
    }

    /** Any other end of the copy: a read error, the timeout, a cancelled context, a failed fsync. */
    ghost method BreakOff(i: nat)
      requires Running() && i < |s.ws| && s.ws[i].pc.Copying?
      modifies this`s
      ensures Running() && Copied(i) && Failing(i, old(s).ws[i].pc.k, old(s).ws[i].pc.pre)
      ensures s.counter == old(s).counter
    {
      Take(Work(i, Break));
    }

    static lemma Consumed(data: Bytes, rest: Bytes, m: nat, body: Bytes)
      requires data + rest == body && m <= |rest|
      ensures (data + rest[..m]) + rest[m..] == body && data + rest[..m] == body[..|data| + m]
    {
    }

    /** io.CopyBuffer from the body to the file, from the writer's place on.  What is copied is as much
        of the body as the disk takes; the copy fails if that is not all, or the body broke off. */
    method CopyBuffer(i: nat, sw: SectionWriter, body: Bytes, ends: bool, ghost k: nat, ghost pre: int)
      returns (n: int, err: bool)
      requires Running() && there && sw.Valid() && sw.file == file && i < |s.ws|
      requires sw.data == [] && sw.base == file.bytes && s.ws[i].pc == Copying(k, pre, sw.offset, body)
      modifies this`counter, this`s, file, sw`offset, sw`data
      ensures Running() && Copied(i) && sw.Valid()
      ensures n == |sw.data| && sw.data == body[..Min(|body|, old(file.room))]
      ensures file.bytes == Overlay(sw.base, sw.initOff, sw.data)
      ensures err <==> !ends || |body| > old(file.room)
      ensures err ==> Failing(i, k, pre) && counter >= old(counter)
      ensures !err ==> s.ws[i].pc == Copying(k, pre, sw.offset, []) && counter == old(counter) + n
    {
      var rest := body;
      n, err := 0, false;
      while rest != []
        invariant Running() && sw.Valid() && Copied(i)
        invariant n == |sw.data| <= old(file.room) && sw.data + rest == body && sw.data == body[..n]
        invariant file.room == old(file.room) - n && counter == old(counter) + n
        invariant file.bytes == Overlay(sw.base, sw.initOff, sw.data)
        invariant s.ws[i].pc == Copying(k, pre, sw.offset, rest)
        decreases |rest|
      {
        ghost var data := sw.data;
        var m;
        m, err := CopyOnce(i, sw, rest, k, pre);
        Consumed(data, rest, m, body);
        n, rest := n + m, rest[m..];
        if err {
          return n, true;
        }
      }
      if !ends {
        BreakOff(i);
        return n, true;
      }
    }

    /** client.Do: no answer or a refusing one, or an accepted response with some body.  From here on the
        disk has the room it has for this attempt. */
    method Do(i: nat, attempt: nat) returns (resp: Response)
      requires Obeys(world, server)
      modifies file`room
      ensures resp == world.answer(i, attempt) && file.room == world.room(i, attempt)
      ensures resp.Accepted? ==> server(i, resp.body)
    {
      resp := world.answer(i, attempt);
      file.room := world.room(i, attempt);
    }

    /** The body has ended: a chunk counts if it brought exactly what was asked, a whole object in any case. */
    ghost method Finish(i: nat, n: int)
      requires Running() && i < |s.ws| && s.ws[i].pc.Copying? && s.ws[i].pc.rest == []
      requires n == s.ws[i].pc.off - p.Chunks()[i].start
      modifies this`s
      ensures Running() && Copied(i) && s.counter == old(s).counter
      ensures p.Single() || n == p.Chunks()[i].Size() ==> s.ws[i].pc == Returning(true, n)
      ensures !p.Single() && n != p.Chunks()[i].Size() ==> Failing(i, old(s).ws[i].pc.k, old(s).ws[i].pc.pre)
    {
      Take(Work(i, End));
    }

    /** The copy of the body into the chunk's section, and the comparison with the size asked for. */
    method CopyChunk(i: nat, c: Chunk, body: Bytes, ends: bool, ghost k: nat, ghost pre: int)
      returns (n: int, err: bool)
      requires Running() && there && !p.Single() && i < |s.ws| && c == p.Chunks()[i]
      requires s.ws[i].pc == Copying(k, pre, c.start, body)
      modifies this`counter, this`s, file
      ensures Running() && Copied(i)
      ensures file.bytes == Overlay(old(file.bytes), c.start, body[..Min(|body|, old(file.room))])
      ensures err <==> !ends || |body| > old(file.room) || |body| != c.Size()
      ensures err ==> Failing(i, k, pre) && counter >= old(counter)
      ensures !err ==> s.ws[i].pc == Returning(true, n) && n == c.Size() && counter == old(counter) + n
    {
      var expectedSize := c.end - c.start + 1;
      var sw := new SectionWriter(file, c.start);
      n, err := CopyBuffer(i, sw, body, ends, k, pre);
      if !err {
        Finish(i, n);
        if n != expectedSize {
          err := true;
        }
      }
    }

    /** downloadChunk: one attempt at one byte range, which fails exactly if it does not go well. */
    method DownloadChunk(i: nat, c: Chunk, attempt: nat, ghost pre: int) returns (n: int, err: bool)
      requires Running() && there && !p.Single() && i < |s.ws| && c == p.Chunks()[i]
      requires s.ws[i].pc == Connecting(attempt, pre)
      modifies this`counter, this`s, file
      ensures Running() && Copied(i)
      ensures file.bytes == Overlay(old(file.bytes), c.start, Taken(world, i, attempt))
      ensures err <==> !GoesWell(p, world, i, attempt)
      ensures err ==> Failing(i, attempt, pre) && counter >= old(counter)
      ensures !err ==> s.ws[i].pc == Returning(true, n) && n == c.Size() && counter == old(counter) + n
    {
      var resp := Do(i, attempt);
      if resp.Refused? {
        Take(Work(i, Refuse));
        return 0, true;
      }
      Take(Work(i, Accept(resp.body)));
      n, err := CopyChunk(i, c, resp.body, resp.ends, attempt, pre);
    }

    /** The system's step when a single download has made its file. */
    ghost method MadeFile(body: Bytes, attempt: nat, pre: int)
      requires p.Valid() && Reached() && !s.Over() && p.Single() && |s.ws| == 1
      requires s.ws[0].pc == Connecting(attempt, pre) && server(0, body)
      modifies this`s
      ensures Reached()
      ensures s == old(s).(ws := old(s).ws[0 := old(s).ws[0].(pc := Copying(attempt, pre, 0, body))],
                           tmp := Some(Zeros(p.total)))
    {
      Take(Work(0, Accept(body)));
    }

    /** And when it could not. */
    ghost method NoFile(made: bool, attempt: nat, pre: int)
      requires p.Valid() && Reached() && !s.Over() && p.Single() && |s.ws| == 1
      requires s.ws[0].pc == Connecting(attempt, pre)
      modifies this`s
      ensures Reached()
      ensures s == old(s).(ws := old(s).ws[0 := old(s).ws[0].(pc := Rolling(attempt, pre, 0))],
                           tmp := if made then Some([]) else old(s).tmp)
    {
      Take(Work(0, OpenFail(made)));
    }

    /** A response is there and the temporary file is made anew, or cannot be. */
    method OpenSingle(body: Bytes, attempt: nat, ghost pre: int) returns (err: bool)
      requires Running() && p.Single() && |s.ws| == 1 && s.ws[0].pc == Connecting(attempt, pre) && server(0, body)
      modifies this`s, this`there, file`bytes
      ensures Running() && Copied(0) && s.counter == old(s).counter
      ensures err == !world.opening(attempt).Opened?
      ensures err ==> Failing(0, attempt, pre)
      ensures !err ==> there && file.bytes == Zeros(p.total) && s.ws[0].pc == Copying(attempt, pre, 0, body)
    {
      var made;
      made, err := PreallocateFile(file, p.total, world.opening(attempt));
      there := there || made;
      if err {
        NoFile(made, attempt, pre);
      } else {
        MadeFile(body, attempt, pre);
      }
    }

    /** The copy of the whole body into the new file, and the fsync. */
    method CopySingle(body: Bytes, ends: bool, attempt: nat, ghost pre: int) returns (n: int, err: bool)
      requires Running() && there && p.Single() && |s.ws| == 1 && s.ws[0].pc == Copying(attempt, pre, 0, body)
      modifies this`counter, this`s, file
      ensures Running() && Copied(0)
      ensures file.bytes == Overlay(old(file.bytes), 0, body[..Min(|body|, old(file.room))])
      ensures err <==> !ends || |body| > old(file.room) || !world.syncs(attempt)
      ensures err ==> Failing(0, attempt, pre) && counter >= old(counter)
      ensures !err ==> s.ws[0].pc == Returning(true, n) && n == |body| && counter == old(counter) + n
    {
      var out := new SectionWriter(file, 0);
      n, err := CopyBuffer(0, out, body, ends, attempt, pre);
      if !err {
        if !world.syncs(attempt) {
          BreakOff(0);
          return n, true;
        }
        Finish(0, n);
      }
    }

    /** The file is new and holds the n bytes of the body that attempt brought. */
    ghost predicate Fetched(attempt: nat, n: int)
      reads this, file
    {
      var body := BodyOf(world.answer(0, attempt));
      there && file.bytes == Overlay(Zeros(p.total), 0, body) && n == |body|
    }

    /** downloadSingle: one attempt at the whole object, which fails exactly if it does not go well. */
    method DownloadSingle(attempt: nat, ghost pre: int) returns (n: int, err: bool)
      requires Running() && p.Single() && |s.ws| == 1 && s.ws[0].pc == Connecting(attempt, pre)
      modifies this`counter, this`s, this`there, file
      ensures Running() && Copied(0)
      ensures err <==> !GoesWell(p, world, 0, attempt)
      ensures err ==> Failing(0, attempt, pre) && counter >= old(counter)
      ensures !err ==> Fetched(attempt, n) && s.ws[0].pc == Returning(true, n) && counter == old(counter) + n
    {
      var resp := Do(0, attempt);
      if resp.Refused? {
        Take(Work(0, Refuse));
        return 0, true;
      }
      err := OpenSingle(resp.body, attempt, pre);
      if err {
        return 0, true;
      }
      n, err := CopySingle(resp.body, resp.ends, attempt, pre);
    }

    // ---- The retry loops ----

    /** After a failed attempt, take off what the counter gained since it was noted. */
    method RollBack(i: nat, preAttemptCounter: int, ghost attempt: nat)
      requires Running() && Failing(i, attempt, preAttemptCounter)
      modifies this`counter, this`s
      ensures Running() && Copied(i) && s.ws[i].pc == Deciding(attempt)
      ensures counter == old(counter) - Max(0, old(counter) - preAttemptCounter)
    {
      var partialBytes := counter - preAttemptCounter;
      Take(Work(i, Load));
      if partialBytes > 0 {
        counter := counter - partialBytes;
      }
      Take(Work(i, Subtract));
    }

    /** The body of the retry loop: note the counter, try, and roll back after a failure.  A failed
        attempt leaves the counter as it was. */
    method Attempt(i: nat, c: Chunk, attempt: nat) returns (err: bool)
      requires Running() && there && !p.Single() && i < |s.ws| && c == p.Chunks()[i] && s.ws[i].pc == Ready(attempt)
      modifies this`counter, this`s, file
      ensures Running() && Mine(i) && s.cancelled == old(s).cancelled
      ensures err <==> !GoesWell(p, world, i, attempt)
      ensures file.bytes == Overlay(old(file.bytes), c.start, Taken(world, i, attempt))
      ensures counter == old(counter) + (if err then 0 else c.Size())
      ensures s.ws[i].pc == if err then Deciding(attempt) else Returning(true, c.Size())
    {
      var preAttemptCounter := counter;
      Take(Work(i, Begin));
      var n;
      n, err := DownloadChunk(i, c, attempt, preAttemptCounter);
      if err {
        RollBack(i, preAttemptCounter, attempt);
      }
    }

    /** The same for the whole object. */
    method AttemptSingle(attempt: nat) returns (n: int, err: bool)
      requires Running() && p.Single() && |s.ws| == 1 && s.ws[0].pc == Ready(attempt)
      modifies this`counter, this`s, this`there, file
      ensures Running() && Mine(0) && s.cancelled == old(s).cancelled
      ensures err <==> !GoesWell(p, world, 0, attempt)
      ensures !err ==> Fetched(attempt, n)
      ensures counter == old(counter) + (if err then 0 else n)
      ensures s.ws[0].pc == if err then Deciding(attempt) else Returning(true, n)
    {
      var preAttemptCounter := counter;
      Take(Work(0, Begin));
      n, err := DownloadSingle(attempt, preAttemptCounter);
      if err {
        RollBack(0, preAttemptCounter, attempt);
      }
    }

    /** No more attempts: the context is done, or they are used up. */
    ghost method GiveUp(i: nat, attempt: nat)
      requires Running() && i < |s.ws| && s.ws[i].pc == Deciding(attempt) && (done || attempt >= p.maxRetries)
      modifies this`s
      ensures Running() && Mine(i) && s.ws[i].pc == Returning(false, 0)
    {
      Take(Work(i, Decide));
    }

    /** Another attempt: the counter of retries goes up with the step. */
    method CountRetry(i: nat, attempt: nat)
      requires Running() && i < |s.ws| && 1 <= attempt <= p.maxRetries && s.ws[i].pc == Deciding(attempt - 1) && !done
      modifies this`retryCounter, this`s
      ensures Running() && Mine(i) && retryCounter == old(retryCounter) + 1 && s.ws[i].pc == Sleeping(attempt)
    {
      retryCounter := retryCounter + 1;
      Take(Work(i, Decide));
    }

    /** Before attempt number attempt: count the retry and wait, unless the context ends first. */
    method BackOff(i: nat, attempt: nat) returns (stop: bool)
      requires Running() && i < |s.ws| && 1 <= attempt <= p.maxRetries && s.ws[i].pc == Deciding(attempt - 1) && !done
      modifies this`retryCounter, this`done, this`s
      ensures Running() && Mine(i) && retryCounter == old(retryCounter) + 1
      ensures s.ws[i].pc == if stop then Returning(false, 0) else Sleeping(attempt)
      ensures (stop ==> done) && (done ==> world.cancels)
    {
      CountRetry(i, attempt);
      stop := false;
      var over := Err();
      if over {
        if * {
          Take(Work(i, Abort));
          stop := true;
        }
      }
    }

    /** The pause is over.  The retries of a single download start by removing the temporary file. */
    method WakeUp(i: nat, attempt: nat)
      requires Running() && i < |s.ws| && s.ws[i].pc == Sleeping(attempt)
      modifies this`there, this`s
      ensures Running() && Mine(i) && s.ws[i].pc == Ready(attempt) && s.cancelled == old(s).cancelled
      ensures there == (!p.Single() && old(there))
    {
      if p.Single() {
        there := false;
      }
      Take(Work(i, Wake));
    }

    /** The head of the retry loop: every attempt but the first waits. */
    method Prepare(i: nat, attempt: nat) returns (stop: bool)
      requires Running() && i < |s.ws| && attempt <= p.maxRetries && (attempt > 0 ==> !done)
      requires s.ws[i].pc == if attempt == 0 then Ready(0) else Deciding(attempt - 1)
      modifies this`retryCounter, this`done, this`there, this`s
      ensures Running() && Mine(i) && (!p.Single() ==> there == old(there))
      ensures retryCounter == old(retryCounter) + (if attempt == 0 then 0 else 1)
      ensures s.ws[i].pc == if stop then Returning(false, 0) else Ready(attempt)
      ensures (stop ==> done) && (done != old(done) ==> world.cancels)
    {
      stop := false;
      if attempt > 0 {
        stop := BackOff(i, attempt);
        if !stop {
          WakeUp(i, attempt);
        }
      }
    }

    /** The foot of the retry loop: a cancelled context ends it. */
    method StopsRetrying(i: nat, attempt: nat) returns (stop: bool)
      requires Running() && i < |s.ws| && s.ws[i].pc == Deciding(attempt)
      modifies this`done, this`s
      ensures Running() && Mine(i) && stop == done && (done != old(done) ==> world.cancels)
      ensures s.ws[i].pc == if stop then Returning(false, 0) else Deciding(attempt)
    {
      stop := Err();
      if stop {
        GiveUp(i, attempt);
      }
    }

    /** The goroutine of chunk i is at the head of the retry loop, before this attempt. */
    ghost predicate Trying(i: nat, attempt: nat)
      reads this, file
    {
      && Running() && i < |s.ws| && attempt <= p.maxRetries + 1 && (attempt > 0 ==> !done)
      && s.ws[i].pc == if attempt == 0 then Ready(0) else Deciding(attempt - 1)
    }

    /** The body of the retry loop.  It stops after an attempt that goes well or on a done context. */
    method TryChunk(i: nat, c: Chunk, attempt: nat, ghost laid: nat -> Bytes)
      returns (stop: bool, err: bool)
      requires Trying(i, attempt) && attempt <= p.maxRetries && there && !p.Single() && c == p.Chunks()[i]
      requires Lays(world, laid, c.start, i) && file.bytes == laid(attempt) && AllFailed(i, attempt)
      modifies this`counter, this`retryCounter, this`done, this`there, this`s, file
      ensures Running() && there && Mine(i) && (done != old(done) ==> world.cancels)
      ensures stop && err ==> done && s.ws[i].pc == Returning(false, 0)
      ensures stop && !err ==> Tried(i, false, attempt + 1) && s.ws[i].pc == Returning(true, c.Size())
      ensures !stop ==> err && AllFailed(i, attempt + 1) && Trying(i, attempt + 1)
      ensures !(stop && err) ==> file.bytes == laid(attempt + 1)
      ensures !(stop && err) ==> retryCounter == old(retryCounter) + (if attempt == 0 then 0 else 1)
      ensures counter == old(counter) + (if err then 0 else c.Size())
    {
      stop := Prepare(i, attempt);
      if stop {
        return true, true;
      }
      err := Attempt(i, c, attempt);
      if !err {
        return true, false;
      }
      stop := StopsRetrying(i, attempt);
    }

    /** The same for the whole object. */
    method TrySingle(attempt: nat) returns (stop: bool, n: int, err: bool)
      requires Trying(0, attempt) && attempt <= p.maxRetries && p.Single() && AllFailed(0, attempt)
      modifies this`counter, this`retryCounter, this`done, this`there, this`s, file
      ensures Running() && Mine(0) && (done != old(done) ==> world.cancels)
      ensures stop && err ==> done && s.ws[0].pc == Returning(false, 0)
      ensures stop && !err ==> Tried(0, false, attempt + 1) && s.ws[0].pc == Returning(true, n)
      ensures !err ==> Fetched(attempt, n)
      ensures !stop ==> err && AllFailed(0, attempt + 1) && Trying(0, attempt + 1)
      ensures !(stop && err) ==> retryCounter == old(retryCounter) + (if attempt == 0 then 0 else 1)
      ensures counter == old(counter) + (if err then 0 else n)
    {
      n := 0;
      stop := Prepare(0, attempt);
      if stop {
        return true, 0, true;
      }
      n, err := AttemptSingle(attempt);
      if !err {
        return true, n, false;
      }
      stop := StopsRetrying(0, attempt);
    }

    /** How the retry loop of chunk i ended after so many attempts: with one that went well after others
        that did not, or with no attempt left. */
    ghost predicate Tried(i: nat, err: bool, tries: nat)
      requires p.Valid() && i < |p.Chunks()|
      reads {}
    {
      && 1 <= tries <= p.maxRetries + 1 && (err ==> tries == p.maxRetries + 1)
      && err == !GoesWell(p, world, i, tries - 1) && AllFailed(i, tries - 1)
    }

    ghost predicate AllFailed(i: nat, n: nat)
      requires p.Valid() && i < |p.Chunks()|
      reads {}
    {
      forall j :: 0 <= j < n ==> !GoesWell(p, world, i, j)
    }

    /** downloadChunkWithRetry: the attempts at one byte range, with a growing pause between them, until
        one goes well, they are used up or the context is done.  laid says what the file comes to hold. */
    method DownloadChunkWithRetry(i: nat, c: Chunk, ghost laid: nat -> Bytes)
      returns (n: int, err: bool, ghost tries: nat)
      requires Running() && there && !p.Single() && i < |s.ws| && c == p.Chunks()[i] && s.ws[i].pc == Ready(0)
      requires laid(0) == file.bytes && Lays(world, laid, c.start, i)
      modifies this`counter, this`retryCounter, this`done, this`there, this`s, file
      ensures Running() && there && Mine(i) && (done != old(done) ==> world.cancels)
      ensures s.ws[i].pc == if err then Returning(false, 0) else Returning(true, n)
      ensures !err || !done ==> Tried(i, err, tries)
      ensures !err || !done ==> retryCounter == old(retryCounter) + tries - 1
      ensures !err || !done ==> file.bytes == laid(tries)
      ensures counter == old(counter) + (if err then 0 else n) && (!err ==> n == c.Size())
    {
      var attempt := 0;
      while attempt <= p.maxRetries
        invariant 0 <= attempt <= p.maxRetries + 1 && Trying(i, attempt) && there && Mine(i)
        invariant counter == old(counter) && (done != old(done) ==> world.cancels)
        invariant retryCounter == old(retryCounter) + (if attempt == 0 then 0 else attempt - 1)
        invariant AllFailed(i, attempt)
        invariant file.bytes == laid(attempt)
        decreases p.maxRetries - attempt
      {
        var stop;
        stop, err := TryChunk(i, c, attempt, laid);
        if stop {
          return if err then 0 else c.Size(), err, attempt + 1;
        }
        attempt := attempt + 1;
      }
      GiveUp(i, p.maxRetries);
      return 0, true, p.maxRetries + 1;
    }

    /** downloadSingleWithRetry. */
    method DownloadSingleWithRetry() returns (n: int, err: bool, ghost tries: nat)
      requires Running() && p.Single() && |s.ws| == 1 && s.ws[0].pc == Ready(0)
      modifies this`counter, this`retryCounter, this`done, this`there, this`s, file
      ensures Running() && Mine(0) && (done != old(done) ==> world.cancels)
      ensures s.ws[0].pc == if err then Returning(false, 0) else Returning(true, n)
      ensures !err || !done ==> Tried(0, err, tries) && retryCounter == old(retryCounter) + tries - 1
      ensures !err ==> tries >= 1 && Fetched(tries - 1, n)
      ensures counter == old(counter) + (if err then 0 else n)
    {
      var attempt := 0;
      while attempt <= p.maxRetries
        invariant 0 <= attempt <= p.maxRetries + 1 && Trying(0, attempt) && Mine(0)
        invariant counter == old(counter) && (done != old(done) ==> world.cancels)
        invariant retryCounter == old(retryCounter) + (if attempt == 0 then 0 else attempt - 1)
        invariant AllFailed(0, attempt)
        decreases p.maxRetries - attempt
      {
        var stop;
        stop, n, err := TrySingle(attempt);
        if stop {
          return n, err, attempt + 1;
        }
        attempt := attempt + 1;
      }
      GiveUp(0, p.maxRetries);
      return 0, true, p.maxRetries + 1;
    }

    /** What the retry loop came to is what the world has in store for the chunk. */
    lemma TriedIs(i: nat, err: bool, tries: nat)
      requires p.Valid() && i < |p.Chunks()| && Tried(i, err, tries)
      ensures Lucky(p, world, i) == !err && Last(p, world, i) == tries - 1
    {
    }

    // ---- Goroutines and their dispatcher ----

    /** Record the bytes, or the first error, which cancels the other chunks. */
    method Record(i: nat, n: int, err: bool)
      requires Running() && i < |s.ws| && s.ws[i].pc == if err then Returning(false, 0) else Returning(true, n)
      modifies this`totalWritten, this`firstErr, this`done, this`s
      ensures Running() && |s.ws| == |old(s).ws| && s.ws == old(s).ws[i := s.ws[i]]
      ensures s.ws[i].pc == if err then Leaving(false, 0) else Leaving(true, n)
      ensures s.phase == old(s).phase && s.next == old(s).next && s.dst == old(s).dst && s.slots == old(s).slots
      ensures totalWritten == old(totalWritten) + (if err then 0 else n)
      ensures firstErr == if err && old(firstErr).None? then Some(i) else old(firstErr)
      ensures done == (old(done) || (err && old(firstErr).None? && !p.Single()))
    {
      if err {
        if firstErr == None {
          firstErr := Some(i);
          if !p.Single() {
            done := true;
          }
        }
      } else {
        totalWritten := totalWritten + n;
      }
      Take(Work(i, Return));
    }

    /** The goroutine gives back its slot. */
    ghost method GiveBack(i: nat)
      requires p.Valid() && Reached() && !s.Over() && i < |s.ws| == |p.Chunks()| && s.ws[i].pc.Leaving?
      modifies this`s
      ensures Reached()
      ensures var pc := old(s).ws[i].pc;
              s == old(s).(ws := old(s).ws[i := old(s).ws[i].(pc := Exited(pc.ok, pc.n))], slots := old(s).slots - 1)
    {
      Take(Work(i, Leave));
    }

    /** The goroutine's last steps: record the result, give back the slot. */
    method WindUp(i: nat, n: int, err: bool)
      requires Running() && i < |s.ws| && s.ws[i].pc == if err then Returning(false, 0) else Returning(true, n)
      modifies this`totalWritten, this`firstErr, this`done, this`slots, this`s
      ensures Running() && |s.ws| == |old(s).ws| && s.ws == old(s).ws[i := s.ws[i]]
      ensures s.ws[i].pc == if err then Exited(false, 0) else Exited(true, n)
      ensures s.phase == old(s).phase && s.next == old(s).next && slots == old(slots) - 1
      ensures totalWritten == old(totalWritten) + (if err then 0 else n)
      ensures firstErr == if err && old(firstErr).None? then Some(i) else old(firstErr)
      ensures done == (old(done) || (err && old(firstErr).None? && !p.Single()))
    {
      Record(i, n, err);
      slots := slots - 1;
      GiveBack(i);
    }

    /** What the goroutine of a chunk does: download, record the result, leave. */
    method RunChunk(i: nat, c: Chunk, ghost laid: nat -> Bytes)
      requires Running() && there && !p.Single() && i < |s.ws| && c == p.Chunks()[i] && s.ws[i].pc == Ready(0)
      requires laid(0) == file.bytes && Lays(world, laid, c.start, i)
      modifies this, file
      ensures Running() && there && |s.ws| == |old(s).ws| && s.ws[i].pc.Exited? && dst == old(dst)
      ensures s.phase == old(s).phase && s.next == old(s).next && s.ws == old(s).ws[i := s.ws[i]]
      ensures slots == old(slots) - 1
      ensures totalWritten == old(totalWritten) + (if s.ws[i].pc.ok then c.Size() else 0)
      ensures counter == old(counter) + (if s.ws[i].pc.ok then c.Size() else 0)
      ensures firstErr == if !s.ws[i].pc.ok && old(firstErr).None? then Some(i) else old(firstErr)
      ensures !s.ws[i].pc.ok && old(firstErr).None? ==> done
      ensures s.ws[i].pc.ok && done ==> old(done) || world.cancels
      ensures !old(done) ==>
          HandledAs(p, world, i, s.ws[i].pc.ok, old(retryCounter), laid, retryCounter, file.bytes)
    {
      var n, err;
      ghost var tries;
      n, err, tries := DownloadChunkWithRetry(i, c, laid);
      if !err || !done { TriedIs(i, err, tries); }
      WindUp(i, n, err);
    }

    ghost predicate Gone(i: nat)
      requires p.Valid() && i <= |p.Chunks()|
      reads this, file
    {
      counter == totalWritten && SoFar(p, world, i, totalWritten, retryCounter, firstErr, done, file.bytes)
    }

    /** The dispatcher looks at the context. */
    ghost method LookAround(i: nat)
      requires Running() && !p.Single() && s.phase.Dispatch? && i == s.next < |s.ws|
      modifies this`s
      ensures Running() && s == old(s).(phase := if done then Waiting else Admit)
    {
      Take(Check);
    }

    /** It takes a slot and starts the goroutine of chunk i. */
    method Start(i: nat)
      requires Running() && !p.Single() && s.phase.Admit? && i == s.next < |s.ws| && slots == 0
      modifies this`slots, this`s
      ensures Running() && slots == 1
      ensures s == old(s).(phase := Dispatch, next := i + 1, slots := 1, ws := old(s).ws[i := FRESH])
    {
      slots := slots + 1;
      Take(Acquire);
    }

    /** One round of the dispatcher's loop: the context check, and the goroutine if it passes. */
    method DispatchOne(i: nat, c: Chunk) returns (stop: bool)
      requires Running() && there && !p.Single() && s.phase.Dispatch? && i == s.next < |s.ws| &&
          c == p.Chunks()[i] && slots == 0 && Gone(i)
      modifies this, file
      ensures Running() && there && dst == old(dst) && |s.ws| == |old(s).ws| && slots == 0
      ensures stop ==> s.phase.Waiting? && s.ws == old(s).ws && done && Gone(i)
      ensures !stop ==> s.phase.Dispatch? && s.next == i + 1 && s.ws[i].pc.Exited? && s.ws == old(s).ws[i := s.ws[i]]
      ensures !stop ==> Gone(i + 1)
    {
      stop := Err();
      LookAround(i);
      if !stop {
        Start(i);
        ghost var laid := ChunkLays(world, file.bytes, c.start, i);
        RunChunk(i, c, laid);
        SoFarNext(p, world, i, old(totalWritten), old(retryCounter), old(file.bytes), laid, s.ws[i].pc.ok, done,
                  retryCounter, file.bytes);
      }
    }

    /** The dispatcher's loop, on the schedule that lets every goroutine run to its end as soon as it is
        started.  It stops early only on a done context. */
    method RunChunks(chunks: seq<Chunk>) returns (started: nat)
      requires Running() && there && !p.Single() && s.phase.Dispatch? && s.next == 0 && slots == 0
      requires chunks == p.Chunks() && |s.ws| == |chunks| && Gone(0)
      requires forall j :: 0 <= j < |s.ws| ==> s.ws[j].pc.Idle?
      modifies this, file
      ensures Running() && there && dst == old(dst) && |s.ws| == |chunks| && s.phase.Waiting? && Quiescent(s)
      ensures started <= |chunks| && Gone(started) && (started < |chunks| ==> done)
    {
      started := 0;
      while started < |chunks|
        invariant started <= |chunks| && Running() && there && dst == old(dst) && slots == 0
        invariant s.phase.Dispatch? && s.next == started && |s.ws| == |chunks| && Gone(started)
        invariant forall j :: 0 <= j < |s.ws| ==> if j < started then s.ws[j].pc.Exited? else s.ws[j].pc.Idle?
      {
        var stop := DispatchOne(started, chunks[started]);
        if stop {
          return;
        }
        started := started + 1;
      }
      Take(Check);
    }

    /** The system's step at the opening of the file of a chunked download. */
    ghost method OpenedParallel(ok: bool, made: bool)
      requires p.Valid() && Reached() && !p.Single() && s.phase.Start? && |s.ws| == |p.Chunks()|
      modifies this`s
      ensures Reached()
      ensures s == old(s).(phase := if ok then Dispatch else Cleanup(OpenError),
                           tmp := if ok then Some(Zeros(p.total)) else if made then Some([]) else old(s).tmp)
    {
      Take(Open(ok, made));
    }

    /** The file of a chunked download is opened and given its size. */
    method OpenParallel() returns (failed: bool)
      requires Running() && !p.Single() && s.phase.Start?
      modifies this`there, this`s, file`bytes
      ensures Running() && failed == !world.opening(0).Opened?
      ensures !failed ==> there && file.bytes == Zeros(p.total)
      ensures s == old(s).(phase := if failed then Cleanup(OpenError) else Dispatch, tmp := s.tmp)
    {
      var made;
      made, failed := PreallocateFile(file, p.total, world.opening(0));
      there := there || made;
      OpenedParallel(!failed, made);
    }

    /** downloadParallel up to the end of wg.Wait. */
    method RunParallel() returns (ready: bool)
      requires Running() && s == Init(p, s.tmp, s.dst) && !p.Single()
      requires p.total <= MAX_INT64 && p.chunkSize <= MAX_INT64 && Fits(p.total, p.chunkSize)
      modifies this, file
      ensures Running() && dst == old(dst) && |s.ws| == |p.Chunks()|
      ensures ready == world.opening(0).Opened?
      ensures ready ==> there && s.phase.Waiting? && Quiescent(s) && counter == totalWritten
      ensures ready && !world.cancels ==> firstErr == Unlucky(p, world, 0)
      ensures ready && !world.cancels && firstErr.None? ==> totalWritten == p.total
      ensures ready && firstErr.None? && totalWritten == p.total ==>
          Unlucky(p, world, 0).None? && file.bytes == Content(p, world) && retryCounter == Waits(p, world, |p.Chunks()|)
      ensures !ready ==> s.phase == Cleanup(OpenError)
    {
      var failed := OpenParallel();
      if failed {
        return false;
      }
      var chunks := SplitIntoChunks(p.total, p.chunkSize);
      CountBounds(p.total, p.chunkSize);
      SplitShape(p.total, p.chunkSize, 0);
      var started := RunChunks(chunks);
      SoFarEnds(p, world, started, totalWritten, retryCounter, firstErr, done, file.bytes);
      return true;
    }

    /** The single worker starts. */
    ghost method StartSingle()
      requires Running() && s == Init(p, s.tmp, s.dst) && p.Single()
      modifies this`s
      ensures Running() && s == old(s).(phase := Waiting, next := 1, slots := 1, ws := [FRESH])
    {
      Take(Open(true, false));
    }

    /** The small object: one worker, no dispatcher. */
    method RunSingle()
      requires Running() && s == Init(p, s.tmp, s.dst) && p.Single()
      modifies this, file
      ensures Running() && dst == old(dst) && s.phase.Waiting? && Quiescent(s) && counter == totalWritten
      ensures firstErr.Some? ==> firstErr.value == 0 && (!Lucky(p, world, 0) || world.cancels)
      ensures firstErr.None? ==> there && Lucky(p, world, 0) && totalWritten == |WholeBody(p, world)|
      ensures firstErr.None? ==> file.bytes == Content(p, world) && retryCounter == Waits(p, world, |p.Chunks()|)
    {
      StartSingle();
      var n, err;
      ghost var tries;
      n, err, tries := DownloadSingleWithRetry();
      if !err || !done { TriedIs(0, err, tries); }
      WindUp(0, n, err);
      assert s.ws[0].pc.Exited?;
      assert Waits(p, world, 1) == Waits(p, world, 0) + Last(p, world, 0);
    }

    // ---- After the wait ----

    /** An error return: the temporary file goes. */
    method Discard(why: Failure) returns (r: Outcome)
      requires Running() && s.phase == Cleanup(why)
      modifies this`there, this`s
      ensures Valid() && s.phase == Ended(r) && r == Failed(why) && !there && s.dst == old(s).dst
    {
      there := false;
      Take(Remove);
      r := Failed(why);
    }

    /** The checksum, if there is one to verify. */
    method Verify() returns (ok: bool, verified: bool)
      requires Running() && Decides() && (s.phase == if p.verify then Hashing else Renaming(false))
      modifies this`s
      ensures Running() && s.dst == old(s).dst && verified == (ok && p.verify)
      ensures ok ==> s.phase == Renaming(verified)
      ensures ok <==> !p.verify || (world.readable && there && p.md5(file.bytes) == p.etag)
      ensures !ok ==> s.phase == Cleanup(ChecksumMismatch)
    {
      var simple := IsSimpleETag(etag);
      if skipChecksum || !simple {
        return true, false;
      }
      ok := VerifyMD5(Tmp(), etag, p.md5, world.readable);
      Take(CheckHash(world.readable));
      verified := ok;
    }

    /** The rename, which fails if there is nothing to rename. */
    method Publish(verified: bool) returns (r: Outcome)
      requires Running() && s.phase == Renaming(verified)
      modifies this`there, this`dst, this`s
      ensures Valid() && s.phase == Ended(r) && !there
      ensures r == if old(there) && world.renames then Success(totalWritten, |p.Chunks()|, retryCounter, verified)
                   else Failed(RenameError)
      ensures dst == if r.Success? then Some(file.bytes) else old(dst)
    {
      var fails := !there || !world.renames;
      if fails {
        Take(Rename(false));
        r := Discard(RenameError);
        return;
      }
      dst, there := Some(file.bytes), false;
      Take(Rename(true));
      r := Success(totalWritten, |p.Chunks()|, retryCounter, verified);
    }

    /** What the download stage returns: the first error, or a failed fsync, or nothing. */
    method Join() returns (why: Option<Failure>)
      requires Running() && s.phase.Waiting? && Quiescent(s)
      modifies this`s
      ensures Running() && s.dst == old(s).dst
      ensures why == if firstErr.Some? then Some(ChunkError(firstErr.value))
                     else if p.Single() || world.syncs(0) then None else Some(SyncError)
      ensures if why.Some? then s.phase == Cleanup(why.value) else s.phase.Sizing?
    {
      Take(WaitDone);
      if firstErr.Some? {
        return Some(ChunkError(firstErr.value));
      }
      if p.total > p.chunkSize {
        if !world.syncs(0) {
          Take(Sync(false));
          return Some(SyncError);
        }
        Take(Sync(true));
      }
      return None;
    }

    /** Whether the bytes add up. */
    method CompareSize() returns (same: bool)
      requires Running() && s.phase.Sizing?
      modifies this`s
      ensures Running() && same == (totalWritten == p.total)
      ensures s == old(s).(phase := if !same then Cleanup(SizeMismatch) else if p.verify then Hashing
                                    else Renaming(false))
    {
      same := totalWritten == p.total;
      Take(CheckSize);
    }

    /** Everything after the wait: the first error, the fsync, the size, the checksum, the rename. */
    method Settle() returns (r: Outcome)
      requires Running() && Decides() && s.phase.Waiting? && Quiescent(s)
      modifies this`there, this`dst, this`s
      ensures Valid() && s.phase == Ended(r) && !there
      ensures dst == if r.Success? then Some(file.bytes) else old(dst)
      ensures r == if firstErr.Some? then Failed(ChunkError(firstErr.value))
                   else if !p.Single() && !world.syncs(0) then Failed(SyncError)
                   else if totalWritten != p.total then Failed(SizeMismatch)
                   else if p.verify && !(world.readable && old(there) && p.md5(file.bytes) == p.etag)
                   then Failed(ChecksumMismatch)
                   else if !(old(there) && world.renames) then Failed(RenameError)
                   else Success(p.total, |p.Chunks()|, retryCounter, p.verify)
    {
      var why := Join();
      if why.Some? {
        r := Discard(why.value);
        return;
      }
      var same := CompareSize();
      if !same {
        r := Discard(SizeMismatch);
        return;
      }
      var ok, verified := Verify();
      if !ok {
        r := Discard(ChecksumMismatch);
        return;
      }
      r := Publish(verified);
    }

    /** What a call that gets to the download stage comes to. */
    twostate predicate Comes(r: Outcome)
      requires p.Valid()
      reads this, file
    {
      && Valid() && s.phase == Ended(r) && !there && r != Failed(Early)
      && (r.Success? || !world.cancels ==> r == Verdict(p, world))
      && dst == (if r.Success? then Some(Content(p, world)) else old(dst)) && (r.Success? ==> counter == p.total)
    }

    /** The small object, from the download stage on. */
    method FetchSingle() returns (r: Outcome)
      requires Running() && Decides() && s == Init(p, s.tmp, s.dst) && p.Single() && !world.early
      modifies this, file
      ensures Comes(r)
    {
      RunSingle();
      r := Settle();
    }

    /** The large object, from the download stage on. */
    method FetchParallel() returns (r: Outcome)
      requires Running() && Decides() && s == Init(p, s.tmp, s.dst) && !p.Single() && !world.early
      requires p.total <= MAX_INT64 && p.chunkSize <= MAX_INT64 && Fits(p.total, p.chunkSize)
      modifies this, file
      ensures Comes(r)
    {
      var ready := RunParallel();
      if ready {
        r := Settle();
      } else {
        r := Discard(OpenError);
      }
    }

    /**
      Download, where a chunked download splits without overflow.  Unless the caller cancels, the
      result is what the world has in store, whatever the server; and a success always is.  In
      particular, when nothing goes wrong, the call succeeds without a retry and publishes the object.
      The final path holds the object after a success, if the server honours ranges, and what it held
      before after an error.  A verified success has the hash it was verified against whatever the
      server did; the progress counter ends at the size; past the early checks no temporary file stays.
     */
    method Download() returns (r: Outcome)
      requires Running() && Decides() && origin == s == Init(p, s.tmp, s.dst) && server == ServerOf(world)
      requires !p.Single() ==> p.total <= MAX_INT64 && p.chunkSize <= MAX_INT64 && Fits(p.total, p.chunkSize)
      modifies this, file
      ensures Valid() && s.phase == Ended(r)
      ensures r.Success? || !world.cancels ==> r == Verdict(p, world)
      ensures dst == if r.Success? then Some(Content(p, world)) else old(dst)
      ensures forall obj: Bytes :: |obj| == p.total && AllWell(p, world, obj) && !world.cancels ==>
          r == Success(p.total, |p.Chunks()|, 0, p.verify) && dst == Some(obj)
      ensures r.Success? ==> counter == p.total
      ensures if r == Failed(Early) then Tmp() == old(Tmp()) else !there
      ensures r.Success? ==> dst.Some? && r.bytes == p.total && r.chunks == |p.Chunks()| && r.verified == p.verify
      ensures r.Success? && r.verified ==> p.md5(dst.value) == p.etag
      ensures forall obj: Bytes :: |obj| == p.total && HonestWorld(p, world, obj) ==>
          dst == if r.Success? then Some(obj) else old(dst)
    {
      if world.early {
        Take(Reject);
        r := Failed(Early);
      } else if p.total <= p.chunkSize {
        r := FetchSingle();
      } else {
        r := FetchParallel();
      }
      assert Leads(p, server, origin, s);
      HonestContent(p, world, origin.tmp, origin.dst, s);
      AllWellSucceed(p, world);
    }
  }
}
