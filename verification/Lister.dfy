/**
  ListObjects and its consumer as the code writes them (downloader/lister.go, and the start of
  DownloadPrefix in downloader/multi.go), over a ghost state of the listing system.  Between any
  two steps of the producer the consumer may receive and the caller may cancel, so the methods
  cover every interleaving of the two.
 */
module Lister {
  import opened Prelude
  import opened Listing

  ghost predicate Reached(server: Server, s: State)
  {
    exists ls :: Follows(server, START, ls) && After(server, START, ls) == s
  }

  lemma {:induction false} FollowsAppend(server: Server, s: State, ls: seq<Label>, l: Label)
    requires Follows(server, s, ls) && Enabled(After(server, s, ls), l)
    ensures Follows(server, s, ls + [l]) && After(server, s, ls + [l]) == Next(server, After(server, s, ls), l)
    decreases |ls|
  {
    if ls == [] {
      assert ls + [l] == [l] && [l][1..] == [];
    } else {
      assert (ls + [l])[1..] == ls[1..] + [l];
      FollowsAppend(server, Next(server, s, ls[0]), ls[1..], l);
    }
  }

  lemma ReachedNext(server: Server, s: State, l: Label)
    requires Reached(server, s) && Enabled(s, l)
    ensures Reached(server, Next(server, s, l))
  {
    var ls :| Follows(server, START, ls) && After(server, START, ls) == s;
    FollowsAppend(server, START, ls, l);
  }

  /** Page n is the first that cannot be listed. */
  ghost predicate FirstFailing(fails: nat -> bool, n: nat) { fails(n) && forall m :: 0 <= m < n ==> !fails(m) }

  /** The two channels, the context, and what the consumer has collected. */
  class Pipe {
    const server: Server
    const fails: nat -> bool    // whether the request for page n will fail
    const cancels: bool         // whether the caller will cancel at some time
    var objectCh: seq<Object>
    var objectClosed: bool
    var errCh: seq<Error>
    var errClosed: bool
    var done: bool
    var received: seq<Object>
    ghost var s: State

    constructor (server: Server, fails: nat -> bool, cancels: bool)
      ensures Valid() && s == START && this.server == server && this.fails == fails && this.cancels == cancels
    {
      this.server, this.fails, this.cancels := server, fails, cancels;
      objectCh, objectClosed, errCh, errClosed, done, received := [], false, [], false, false, [];
      s := START;
      assert Follows(server, START, []) && After(server, START, []) == START;
    }

    ghost predicate Valid()
      reads this
    {
      && Reached(server, s)
      && s.objectCh == objectCh && s.objectClosed == objectClosed && s.errCh == errCh && s.errClosed == errClosed
      && s.cancelled == done && s.received == received
      && |objectCh| <= CAPACITY && (done ==> cancels)
    }

    /** The consumer's and the caller's steps leave the producer where it is. */
    twostate predicate Elsewhere()
      reads this
    {
      s == old(s).(objectCh := s.objectCh, received := s.received, cancelled := s.cancelled) && (old(s).cancelled ==>
          s.cancelled)
    }

    ghost method Take(l: Label)
      requires Reached(server, s) && Enabled(s, l)
      modifies this`s
      ensures s == Next(server, old(s), l) && Reached(server, s)
    {
      ReachedNext(server, s, l);
      s := Next(server, s, l);
    }

    /** The body of the consumer's range loop. */
    method Receive()
      requires Valid() && s.cons.Ranging? && objectCh != []
      modifies this`objectCh, this`received, this`s
      ensures Valid() && Elsewhere() && |objectCh| == |old(objectCh)| - 1 &&
          received + objectCh == old(received + objectCh)
    {
      received := received + [objectCh[0]];
      objectCh := objectCh[1..];
      Take(Label.Receive);
    }

    /** The consumer receives what it likes, and the caller may cancel. */
    method Others()
      requires Valid() && s.cons.Ranging?
      modifies this`objectCh, this`received, this`done, this`s
      ensures Valid() && Elsewhere() && received + objectCh == old(received + objectCh)
    {
      while objectCh != []
        invariant Valid() && Elsewhere() && received + objectCh == old(received + objectCh) && s.cons.Ranging?
        decreases |objectCh|
      {
        if * {
          break;
        }
        Receive();
      }
      if cancels && !done {
        if * {
          done := true;
          Take(Cancel);
        }
      }
    }

    /** errCh <- e: there is always room. */
    method Fail(e: Error)
      requires Valid() && s.prod == Failing(e) && errCh == []
      modifies this`errCh, this`s
      ensures Valid() && s == old(s).(prod := ClosingErr, errCh := [e]) && errCh == [e]
    {
      errCh := errCh + [e];
      Take(SendErr);
    }

    /** The select: the object goes into the channel, once there is room, or the context is done. */
    method Send(obj: Object, ghost rest: seq<Object>, ghost page: Page) returns (sent: bool)
      requires Valid() && s.cons.Ranging? && errCh == [] && !Marker(obj) && s.prod == Sending([obj] + rest, page)
      modifies this`objectCh, this`received, this`done, this`errCh, this`s
      ensures Valid() && s.cons.Ranging? && s.pageNum == old(s.pageNum)
      ensures sent ==> s.prod == Sending(rest, page) && errCh == []
      ensures sent ==> received + objectCh == old(received + objectCh) + [obj]
      ensures !sent ==> s.prod == ClosingErr && errCh == [Cancelled] && done
    {
      Others();
      var stops := false;
      if done {
        stops := *;
      }
      if stops {
        Take(GiveUp);
        Fail(Cancelled);
        return false;
      }
      if |objectCh| == CAPACITY {
        Receive();
      }
      objectCh := objectCh + [obj];
      Take(Push);
      return true;
    }

    /** The loop over a page's objects, which leaves the markers out. */
    method SendPage(page: Page) returns (sent: bool)
      requires Valid() && s.cons.Ranging? && errCh == [] && s.prod == Sending(page.objects, page)
      modifies this`objectCh, this`received, this`done, this`errCh, this`s
      ensures Valid() && s.cons.Ranging? && s.pageNum == old(s.pageNum)
      ensures sent ==> s.prod == Sending([], page) && errCh == []
      ensures sent ==> received + objectCh == old(received + objectCh) + Kept(page.objects)
      ensures Collected(Kept(page.objects), page.objects)
      ensures !sent ==> s.prod == ClosingErr && errCh == [Cancelled] && done
    {
      ghost var places := KeptIsPicked(page.objects);
      var rest := page.objects;
      while rest != []
        invariant Valid() && s.cons.Ranging? && errCh == [] && s.prod == Sending(rest, page)
        invariant s.pageNum == old(s.pageNum)
        invariant received + objectCh + Kept(rest) == old(received + objectCh) + Kept(page.objects)
        decreases |rest|
      {
        var obj := rest[0];
        assert rest == [obj] + rest[1..];
        if Marker(obj) {
          Take(Skip);
        } else {
          ghost var before := received + objectCh;
          sent := Send(obj, rest[1..], page);
          if !sent {
            return;
          }
          assert before + ([obj] + Kept(rest[1..])) == (before + [obj]) + Kept(rest[1..]);
        }
        rest := rest[1..];
      }
      sent := true;
    }

    /** The deferred calls, last first: errCh closes before objectCh. */
    method Close()
      requires Valid() && s.cons.Ranging? && s.prod.ClosingErr?
      modifies this
      ensures Valid() && s.prod.Gone? && s.cons.Ranging? && objectClosed && errClosed && errCh == old(errCh)
      ensures old(done) ==> done
    {
      Others();
      errClosed := true;
      Take(CloseErr);
      Others();
      objectClosed := true;
      Take(CloseObj);
    }

    /** listPage: the server's answer, or an error. */
    method ListPage(token: string, pageNum: nat) returns (page: Page, failed: bool)
      ensures page == server(token) && failed == fails(pageNum)
    {
      page, failed := server(token), fails(pageNum);
    }

    /** The head of the producer's loop: the context check and the request. */
    method FetchPage(token: string, pageNum: nat) returns (page: Page, stopped: bool)
      requires Valid() && s.cons.Ranging? && errCh == [] && s.prod == Head(token) && s.pageNum == pageNum
      modifies this
      ensures Valid() && s.cons.Ranging? && received + objectCh == old(received + objectCh)
      ensures !stopped ==>
          errCh == [] && page == server(token) && s.prod == Sending(page.objects, page) && s.pageNum == pageNum + 1
      ensures !stopped ==> !fails(pageNum)
      ensures stopped ==> s.prod == ClosingErr
      ensures stopped ==> (fails(pageNum) && errCh == [PageError(pageNum)]) || (done && errCh == [Cancelled])
    {
      page := server(token);
      Others();
      Take(Look);
      if done {
        Fail(Cancelled);
        return page, true;
      }
      Others();
      var failed;
      page, failed := ListPage(token, pageNum);
      Take(Fetch(!failed));
      if failed {
        Fail(PageError(pageNum));
        return page, true;
      }
      return page, false;
    }

    static lemma PageDone(before: seq<Object>, page: Page, left: seq<Page>, all: seq<Object>)
      requires left != [] && left[0] == page && before + Contents(left) == all
      ensures (before + Kept(page.objects)) + Contents(left[1..]) == all
    {
      assert before + (Kept(left[0].objects) + Contents(left[1..])) ==
          (before + Kept(left[0].objects)) + Contents(left[1..]);
    }

    /** One round of the producer's loop.  left are the pages not yet fetched, all the whole listing. */
    method OneRound(token: string, pageNum: nat, ghost left: seq<Page>, ghost all: seq<Object>)
      returns (page: Page, stopped: bool)
      requires Valid() && s.cons.Ranging? && errCh == [] && s.prod == Head(token) && s.pageNum == pageNum
      requires Chain(server, token, left) && received + objectCh + Contents(left) == all
      modifies this
      ensures Valid() && s.cons.Ranging?
      ensures !stopped ==>
          errCh == [] && page == server(token) && page.truncated && s.prod == Head(page.next) &&
              s.pageNum == pageNum + 1
      ensures !stopped ==> !fails(pageNum) && received + objectCh + Contents(left[1..]) == all
      ensures stopped ==> s.prod == ClosingErr
      ensures stopped && errCh == [] ==> !fails(pageNum) && |left| == 1 && received + objectCh == all
      ensures stopped && errCh != [] ==>
          (fails(pageNum) && errCh == [PageError(pageNum)]) || (done && errCh == [Cancelled])
    {
      page, stopped := FetchPage(token, pageNum);
      if stopped {
        return;
      }
      PageDone(received + objectCh, page, left, all);
      var sent := SendPage(page);
      if !sent {
        return page, true;
      }
      Take(PageEnd);
      if !page.truncated {
        assert left[1..] == [] && received + objectCh + [] == received + objectCh;
        stopped := true;
      }
    }

    /** The producer's goroutine, up to its deferred calls. */
    method Produce(ghost pages: seq<Page>)
      requires Valid() && s == START && Chain(server, "", pages)
      modifies this
      ensures Valid() && s.cons.Ranging? && s.prod == ClosingErr
      ensures errCh == [] ==> received + objectCh == Contents(pages) && forall n :: 0 <= n < |pages| ==> !fails(n)
      ensures errCh != [] ==>
          (exists n: nat :: errCh == [PageError(n)] && n < |pages| && FirstFailing(fails, n)) ||
          (done && errCh == [Cancelled])
    {
      var token, pageNum := "", 0;
      ghost var left := pages;
      assert received + objectCh + Contents(pages) == Contents(pages);
      while true
        invariant Valid() && s.cons.Ranging? && errCh == [] && s.prod == Head(token) && s.pageNum == pageNum
        invariant Chain(server, token, left) && received + objectCh + Contents(left) == Contents(pages)
        invariant pageNum + |left| == |pages| && forall n :: 0 <= n < pageNum ==> !fails(n)
        decreases |left|
      {
        var page, stopped := OneRound(token, pageNum, left, Contents(pages));
        if stopped {
          return;
        }
        token, pageNum, left := page.next, pageNum + 1, left[1..];
      }
    }

    /** The rest of the range loop, and the read from errCh. */
    method Collect() returns (err: Option<Error>)
      requires Valid() && s.prod.Gone? && s.cons.Ranging? && objectClosed && errClosed
      modifies this`objectCh, this`received, this`errCh, this`s
      ensures Valid() && s.cons == Finished(err) && received == old(received + objectCh)
      ensures err == if old(errCh) == [] then None else Some(old(errCh)[0])
    {
      while objectCh != []
        invariant Valid() && s.prod.Gone? && s.cons.Ranging? && objectClosed && errClosed
        invariant received + objectCh == old(received + objectCh) && errCh == old(errCh)
        decreases |objectCh|
      {
        Receive();
      }
      assert received + [] == received;
      Take(RangeEnd);
      if errCh == [] {
        err := None;
      } else {
        err := Some(errCh[0]);
        errCh := errCh[1..];
      }
      Take(ReadErr);
    }

    /** The whole listing.  With no error what is collected is every object on the pages but the
        markers, in order; with an error it is the beginning of that.  There is no error if no page
        fails and nobody cancels; the first page that fails is reported unless the caller cancels. */
    method ListAll(ghost pages: seq<Page>) returns (objects: seq<Object>, err: Option<Error>)
      requires Valid() && s == START && Chain(server, "", pages)
      modifies this
      ensures Valid() && objects == received && s.cons == Finished(err)
      ensures objects <= Contents(pages) && Collected(Contents(pages), Everything(pages))
      ensures err.None? ==> objects == Contents(pages) && Collected(objects, Everything(pages))
      ensures err.None? ==> forall n :: 0 <= n < |pages| ==> !fails(n)
      ensures err.Some? && err.value.PageError? ==> err.value.page < |pages| && FirstFailing(fails, err.value.page)
      ensures err == Some(Cancelled) ==> done
      ensures done ==> cancels
    {
      ContentsExactly(pages);
      Produce(pages);
      Close();
      err := Collect();
      objects := received;
      ghost var ls :| Follows(server, START, ls) && After(server, START, ls) == s;
      CompleteAndOrdered(server, pages, ls);
    }
  }
}
