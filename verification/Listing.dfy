/**
  Listing a prefix through two channels (downloader/lister.go, and its consumer at the start of
  DownloadPrefix in downloader/multi.go), as a step system of producer, consumer and context.
 */
module Listing {
  import opened Prelude
  import opened Strings

  datatype Object = Object(key: string, size: int)

  /** A parsed answer of the server. */
  datatype Page = Page(objects: seq<Object>, next: string, truncated: bool)

  /** The server's pages by continuation token; "" asks for the first. */
  type Server = string -> Page

  /** A directory marker. */
  predicate Marker(o: Object) { o.size == 0 && HasSuffix(o.key, "/") }

  function Kept(os: seq<Object>): seq<Object>
  {
    if os == [] then [] else (if Marker(os[0]) then [] else [os[0]]) + Kept(os[1..])
  }

  /** Following the tokens from tok takes the listing through exactly these pages. */
  predicate Chain(server: Server, tok: string, pages: seq<Page>)
    decreases |pages|
  {
    && pages != [] && pages[0] == server(tok)
    && (if pages[0].truncated then Chain(server, pages[0].next, pages[1..]) else |pages| == 1)
  }

  /** Everything the pages list, without the markers. */
  function Contents(pages: seq<Page>): seq<Object>
  {
    if pages == [] then [] else Kept(pages[0].objects) + Contents(pages[1..])
  }

  const CAPACITY: nat := 1000

  datatype Error = Cancelled | PageError(page: nat)

  datatype Producer =
    | Head(tok: string)                                // about to look at the context
    | Fetching(tok: string)
    | Sending(rest: seq<Object>, page: Page)
    | Failing(e: Error)                                // about to send on errCh
    | ClosingErr                                       // deferred calls run last first: errCh, then objectCh
    | ClosingObj
    | Gone

  datatype Consumer = Ranging | AwaitingErr | Finished(err: Option<Error>)

  datatype State = State(
    prod: Producer,
    cons: Consumer,
    pageNum: nat,
    objectCh: seq<Object>,
    objectClosed: bool,
    errCh: seq<Error>,
    errClosed: bool,
    cancelled: bool,
    received: seq<Object>
  )

  const START := State(Head(""), Ranging, 0, [], false, [], false, false, [])

  datatype Label =
    | Look
    | Fetch(ok: bool)
    | Skip
    | Push
    | GiveUp                 // the select takes its ctx.Done branch
    | PageEnd
    | SendErr
    | CloseErr
    | CloseObj
    | Receive
    | RangeEnd
    | ReadErr
    | Cancel

  predicate Enabled(s: State, l: Label)
  {
    match l
    case Look => s.prod.Head?
    case Fetch(_) => s.prod.Fetching?
    case Skip => s.prod.Sending? && s.prod.rest != [] && Marker(s.prod.rest[0])
    case Push => s.prod.Sending? && s.prod.rest != [] && !Marker(s.prod.rest[0]) && |s.objectCh| < CAPACITY
    case GiveUp => s.prod.Sending? && s.prod.rest != [] && !Marker(s.prod.rest[0]) && s.cancelled
    case PageEnd => s.prod.Sending? && s.prod.rest == []
    case SendErr => s.prod.Failing? && |s.errCh| < 1
    case CloseErr => s.prod.ClosingErr?
    case CloseObj => s.prod.ClosingObj?
    case Receive => s.cons.Ranging? && s.objectCh != []
    case RangeEnd => s.cons.Ranging? && s.objectCh == [] && s.objectClosed
    case ReadErr => s.cons.AwaitingErr? && (s.errCh != [] || s.errClosed)
    case Cancel => !s.cancelled
  }

  function Next(server: Server, s: State, l: Label): State
    requires Enabled(s, l)
  {
    match l
    case Look => s.(prod := if s.cancelled then Failing(Cancelled) else Fetching(s.prod.tok))
    case Fetch(ok) =>
      if ok then s.(prod := Sending(server(s.prod.tok).objects, server(s.prod.tok)), pageNum := s.pageNum + 1)
      else s.(prod := Failing(PageError(s.pageNum)))
    case Skip => s.(prod := Sending(s.prod.rest[1..], s.prod.page))
    case Push => s.(prod := Sending(s.prod.rest[1..], s.prod.page), objectCh := s.objectCh + [s.prod.rest[0]])
    case GiveUp => s.(prod := Failing(Cancelled))
    case PageEnd => s.(prod := if s.prod.page.truncated then Head(s.prod.page.next) else ClosingErr)
    case SendErr => s.(prod := ClosingErr, errCh := s.errCh + [s.prod.e])
    case CloseErr => s.(prod := ClosingObj, errClosed := true)
    case CloseObj => s.(prod := Gone, objectClosed := true)
    case Receive => s.(objectCh := s.objectCh[1..], received := s.received + [s.objectCh[0]])
    case RangeEnd => s.(cons := AwaitingErr)
    case ReadErr =>
      if s.errCh != [] then s.(cons := Finished(Some(s.errCh[0])), errCh := s.errCh[1..])
      else s.(cons := Finished(None))
    case Cancel => s.(cancelled := true)
  }

  predicate Follows(server: Server, s: State, ls: seq<Label>)
    decreases |ls|
  {
    ls != [] ==> Enabled(s, ls[0]) && Follows(server, Next(server, s, ls[0]), ls[1..])
  }

  function After(server: Server, s: State, ls: seq<Label>): State
    requires Follows(server, s, ls)
    decreases |ls|
  {
    if ls == [] then s else After(server, Next(server, s, ls[0]), ls[1..])
  }

  // ---- The invariant ----

  /** What the producer would still send, when left are the pages it has not fetched. */
  function Coming(prod: Producer, left: seq<Page>): seq<Object>
  {
    match prod
    case Sending(rest, _) => Kept(rest) + Contents(left)
    case _ => Contents(left)
  }

  predicate OnCourse(server: Server, prod: Producer, left: seq<Page>)
  {
    match prod
    case Head(tok) => Chain(server, tok, left)
    case Fetching(tok) => Chain(server, tok, left)
    case Sending(_, page) => if page.truncated then Chain(server, page.next, left) else left == []
    case _ => true
  }

  predicate Closing(prod: Producer) { prod.ClosingErr? || prod.ClosingObj? || prod.Gone? }

  /** all is the whole listing.  Received and buffered objects are its beginning; while the
      producer is on course the rest is still coming; and once it has stopped, an empty errCh
      means that nothing was left out. */
  ghost predicate Inv(server: Server, all: seq<Object>, s: State, left: seq<Page>)
  {
    && OnCourse(server, s.prod, left)
    && s.received + s.objectCh <= all
    && (s.prod.Head? || s.prod.Fetching? || s.prod.Sending? ==> s.received + s.objectCh + Coming(s.prod, left) == all)
    && |s.errCh| <= 1 && (s.errCh != [] ==> Closing(s.prod))
    && (Closing(s.prod) && s.errCh == [] && !s.cons.Finished? ==> s.received + s.objectCh == all)
    && (s.errClosed <==> s.prod.ClosingObj? || s.prod.Gone?)
    && (s.objectClosed <==> s.prod.Gone?)
    && (!s.cons.Ranging? ==> s.objectClosed && s.objectCh == [])
    && (s.cons == Finished(None) ==> s.received == all)
    && |s.objectCh| <= CAPACITY
  }

  function LeftAfter(s: State, l: Label, left: seq<Page>): seq<Page>
  {
    if l == Fetch(true) && left != [] then left[1..] else left
  }

  lemma InvPush(server: Server, all: seq<Object>, s: State, left: seq<Page>)
    requires Inv(server, all, s, left) && Enabled(s, Push)
    ensures Inv(server, all, Next(server, s, Push), left)
  {
    var x, rest, more := s.prod.rest[0], Kept(s.prod.rest[1..]), Contents(left);
    assert s.received + s.objectCh + ([x] + rest + more) == s.received + (s.objectCh + [x]) + (rest + more);
  }

  lemma InvReceive(server: Server, all: seq<Object>, s: State, left: seq<Page>)
    requires Inv(server, all, s, left) && Enabled(s, Receive)
    ensures Inv(server, all, Next(server, s, Receive), left)
  {
    var x, rest := s.objectCh[0], s.objectCh[1..];
    assert s.objectCh == [x] + rest;
    assert s.received + s.objectCh == (s.received + [x]) + rest;
  }

  lemma InvFetch(server: Server, all: seq<Object>, s: State, left: seq<Page>)
    requires Inv(server, all, s, left) && Enabled(s, Fetch(true))
    ensures Inv(server, all, Next(server, s, Fetch(true)), LeftAfter(s, Fetch(true), left))
  {
    assert Contents(left) == Kept(left[0].objects) + Contents(left[1..]);
    assert left[0].truncated || left[1..] == [];
  }

  /** The producer's other steps. */
  lemma InvProducer(server: Server, all: seq<Object>, s: State, left: seq<Page>, l: Label)
    requires Inv(server, all, s, left) && Enabled(s, l)
    requires l.Look? || l == Fetch(false) || l.Skip? || l.GiveUp?
    ensures Inv(server, all, Next(server, s, l), left)
  {
    if l.Skip? { assert Kept(s.prod.rest) == Kept(s.prod.rest[1..]); }
  }

  lemma InvPageEnd(server: Server, all: seq<Object>, s: State, left: seq<Page>)
    requires Inv(server, all, s, left) && Enabled(s, PageEnd)
    ensures Inv(server, all, Next(server, s, PageEnd), left)
  {
    assert Kept([]) + Contents(left) == Contents(left);
    assert left == [] ==> s.received + s.objectCh + [] == s.received + s.objectCh;
  }

  lemma InvClosing(server: Server, all: seq<Object>, s: State, left: seq<Page>, l: Label)
    requires Inv(server, all, s, left) && Enabled(s, l)
    requires l.SendErr? || l.CloseErr? || l.CloseObj? || l.RangeEnd? || l.ReadErr? || l.Cancel?
    ensures Inv(server, all, Next(server, s, l), left)
  {
    assert s.objectCh == [] ==> s.received + s.objectCh == s.received;
  }

  lemma InvStep(server: Server, all: seq<Object>, s: State, left: seq<Page>, l: Label)
    requires Inv(server, all, s, left) && Enabled(s, l)
    ensures Inv(server, all, Next(server, s, l), LeftAfter(s, l, left))
  {
    match l
    case Push => InvPush(server, all, s, left);
    case Receive => InvReceive(server, all, s, left);
    case Look => InvProducer(server, all, s, left, l);
    case Fetch(ok) => if ok { InvFetch(server, all, s, left); } else { InvProducer(server, all, s, left, l); }
    case Skip => InvProducer(server, all, s, left, l);
    case GiveUp => InvProducer(server, all, s, left, l);
    case PageEnd => InvPageEnd(server, all, s, left);
    case _ => InvClosing(server, all, s, left, l);
  }

  lemma {:induction false} InvAlong(server: Server, all: seq<Object>, s: State, left: seq<Page>, ls: seq<Label>)
    returns (rest: seq<Page>)
    requires Inv(server, all, s, left) && Follows(server, s, ls)
    ensures Inv(server, all, After(server, s, ls), rest)
    decreases |ls|
  {
    if ls == [] {
      rest := left;
    } else {
      InvStep(server, all, s, left, ls[0]);
      rest := InvAlong(server, all, Next(server, s, ls[0]), LeftAfter(s, ls[0], left), ls[1..]);
    }
  }

  lemma Started(server: Server, pages: seq<Page>)
    requires Chain(server, "", pages)
    ensures Inv(server, Contents(pages), START, pages)
  {
    assert START.received + START.objectCh + Contents(pages) == Contents(pages);
  }

  /** At every moment the consumer has a beginning of the listing, in order; and if it ends
      with no error it has all of it. */
  lemma CompleteAndOrdered(server: Server, pages: seq<Page>, ls: seq<Label>)
    requires Chain(server, "", pages) && Follows(server, START, ls)
    ensures var s := After(server, START, ls);
            s.received <= Contents(pages) && (s.cons == Finished(None) ==> s.received == Contents(pages))
  {
    Started(server, pages);
    var rest := InvAlong(server, Contents(pages), START, pages, ls);
    var s := After(server, START, ls);
    assert s.received <= s.received + s.objectCh;
  }

  // ---- What is collected, object by object ----

  /** Every object on the pages, markers included. */
  function Everything(pages: seq<Page>): seq<Object>
  {
    if pages == [] then [] else pages[0].objects + Everything(pages[1..])
  }

  /** What was got is what stands at these places of all, in this order: everything there is but
      the empty objects whose keys end in a slash. */
  predicate Picked(got: seq<Object>, all: seq<Object>, places: seq<nat>)
  {
    && |places| == |got|
    && (forall m, n :: 0 <= m < n < |places| ==> places[m] < places[n])
    && (forall n :: 0 <= n < |places| ==> places[n] < |all| && got[n] == all[places[n]])
    && forall i :: 0 <= i < |all| ==>
      (i in places <==> all[i].size != 0 || all[i].key == "" || all[i].key[|all[i].key| - 1] != '/')
  }

  ghost predicate Collected(got: seq<Object>, all: seq<Object>) { exists places :: Picked(got, all, places) }

  lemma {:induction false} KeptAppend(a: seq<Object>, b: seq<Object>)
    ensures Kept(a + b) == Kept(a) + Kept(b)
  {
    if a == [] {
      assert a + b == b;
    } else {
      assert (a + b)[1..] == a[1..] + b;
      KeptAppend(a[1..], b);
    }
  }

  lemma {:induction false} ContentsOfEverything(pages: seq<Page>)
    ensures Contents(pages) == Kept(Everything(pages))
  {
    if pages != [] {
      KeptAppend(pages[0].objects, Everything(pages[1..]));
      ContentsOfEverything(pages[1..]);
    }
  }

  /** One more object at the end. */
  lemma PickedLonger(got: seq<Object>, all: seq<Object>, places: seq<nat>, o: Object)
    requires Picked(got, all, places)
    ensures Marker(o) ==> Picked(got, all + [o], places)
    ensures !Marker(o) ==> Picked(got + [o], all + [o], places + [|all|])
  {
  }

  lemma KeptLonger(all: seq<Object>, o: Object)
    ensures Kept(all + [o]) == if Marker(o) then Kept(all) else Kept(all) + [o]
  {
    KeptAppend(all, [o]);
    assert [o][1..] == [];
    assert Kept([o]) == if Marker(o) then [] else [o];
  }

  lemma {:induction false} KeptIsPicked(all: seq<Object>) returns (places: seq<nat>)
    ensures Picked(Kept(all), all, places)
  {
    if all == [] {
      places := [];
    } else {
      var n := |all| - 1;
      var front := KeptIsPicked(all[..n]);
      assert all == all[..n] + [all[n]];
      KeptLonger(all[..n], all[n]);
      PickedLonger(Kept(all[..n]), all[..n], front, all[n]);
      places := if Marker(all[n]) then front else front + [n];
    }
  }

  /** The contents of the pages are all their objects in order, each as often as it is listed, but
      for the empty ones whose keys end in a slash. */
  lemma ContentsExactly(pages: seq<Page>)
    ensures Collected(Contents(pages), Everything(pages))
  {
    ContentsOfEverything(pages);
    var places := KeptIsPicked(Everything(pages));
  }

  /** Only one sequence is collected from the same objects. */
  lemma CollectedOnce(a: seq<Object>, b: seq<Object>, all: seq<Object>)
    requires Collected(a, all) && Collected(b, all)
    ensures a == b
  {
    var p :| Picked(a, all, p);
    var q :| Picked(b, all, q);
    AscendingOnce(p, q);
  }

  lemma NotEmptyToo(p: seq<nat>, q: seq<nat>)
    requires p != [] && forall i :: i in p <==> i in q
    ensures q != []
  {
    assert p[0] in p;
  }

  lemma {:induction false} AscendingOnce(p: seq<nat>, q: seq<nat>)
    requires forall m, n :: 0 <= m < n < |p| ==> p[m] < p[n]
    requires forall m, n :: 0 <= m < n < |q| ==> q[m] < q[n]
    requires forall i :: i in p <==> i in q
    ensures p == q
  {
    if p != [] { NotEmptyToo(p, q); }
    if q != [] { NotEmptyToo(q, p); }
    if p != [] {
      var m, n := |p| - 1, |q| - 1;
      assert p[m] in q && q[n] in p;
      assert p[m] == q[n];
      forall i ensures i in p[..m] <==> i in q[..n] {
        assert i in p <==> i in p[..m] || i == p[m];
        assert i in q <==> i in q[..n] || i == q[n];
      }
      AscendingOnce(p[..m], q[..n]);
    }
  }

  // ---- Nobody waits for ever ----

  /** Until both sides are through, one of them can move, full or empty channels notwithstanding;
      and the producer never has to wait to report its error. */
  lemma SomeoneMoves(server: Server, all: seq<Object>, s: State, left: seq<Page>) returns (l: Label)
    requires Inv(server, all, s, left) && !(s.prod.Gone? && s.cons.Finished?)
    ensures Enabled(s, l) && !l.Cancel?
    ensures s.prod.Failing? ==> Enabled(s, SendErr)
    ensures s.cons.Finished? ==> s.prod.Gone?
  {
    match s.prod
    case Head(_) => l := Look;
    case Fetching(_) => l := Fetch(true);
    case Sending(rest, _) =>
      if rest == [] { l := PageEnd; }
      else if Marker(rest[0]) { l := Skip; }
      else if |s.objectCh| < CAPACITY { l := Push; }
      else { l := Receive; }
    case Failing(_) => l := SendErr;
    case ClosingErr => l := CloseErr;
    case ClosingObj => l := CloseObj;
    case Gone =>
      if s.cons.AwaitingErr? { l := ReadErr; }
      else if s.objectCh != [] { l := Receive; }
      else { l := RangeEnd; }
  }

  function Cost(pages: seq<Page>): nat
  {
    if pages == [] then 0 else 2 * |pages[0].objects| + 10 + Cost(pages[1..])
  }

  function Measure(s: State, left: seq<Page>): nat
  {
    (match s.prod
     case Head(_) => Cost(left) + 6
     case Fetching(_) => Cost(left) + 5
     case Sending(rest, _) => Cost(left) + 2 * |rest| + 7
     case Failing(_) => 3
     case ClosingErr => 2
     case ClosingObj => 1
     case Gone => 0)
    + |s.objectCh|
    + (match s.cons case Ranging => 2 case AwaitingErr => 1 case Finished(_) => 0)
    + (if s.cancelled then 0 else 1)
  }

  lemma MeasureDrops(server: Server, all: seq<Object>, s: State, left: seq<Page>, l: Label)
    requires Inv(server, all, s, left) && Enabled(s, l)
    ensures Measure(Next(server, s, l), LeftAfter(s, l, left)) < Measure(s, left)
  {
  }

  /** A run over a finite chain of pages has at most so many steps. */
  lemma {:induction false} RunsAreBounded(server: Server, all: seq<Object>, s: State, left: seq<Page>, ls: seq<Label>)
    requires Inv(server, all, s, left) && Follows(server, s, ls)
    ensures |ls| <= Measure(s, left)
    decreases |ls|
  {
    if ls != [] {
      InvStep(server, all, s, left, ls[0]);
      MeasureDrops(server, all, s, left, ls[0]);
      RunsAreBounded(server, all, Next(server, s, ls[0]), LeftAfter(s, ls[0], left), ls[1..]);
    }
  }

  /** Every listing of a finite chain ends within Cost(pages) + 9 steps. */
  lemma ListingEnds(server: Server, pages: seq<Page>, ls: seq<Label>)
    requires Chain(server, "", pages) && Follows(server, START, ls)
    ensures |ls| <= Cost(pages) + 9
  {
    Started(server, pages);
    RunsAreBounded(server, Contents(pages), START, pages, ls);
  }

  /** Without a failed page and without a cancel, no error is ever reported. */
  predicate Quiet(ls: seq<Label>) { forall n :: 0 <= n < |ls| ==> ls[n] != Fetch(false) && ls[n] != Cancel }

  predicate Healthy(s: State)
  {
    !s.cancelled && !s.prod.Failing? && s.errCh == [] && (s.cons.Finished? ==> s.cons.err.None?)
  }

  lemma {:induction false} QuietRunsSucceed(server: Server, s: State, ls: seq<Label>)
    requires Healthy(s) && Follows(server, s, ls) && Quiet(ls)
    ensures Healthy(After(server, s, ls))
    decreases |ls|
  {
    if ls != [] {
      assert ls[0] != Fetch(false) && ls[0] != Cancel;
      assert Quiet(ls[1..]) by {
        forall n | 0 <= n < |ls[1..]| ensures ls[1..][n] != Fetch(false) && ls[1..][n] != Cancel {
          assert ls[1..][n] == ls[n + 1];
        }
      }
      QuietRunsSucceed(server, Next(server, s, ls[0]), ls[1..]);
    }
  }

  // ---- When a listing ends ----

  /** Following the tokens from tok comes to a last page. */
  ghost predicate Finite(server: Server, tok: string) { exists pages :: Chain(server, tok, pages) }

  lemma NeverLast(server: Server, tok: string)
    requires !Finite(server, tok)
    ensures server(tok).truncated && !Finite(server, server(tok).next)
  {
    var page := server(tok);
    if !page.truncated {
      assert Chain(server, tok, [page]);
    } else if Finite(server, page.next) {
      var pages :| Chain(server, page.next, pages);
      assert ([page] + pages)[1..] == pages;
      assert Chain(server, tok, [page] + pages);
    }
  }

  /** The producer is at work on pages that have no last one, and nothing is in its way. */
  ghost predicate Endless(server: Server, s: State)
  {
    && !s.cancelled && s.cons.Ranging? && s.objectCh == []
    && match s.prod
       case Head(tok) => !Finite(server, tok)
       case Fetching(tok) => !Finite(server, tok)
       case Sending(_, page) => page.truncated && !Finite(server, page.next)
       case _ => false
  }

  lemma Prepend(server: Server, s: State, l: Label, ls: seq<Label>)
    requires Enabled(s, l) && Follows(server, Next(server, s, l), ls)
    ensures Follows(server, s, [l] + ls)
  {
    assert ([l] + ls)[1..] == ls;
  }

  /** Then it goes on for as long as one likes. */
  lemma {:induction false} GoesOn(server: Server, s: State, n: nat) returns (ls: seq<Label>)
    requires Endless(server, s)
    ensures Follows(server, s, ls) && |ls| >= n
    decreases n
  {
    if n == 0 {
      ls := [];
    } else if s.prod.Sending? && s.prod.rest != [] && !Marker(s.prod.rest[0]) {
      var u := Next(server, s, Push);
      var t := Next(server, u, Receive);
      ls := GoesOn(server, t, n - 1);
      Prepend(server, u, Receive, ls);
      Prepend(server, s, Push, [Receive] + ls);
      ls := [Push] + ([Receive] + ls);
    } else {
      var l := match s.prod
        case Head(_) => Look
        case Fetching(_) => Fetch(true)
        case Sending(rest, _) => if rest == [] then PageEnd else Skip;
      if s.prod.Fetching? { NeverLast(server, s.prod.tok); }
      ls := GoesOn(server, Next(server, s, l), n - 1);
      Prepend(server, s, l, ls);
      ls := [l] + ls;
    }
  }

  ghost predicate Bounded(server: Server, n: nat)
  {
    forall ls :: Follows(server, START, ls) ==> |ls| <= n
  }

  /** The runs of a listing are bounded exactly when the tokens come to a last page. */
  lemma BoundedExactly(server: Server)
    ensures (exists n: nat :: Bounded(server, n)) <==> Finite(server, "")
  {
    if Finite(server, "") {
      var pages :| Chain(server, "", pages);
      forall ls | Follows(server, START, ls) ensures |ls| <= Cost(pages) + 9 {
        ListingEnds(server, pages, ls);
      }
      assert Bounded(server, Cost(pages) + 9);
    } else {
      forall n: nat ensures !Bounded(server, n) {
        var ls := GoesOn(server, START, n + 1);
      }
    }
  }
}
