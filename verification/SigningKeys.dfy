/** The cache of the derived signing key (downloader/signer.go), called one at a time and by
    goroutines that race. */
module SigningKeys {
  import opened Prelude
  import opened Strings

  /** HMAC-SHA256, as a function of key and data. */
  type Mac = (string, string) -> string

  datatype Args = Args(secret: string, date: string, region: string, service: string)

  /** The four nested HMACs of Signature Version 4. */
  function Derive(mac: Mac, a: Args): string
  {
    mac(mac(mac(mac("AWS4" + a.secret, a.date), a.region), a.service), "aws4_request")
  }

  /** A MAC chained over data: each MAC is the key of the next. */
  function Chain(mac: Mac, key: string, data: seq<string>): string
    decreases |data|
  {
    if data == [] then key else Chain(mac, mac(key, data[0]), data[1..])
  }

  lemma ChainFirst(mac: Mac, key: string, x: string, data: seq<string>)
    ensures Chain(mac, key, [x] + data) == Chain(mac, mac(key, x), data)
  {
    assert ([x] + data)[1..] == data;
  }

  lemma DeriveChain(mac: Mac, a: Args)
    ensures Derive(mac, a) == Chain(mac, "AWS4" + a.secret, [a.date, a.region, a.service, "aws4_request"])
  {
    var key := "AWS4" + a.secret;
    ChainFirst(mac, key, a.date, [a.region, a.service, "aws4_request"]);
    ChainFirst(mac, mac(key, a.date), a.region, [a.service, "aws4_request"]);
    ChainFirst(mac, mac(mac(key, a.date), a.region), a.service, ["aws4_request"]);
    ChainFirst(mac, mac(mac(mac(key, a.date), a.region), a.service), "aws4_request", []);
    assert [a.date] + [a.region, a.service, "aws4_request"] == [a.date, a.region, a.service, "aws4_request"];
    assert [a.region] + [a.service, "aws4_request"] == [a.region, a.service, "aws4_request"];
    assert [a.service] + ["aws4_request"] == [a.service, "aws4_request"] && ["aws4_request"] + [] == ["aws4_request"];
  }

  lemma SlashBefore(s: string, t: string)
    ensures s + ['/'] + t == s + ("/" + t)
  {
  }

  lemma SplitSuffix(s: string, t: string)
    requires Free(t, '/')
    ensures Split(s + ("/" + t), '/') == Split(s, '/') + [t]
  {
    SplitFree(t, '/');
    SlashBefore(s, t);
    SplitAppend(s, t, '/');
  }

  lemma Terminator()
    ensures Free("aws4_request", '/') && "/" + "aws4_request" == "/aws4_request"
  {
  }

  lemma ScopeParts(a: Args)
    requires SlashFree(a)
    ensures Split(a.date + "/" + a.region + "/" + a.service + "/aws4_request", '/') ==
        [a.date, a.region, a.service, "aws4_request"]
  {
    Fields(a);
    Terminator();
    SplitSuffix(CacheKey(a), "aws4_request");
  }

  /** The signing key is the MAC chained from the secret over the parts of the scope that the
      request's credential announces. */
  lemma DeriveOverScope(mac: Mac, a: Args)
    requires SlashFree(a)
    ensures Derive(mac, a) == Chain(mac, "AWS4" + a.secret,
        Split(a.date + "/" + a.region + "/" + a.service + "/aws4_request", '/'))
  {
    DeriveChain(mac, a);
    ScopeParts(a);
  }

  /** What a key is stored under.  The secret is not part of it. */
  function CacheKey(a: Args): string { a.date + "/" + a.region + "/" + a.service }

  predicate SlashFree(a: Args) { Free(a.date, '/') && Free(a.region, '/') && Free(a.service, '/') }

  lemma Fields(a: Args)
    requires SlashFree(a)
    ensures Split(CacheKey(a), '/') == [a.date, a.region, a.service]
  {
    var parts := [a.date, a.region, a.service];
    assert parts[1..] == [a.region, a.service] && parts[1..][1..] == [a.service];
    assert Join(parts[1..], "/") == a.region + "/" + a.service;
    assert Join(parts, "/") == a.date + "/" + (a.region + "/" + a.service);
    assert CacheKey(a) == Join(parts, "/");
    SplitJoin(parts, '/');
  }

  /** Without slashes the joined key tells the three fields apart. */
  lemma CacheKeyInjective(a: Args, b: Args)
    requires SlashFree(a) && SlashFree(b)
    ensures CacheKey(a) == CacheKey(b) <==> a.date == b.date && a.region == b.region && a.service == b.service
  {
    Fields(a);
    Fields(b);
  }

  /** The cache holds, if anything, the key of some arguments with this secret. */
  ghost predicate Sound(mac: Mac, secret: string, cacheKey: string, signingKey: Option<string>)
  {
    signingKey.Some? ==>
      exists a :: SlashFree(a) && a.secret == secret && CacheKey(a) == cacheKey && signingKey.value == Derive(mac, a)
  }

  lemma HitIsRight(mac: Mac, secret: string, cacheKey: string, signingKey: Option<string>, a: Args)
    requires Sound(mac, secret, cacheKey, signingKey) && signingKey.Some?
    requires SlashFree(a) && a.secret == secret && CacheKey(a) == cacheKey
    ensures signingKey.value == Derive(mac, a)
  {
    var b :| SlashFree(b) && b.secret == secret && CacheKey(b) == cacheKey && signingKey.value == Derive(mac, b);
    CacheKeyInjective(a, b);
  }

  class SigningKeyCache {
    const mac: Mac
    var cacheKey: string
    var signingKey: Option<string>

    constructor (m: Mac)
      ensures mac == m && forall secret :: Sound(mac, secret, cacheKey, signingKey)
    {
      mac, cacheKey, signingKey := m, "", None;
    }

    method Get(secretKey: string, dateStamp: string, region: string, service: string) returns (r: string)
      modifies this
      ensures var a := Args(secretKey, dateStamp, region, service);
              r == if old(cacheKey) == CacheKey(a) &&
                  old(signingKey).Some? then old(signingKey).value else Derive(mac, a)
      ensures var a := Args(secretKey, dateStamp, region, service);
              SlashFree(a) && old(Sound(mac, secretKey, cacheKey, signingKey)) ==>
                r == Derive(mac, a) && Sound(mac, secretKey, cacheKey, signingKey)
      ensures Free(dateStamp + region + service, '/') && old(Sound(mac, secretKey, cacheKey, signingKey)) ==>
          r == Chain(mac, "AWS4" + secretKey, Split(dateStamp + "/" + region + "/" + service + "/aws4_request", '/'))
      ensures old(signingKey).None? || old(cacheKey) != dateStamp + "/" + region + "/" + service ==>
          r == Chain(mac, "AWS4" + secretKey, [dateStamp, region, service, "aws4_request"])
      ensures cacheKey == CacheKey(Args(secretKey, dateStamp, region, service)) && signingKey == Some(r)
    {
      ghost var a := Args(secretKey, dateStamp, region, service);
      DeriveChain(mac, a);
      if SlashFree(a) { DeriveOverScope(mac, a); }
      var key := dateStamp + "/" + region + "/" + service;
      if cacheKey == key && signingKey.Some? {
        if SlashFree(a) && Sound(mac, secretKey, cacheKey, signingKey) {
          HitIsRight(mac, secretKey, cacheKey, signingKey, a);
        }
        return signingKey.value;
      }
      r := mac(mac(mac(mac("AWS4" + secretKey, dateStamp), region), service), "aws4_request");
      cacheKey, signingKey := key, Some(r);
      assert CacheKey(a) == cacheKey && r == Derive(mac, a);
    }
  }

  // ---- Racing calls ----

  datatype Pc = Looking | Deriving | Storing(key: string) | Returned(key: string)

  datatype Thread = Thread(args: Args, pc: Pc)

  datatype State = State(cacheKey: string, signingKey: Option<string>, threads: seq<Thread>)

  predicate Enabled(s: State, t: nat) { t < |s.threads| && !s.threads[t].pc.Returned? }

  /** Thread t takes its next step: the lookup under the read lock, the derivation outside any
      lock, the store of both fields under the write lock. */
  function Next(mac: Mac, s: State, t: nat): State
    requires Enabled(s, t)
  {
    var th := s.threads[t];
    match th.pc
    case Looking =>
      s.(threads := s.threads[t := th.(pc :=
        if s.cacheKey == CacheKey(th.args) && s.signingKey.Some? then Returned(s.signingKey.value) else Deriving)])
    case Deriving => s.(threads := s.threads[t := th.(pc := Storing(Derive(mac, th.args)))])
    case Storing(key) => State(CacheKey(th.args), Some(key), s.threads[t := th.(pc := Returned(key))])
    case Returned(_) => s
  }

  predicate Follows(mac: Mac, s: State, ts: seq<nat>)
    decreases |ts|
  {
    ts != [] ==> Enabled(s, ts[0]) && Follows(mac, Next(mac, s, ts[0]), ts[1..])
  }

  function After(mac: Mac, s: State, ts: seq<nat>): State
    requires Follows(mac, s, ts)
    decreases |ts|
  {
    if ts == [] then s else After(mac, Next(mac, s, ts[0]), ts[1..])
  }

  ghost predicate Inv(mac: Mac, secret: string, s: State)
  {
    && Sound(mac, secret, s.cacheKey, s.signingKey)
    && forall t :: 0 <= t < |s.threads| ==> Right(mac, secret, s.threads[t])
  }

  predicate Right(mac: Mac, secret: string, th: Thread)
  {
    && SlashFree(th.args) && th.args.secret == secret
    && (th.pc.Storing? || th.pc.Returned? ==> th.pc.key == Derive(mac, th.args))
  }

  lemma InvStep(mac: Mac, secret: string, s: State, t: nat)
    requires Inv(mac, secret, s) && Enabled(s, t)
    ensures Inv(mac, secret, Next(mac, s, t))
  {
    var th := s.threads[t];
    assert Right(mac, secret, th);
    if th.pc.Looking? && s.cacheKey == CacheKey(th.args) && s.signingKey.Some? {
      HitIsRight(mac, secret, s.cacheKey, s.signingKey, th.args);
    }
    if th.pc.Storing? {
      assert SlashFree(th.args) && th.pc.key == Derive(mac, th.args);
    }
    assert Right(mac, secret, Next(mac, s, t).threads[t]);
  }

  /** With one secret and no slashes, every call returns the key of its own arguments, in every
      interleaving of any number of calls, racing misses included. */
  lemma {:induction false} EveryCallIsRight(mac: Mac, secret: string, s: State, ts: seq<nat>, t: nat)
    requires Inv(mac, secret, s) && Follows(mac, s, ts) && t < |s.threads|
    ensures var e := After(mac, s, ts);
            |e.threads| == |s.threads| && e.threads[t].args == s.threads[t].args
            && (e.threads[t].pc.Returned? ==> e.threads[t].pc.key == Derive(mac, s.threads[t].args))
    ensures var a := s.threads[t].args; var e := After(mac, s, ts);
            e.threads[t].pc.Returned? ==>
              e.threads[t].pc.key == Chain(mac, "AWS4" + secret,
                  Split(a.date + "/" + a.region + "/" + a.service + "/aws4_request", '/'))
    decreases |ts|
  {
    if ts == [] {
      assert Right(mac, secret, s.threads[t]);
      DeriveOverScope(mac, s.threads[t].args);
    } else {
      InvStep(mac, secret, s, ts[0]);
      EveryCallIsRight(mac, secret, Next(mac, s, ts[0]), ts[1..], t);
    }
  }

  // ---- The exact condition ----

  /** These calls are about to begin, on an empty cache. */
  function Calls(args: seq<Args>): (s: State)
    ensures |s.threads| == |args| && forall t :: 0 <= t < |args| ==> s.threads[t] == Thread(args[t], Looking)
  {
    State("", None, seq(|args|, t requires 0 <= t < |args| => Thread(args[t], Looking)))
  }

  /** Calls that share a joined key derive one signing key. */
  ghost predicate Agreeing(mac: Mac, args: seq<Args>)
  {
    forall i, j :: 0 <= i < |args| && 0 <= j < |args| && CacheKey(args[i]) == CacheKey(args[j]) ==>
      Derive(mac, args[i]) == Derive(mac, args[j])
  }

  /** The cache holds the key of one of the calls, and what a call has in hand is its own. */
  ghost predicate Held(mac: Mac, args: seq<Args>, s: State)
  {
    && |s.threads| == |args|
    && (s.signingKey.Some? ==> exists i :: 0 <= i < |args| && Holds(mac, args[i], s))
    && forall t :: 0 <= t < |args| ==> Own(mac, args[t], s.threads[t])
  }

  predicate Holds(mac: Mac, a: Args, s: State) { CacheKey(a) == s.cacheKey && s.signingKey == Some(Derive(mac, a)) }

  predicate Own(mac: Mac, a: Args, th: Thread)
  {
    th.args == a && (th.pc.Storing? || th.pc.Returned? ==> th.pc.key == Derive(mac, a))
  }

  lemma HeldStep(mac: Mac, args: seq<Args>, s: State, t: nat)
    requires Agreeing(mac, args) && Held(mac, args, s) && Enabled(s, t)
    ensures Held(mac, args, Next(mac, s, t))
  {
    var u := Next(mac, s, t);
    assert Own(mac, args[t], s.threads[t]);
    if s.threads[t].pc.Storing? {
      assert Holds(mac, args[t], u);
    } else if s.signingKey.Some? {
      var i :| 0 <= i < |args| && Holds(mac, args[i], s);
      assert Holds(mac, args[i], u);
    }
    assert Own(mac, args[t], u.threads[t]);
  }

  lemma {:induction false} HeldAlong(mac: Mac, args: seq<Args>, s: State, ts: seq<nat>)
    requires Agreeing(mac, args) && Held(mac, args, s) && Follows(mac, s, ts)
    ensures Held(mac, args, After(mac, s, ts))
    decreases |ts|
  {
    if ts != [] {
      HeldStep(mac, args, s, ts[0]);
      HeldAlong(mac, args, Next(mac, s, ts[0]), ts[1..]);
    }
  }

  /** After these steps every call that has returned has returned its own key. */
  ghost predicate AllRight(mac: Mac, args: seq<Args>, ts: seq<nat>)
  {
    Follows(mac, Calls(args), ts) ==>
      var s := After(mac, Calls(args), ts);
      |s.threads| == |args| && forall t :: 0 <= t < |args| ==> Own(mac, args[t], s.threads[t])
  }

  /** A call that comes after another with the same joined key is given the other's signing key,
      whatever its own arguments. */
  lemma SecondCallServed(mac: Mac, args: seq<Args>, i: nat, j: nat)
    requires i < |args| && j < |args| && i != j && CacheKey(args[i]) == CacheKey(args[j])
    ensures var ts := [i, i, i, j];
            && Follows(mac, Calls(args), ts) && |After(mac, Calls(args), ts).threads| == |args|
            && After(mac, Calls(args), ts).threads[j].pc == Returned(Derive(mac, args[i]))
  {
    var s0 := Calls(args);
    var s1 := Next(mac, s0, i);
    var s2 := Next(mac, s1, i);
    var s3 := Next(mac, s2, i);
    var s4 := Next(mac, s3, j);
    var ts: seq<nat> := [i, i, i, j];
    assert ts[1..] == [i, i, j] && ts[1..][1..] == [i, j] && ts[1..][1..][1..] == [j] && ts[1..][1..][1..][1..] == [];
    assert Follows(mac, s3, ts[1..][1..][1..]) && After(mac, s3, ts[1..][1..][1..]) == s4;
    assert Follows(mac, s2, ts[1..][1..]) && After(mac, s2, ts[1..][1..]) == s4;
    assert Follows(mac, s1, ts[1..]) && After(mac, s1, ts[1..]) == s4;
  }

  /** The calls are all served right, in every interleaving, exactly when those that share a joined
      key derive one signing key. */
  lemma ServedExactly(mac: Mac, args: seq<Args>)
    ensures (forall ts :: AllRight(mac, args, ts)) <==> Agreeing(mac, args)
  {
    if Agreeing(mac, args) {
      forall ts ensures AllRight(mac, args, ts) {
        if Follows(mac, Calls(args), ts) { HeldAlong(mac, args, Calls(args), ts); }
      }
    } else {
      var i, j :| 0 <= i < |args| && 0 <= j < |args| && CacheKey(args[i]) == CacheKey(args[j])
                  && Derive(mac, args[i]) != Derive(mac, args[j]);
      SecondCallServed(mac, args, i, j);
      assert !AllRight(mac, args, [i, i, i, j]);
    }
  }

  /** Two secrets share a joined key, and so do different fields with
      a slash in them. */
  lemma SharedCacheKeys(secret: string, other: string)
    ensures CacheKey(Args(secret, "d", "r", "s")) == CacheKey(Args(other, "d", "r", "s"))
    ensures CacheKey(Args(secret, "d", "r/s", "t")) == CacheKey(Args(secret, "d", "r", "s/t"))
  {
  }
}
