/** The URLs of objects and listings (downloader/downloader.go, downloader/lister.go). */
module Urls {
  import opened Prelude
  import opened Strings
  import opened Order
  import opened Escaping
  import opened Query

  /** The loop that escapes each part in place. */
  method EscapeInPlace(mode: Mode, parts: array<string>)
    requires forall i :: 0 <= i < parts.Length ==> IsBytes(parts[i])
    modifies parts
    ensures parts[..] == EscapeAll(mode, old(parts[..]))
  {
    for i := 0 to parts.Length
      invariant forall j :: 0 <= j < i ==> parts[j] == Escape(mode, old(parts[j]))
      invariant forall j :: i <= j < parts.Length ==> parts[j] == old(parts[j])
    {
      parts[i] := Escape(mode, parts[i]);
    }
  }

  method EscapeBetweenSlashes(mode: Mode, s: string) returns (r: string)
    requires IsBytes(s)
    ensures r == EscapeSegments(mode, s)
  {
    SplitBytes(s, '/');
    var split := Split(s, '/');
    var parts := new string[|split|](i requires 0 <= i < |split| => split[i]);
    assert parts[..] == split;
    EscapeInPlace(mode, parts);
    r := Join(parts[..], "/");
  }

  /** The path of an object's URL, after the endpoint. */
  function ObjectPath(bucket: string, key: string): string
    requires IsBytes(bucket) && IsBytes(key)
  {
    Escape(PathSegment, bucket) + "/" + EscapeSegments(PathSegment, key)
  }

  /** A server at the endpoint that takes the path at its first slash, and decodes both parts, finds
      this bucket and this key, with as many segments as the key has. */
  ghost predicate NamesObject(url: string, endpoint: string, bucket: string, key: string)
  {
    exists b, k :: ObjectParts(url, endpoint, b, k, bucket, key)
  }

  predicate ObjectParts(url: string, endpoint: string, b: string, k: string, bucket: string, key: string)
  {
    && url == endpoint + "/" + b + "/" + k
    && Free(b, '/') && Unescape(PathSegment, b) == Some(bucket)
    && Unescape(PathSegment, k) == Some(key) && |Split(k, '/')| == |Split(key, '/')|
  }

  lemma PathsName(endpoint: string, bucket: string, key: string)
    requires IsBytes(bucket) && IsBytes(key)
    ensures NamesObject(endpoint + "/" + ObjectPath(bucket, key), endpoint, bucket, key)
  {
    var b, k := Escape(PathSegment, bucket), EscapeSegments(PathSegment, key);
    EscapeAlphabet(PathSegment, bucket, '/');
    RoundTrip(PathSegment, bucket);
    SegmentsRoundTrip(PathSegment, key);
    assert endpoint + "/" + (b + "/" + k) == endpoint + "/" + b + "/" + k;
    assert ObjectParts(endpoint + "/" + ObjectPath(bucket, key), endpoint, b, k, bucket, key);
  }

  /** A URL names one object. */
  lemma NamesOneObject(url: string, endpoint: string, b1: string, k1: string, b2: string, k2: string)
    requires NamesObject(url, endpoint, b1, k1) && NamesObject(url, endpoint, b2, k2)
    ensures b1 == b2 && k1 == k2
  {
    var b, k :| ObjectParts(url, endpoint, b, k, b1, k1);
    var c, l :| ObjectParts(url, endpoint, c, l, b2, k2);
    AfterEndpoint(endpoint, b, k);
    AfterEndpoint(endpoint, c, l);
    CutOnce(b, k, c, l);
  }

  lemma AfterEndpoint(endpoint: string, b: string, k: string)
    ensures (endpoint + "/" + b + "/" + k)[|endpoint| + 1..] == b + ['/'] + k
  {
  }

  lemma CutOnce(b: string, k: string, c: string, l: string)
    requires Free(b, '/') && Free(c, '/') && b + ['/'] + k == c + ['/'] + l
    ensures b == c && k == l
  {
    SplitFree(b, '/');
    SplitFree(c, '/');
    SplitAppend(b, k, '/');
    SplitAppend(c, l, '/');
    var s, t := [b] + Split(k, '/'), [c] + Split(l, '/');
    assert s[0] == t[0] && s[1..] == Split(k, '/') && t[1..] == Split(l, '/');
    JoinSplit(k, '/');
    JoinSplit(l, '/');
  }

  method BuildObjectURL(endpoint: string, bucket: string, key: string) returns (url: string)
    requires IsBytes(bucket) && IsBytes(key)
    ensures NamesObject(url, endpoint, bucket, key)
    ensures url == endpoint + "/" + ObjectPath(bucket, key)
  {
    var encodedKey := EscapeBetweenSlashes(PathSegment, key);
    url := endpoint + "/" + Escape(PathSegment, bucket) + "/" + encodedKey;
    assert url == endpoint + "/" + ObjectPath(bucket, key);
    PathsName(endpoint, bucket, key);
  }

  /** Two objects of one endpoint share a URL exactly when they are one object. */
  lemma ObjectURLsDistinct(endpoint: string, b1: string, k1: string, b2: string, k2: string)
    requires IsBytes(b1) && IsBytes(k1) && IsBytes(b2) && IsBytes(k2)
    ensures Unescape(PathSegment, EscapeSegments(PathSegment, k1)) == Some(k1)
    ensures endpoint + "/" + ObjectPath(b1, k1) == endpoint + "/" + ObjectPath(b2, k2) <==> b1 == b2 && k1 == k2
  {
    SegmentsRoundTrip(PathSegment, k1);
    PathsName(endpoint, b1, k1);
    PathsName(endpoint, b2, k2);
    if endpoint + "/" + ObjectPath(b1, k1) == endpoint + "/" + ObjectPath(b2, k2) {
      NamesOneObject(endpoint + "/" + ObjectPath(b1, k1), endpoint, b1, k1, b2, k2);
    }
  }

  // ---- Listings ----

  /** The parameters of a list request, in the order url.Values.Encode puts them, the prefix last. */
  function ListParams(prefix: string, token: string): seq<Pair>
  {
    Fixed(token) + (if prefix == "" then [] else [("prefix", prefix)])
  }

  function Fixed(token: string): seq<Pair>
  {
    (if token == "" then [] else [("continuation-token", token)]) + [("list-type", "2"), ("max-keys", "1000")]
  }

  /** Parameters that ask for a page of at most a thousand objects under the prefix, after the token,
      each once and no others. */
  predicate Asked(ps: seq<Pair>, prefix: string, token: string)
  {
    && |ps| == 2 + (if prefix == "" then 0 else 1) + (if token == "" then 0 else 1)
    && ("list-type", "2") in ps && ("max-keys", "1000") in ps
    && (prefix != "" ==> ("prefix", prefix) in ps)
    && (token != "" ==> ("continuation-token", token) in ps)
    && forall i :: 0 <= i < |ps| ==>
      || ps[i] == ("list-type", "2") || ps[i] == ("max-keys", "1000")
      || (prefix != "" && ps[i] == ("prefix", prefix)) || (token != "" && ps[i] == ("continuation-token", token))
  }

  lemma ParamsAsk(prefix: string, token: string)
    ensures Asked(ListParams(prefix, token), prefix, token)
  {
    var ps, n := ListParams(prefix, token), |Fixed(token)|;
    assert ps[n - 2] == ("list-type", "2") && ps[n - 1] == ("max-keys", "1000");
    if prefix != "" { assert ps[n] == ("prefix", prefix); }
    if token != "" { assert ps[0] == ("continuation-token", token); }
  }

  lemma FixedBytes(token: string)
    requires IsBytes(token)
    ensures AllBytes(Fixed(token))
    ensures Sorted(PairLeq, Fixed(token))
  {
    assert IsBytes("continuation-token") && IsBytes("list-type") && IsBytes("max-keys") && IsBytes("2") &&
        IsBytes("1000");
    assert Leq("continuation-token", "list-type") && Leq("list-type", "max-keys") &&
        Leq("continuation-token", "max-keys");
  }

  /** The query buildListURL makes: the fixed parameters encoded, then the prefix with its slashes literal. */
  function ListQuery(prefix: string, token: string): string
    requires IsBytes(prefix) && IsBytes(token)
  {
    FixedBytes(token);
    Render(Fixed(token)) + (if prefix == "" then "" else "&prefix=" + EscapeSegments(QueryComponent, prefix))
  }

  lemma {:induction false} JoinedFree(parts: seq<string>, c: char)
    requires c != '/' && AllFree(parts, c)
    ensures Free(Join(parts, "/"), c)
  {
    if |parts| > 1 { JoinedFree(parts[1..], c); }
  }

  lemma SegmentsFree(s: string, c: char)
    requires IsBytes(s) && !Keeps(QueryComponent, c) && c != '%' && c != '+' && c != '/'
    ensures Free(EscapeSegments(QueryComponent, s), c)
  {
    SplitBytes(s, '/');
    var es := EscapeAll(QueryComponent, Split(s, '/'));
    forall i | 0 <= i < |es| ensures Free(es[i], c) { EscapeAlphabet(QueryComponent, Split(s, '/')[i], c); }
    JoinedFree(es, c);
  }

  lemma PrefixPart(prefix: string)
    requires IsBytes(prefix)
    ensures var part := "prefix=" + EscapeSegments(QueryComponent, prefix);
            ParsePart(part) == [("prefix", prefix)] && Free(part, '&')
  {
    var e := EscapeSegments(QueryComponent, prefix);
    SegmentsFree(prefix, '&');
    SegmentsFree(prefix, ';');
    assert Free("prefix", '=') && Free("prefix=", '&') && Free("prefix=", ';');
    assert "prefix=" + e == "prefix" + "=" + e;
    CutFirst("prefix", e);
    SegmentsRoundTrip(QueryComponent, prefix);
    PlainWord();
  }

  lemma PlainWord()
    ensures Unescape(QueryComponent, "prefix") == Some("prefix")
  {
    assert IsBytes("prefix");
    RoundTrip(QueryComponent, "prefix");
    EscapeUnreserved(QueryComponent, "prefix");
  }

  /** One more parameter at the end of a query is one more parameter parsed. */
  lemma OneMorePart(query: string, part: string)
    requires Free(part, '&')
    ensures ParsePairs(query + "&" + part) == ParsePairs(query) + ParsePart(part)
  {
    SplitAppend(query, part, '&');
    SplitFree(part, '&');
    CollectAppend(Split(query, '&'), [part]);
    CollectOne(part);
  }

  lemma PrefixAppended(ps: seq<Pair>, prefix: string)
    requires AllBytes(ps) && IsBytes(prefix)
    ensures ParsePairs(Render(ps) + ("&prefix=" + EscapeSegments(QueryComponent, prefix))) == ps + [("prefix", prefix)]
  {
    var query, encoded := Render(ps), EscapeSegments(QueryComponent, prefix);
    ParseRender(ps);
    PrefixPart(prefix);
    OneMorePart(query, "prefix=" + encoded);
    PrefixText(query, encoded);
  }

  lemma PrefixText(query: string, encoded: string)
    ensures query + ("&prefix=" + encoded) == query + "&" + ("prefix=" + encoded)
  {
    assert "&prefix=" == "&" + "prefix=";
    Regroup(query, "&", "prefix=", encoded);
  }

  lemma Regroup(a: string, b: string, c: string, d: string)
    ensures a + (b + c + d) == a + b + (c + d)
  {
  }

  /** The server that parses a list request finds the parameters it was made from, the prefix
      among them; and the prefix's slashes, and no others, are literal. */
  lemma ListQueryParses(prefix: string, token: string)
    requires IsBytes(prefix) && IsBytes(token)
    ensures ParsePairs(ListQuery(prefix, token)) == ListParams(prefix, token)
    ensures Asked(ParsePairs(ListQuery(prefix, token)), prefix, token)
    ensures |Split(EscapeSegments(QueryComponent, prefix), '/')| == |Split(prefix, '/')|
  {
    SegmentsRoundTrip(QueryComponent, prefix);
    ParamsAsk(prefix, token);
    FixedBytes(token);
    var fixed := Fixed(token);
    if prefix == "" {
      ParseRender(fixed);
      assert ListQuery(prefix, token) == Render(fixed) + "" == Render(fixed);
      assert ListParams(prefix, token) == fixed + [] == fixed;
    } else {
      PrefixAppended(fixed, prefix);
    }
  }

  /** A server that takes the path up to the question mark and parses the query finds the bucket
      and the parameters of a listing. */
  ghost predicate AsksFor(url: string, endpoint: string, bucket: string, prefix: string, token: string)
  {
    exists b, q :: ListParts(url, endpoint, b, q, bucket) && Asked(ParsePairs(q), prefix, token)
  }

  predicate ListParts(url: string, endpoint: string, b: string, q: string, bucket: string)
  {
    && url == endpoint + "/" + b + "?" + q
    && Free(b, '/') && Free(b, '?') && Unescape(PathSegment, b) == Some(bucket)
  }

  lemma AsksIfParts(url: string, endpoint: string, b: string, q: string, bucket: string, prefix: string, token: string)
    requires ListParts(url, endpoint, b, q, bucket) && Asked(ParsePairs(q), prefix, token)
    ensures AsksFor(url, endpoint, bucket, prefix, token)
  {
  }

  lemma BucketPart(bucket: string)
    requires IsBytes(bucket)
    ensures var b := Escape(PathSegment, bucket);
            Free(b, '/') && Free(b, '?') && Unescape(PathSegment, b) == Some(bucket)
  {
    EscapeAlphabet(PathSegment, bucket, '/');
    EscapeAlphabet(PathSegment, bucket, '?');
    RoundTrip(PathSegment, bucket);
  }

  /** The query: params.Encode, and the prefix after it. */
  method BuildListQuery(prefix: string, continuationToken: string) returns (query: string)
    requires IsBytes(prefix) && IsBytes(continuationToken)
    ensures query == ListQuery(prefix, continuationToken)
    ensures Asked(ParsePairs(query), prefix, continuationToken)
  {
    ListQueryParses(prefix, continuationToken);
    FixedBytes(continuationToken);
    query := Render(Fixed(continuationToken));
    if prefix != "" {
      var encoded := EscapeBetweenSlashes(QueryComponent, prefix);
      query := query + ("&prefix=" + encoded);
    }
  }

  method BuildListURL(endpoint: string, bucket: string, prefix: string, continuationToken: string)
    returns (url: string)
    requires IsBytes(bucket) && IsBytes(prefix) && IsBytes(continuationToken)
    ensures AsksFor(url, endpoint, bucket, prefix, continuationToken)
    ensures url == endpoint + "/" + Escape(PathSegment, bucket) + "?" + ListQuery(prefix, continuationToken)
  {
    var query := BuildListQuery(prefix, continuationToken);
    url := endpoint + "/" + Escape(PathSegment, bucket) + "?" + query;
    BucketPart(bucket);
    AsksIfParts(url, endpoint, Escape(PathSegment, bucket), query, bucket, prefix, continuationToken);
  }
}
