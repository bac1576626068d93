/** The canonical header strings (downloader/signer.go, getCanonicalHeaders). */
module Headers {
  import opened Strings
  import opened Order
  import opened Query
  import opened Signer

  type Header = map<string, seq<string>>

  function LowerChar(c: char): char
  {
    if 'A' <= c <= 'Z' then (c as int + 32) as char else c
  }

  /** strings.ToLower, on the ASCII names headers have. */
  function Lower(s: string): string { seq(|s|, i requires 0 <= i < |s| => LowerChar(s[i])) }

  predicate Space(c: char) { c == ' ' || c == '\t' || c == '\n' || c == '\r' || c as int == 11 || c as int == 12 }

  /** strings.TrimSpace, for ASCII white space. */
  function TrimSpace(s: string): string
  {
    if s != "" && Space(s[0]) then TrimSpace(s[1..])
    else if s != "" && Space(s[|s| - 1]) then TrimSpace(s[..|s| - 1])
    else s
  }

  /** Signed: the host and every header named x-amz-. */
  predicate Amz(name: string) { "x-amz-" <= Lower(name) }

  /** Every header that is signed has a value; the code panics on one that has none. */
  predicate Filled(header: Header) { forall k :: k in header && Amz(k) ==> header[k] != [] }

  /** headerKeys after the range loop has seen these names in this order. */
  function KeysSeen(order: seq<string>): seq<string>
  {
    if order == [] then ["host"]
    else
      var n := |order| - 1;
      KeysSeen(order[..n]) + (if Amz(order[n]) then [Lower(order[n])] else [])
  }

  /** headerMap at that point. */
  function MapSeen(header: Header, host: string, order: seq<string>): map<string, string>
    requires Filled(header) && forall k :: k in order ==> k in header
  {
    if order == [] then map["host" := host]
    else
      var n := |order| - 1;
      var m := MapSeen(header, host, order[..n]);
      if Amz(order[n]) then m[Lower(order[n]) := TrimSpace(header[order[n]][0])] else m
  }

  function Lines(keys: seq<string>, m: map<string, string>): string
    requires forall k :: k in keys ==> k in m
  {
    if keys == [] then ""
    else Lines(keys[..|keys| - 1], m) + keys[|keys| - 1] + ":" + m[keys[|keys| - 1]] + "\n"
  }

  /** The order is one in which a range loop can yield the header's names. */
  ghost predicate Ranges(order: seq<string>, header: Header)
  {
    Distinct(order) && forall k :: k in order <==> k in header
  }

  /** The range loop over the header. */
  method CollectHeaders(header: Header, host: string)
    returns (headerKeys: seq<string>, headerMap: map<string, string>, ghost order: seq<string>)
    requires Filled(header)
    ensures Ranges(order, header)
    ensures headerKeys == KeysSeen(order) && headerMap == MapSeen(header, host, order)
  {
    headerMap := map["host" := host];
    headerKeys := ["host"];
    var names := RangeKeys(header);
    order := names;
    for i := 0 to |names|
      invariant headerKeys == KeysSeen(names[..i]) && headerMap == MapSeen(header, host, names[..i])
    {
      assert names[..i + 1][..i] == names[..i] && names[i] in header;
      var lk := Lower(names[i]);
      if "x-amz-" <= lk {
        headerMap := headerMap[lk := TrimSpace(header[names[i]][0])];
        headerKeys := headerKeys + [lk];
      }
    }
    assert names[..|names|] == names;
  }

  /** The loop over the sorted names. */
  method WriteLines(headerKeys: seq<string>, headerMap: map<string, string>) returns (lines: string)
    requires forall k :: k in headerKeys ==> k in headerMap
    ensures lines == Lines(headerKeys, headerMap)
  {
    lines := "";
    for i := 0 to |headerKeys|
      invariant lines == Lines(headerKeys[..i], headerMap)
    {
      assert headerKeys[..i + 1][..i] == headerKeys[..i] && headerKeys[i] in headerMap;
      lines := lines + headerKeys[i] + ":" + headerMap[headerKeys[i]] + "\n";
    }
    assert headerKeys[..|headerKeys|] == headerKeys;
  }

  /** The strings are those of some order of the range loop. */
  method GetCanonicalHeaders(header: Header, reqHost: string) returns (signedHeaders: string, canonicalHeaders: string)
    requires Filled(header)
    ensures exists order ::
              && Ranges(order, header) && signedHeaders == Signed(order)
              && canonicalHeaders == CanonicalLines(header, HostOf(header, reqHost), order)
    ensures forall host, date :: header == RequestHeader(host, date) ==>
        && signedHeaders == "host" + ";" + ("x-amz-content-sha256" + ";" + "x-amz-date")
        && canonicalHeaders == "host:" + (if host == "" then reqHost else host) + "\n" +
             "x-amz-content-sha256:UNSIGNED-PAYLOAD\n" + "x-amz-date:" + TrimSpace(date) + "\n"
  {
    var host := if "Host" in header && header["Host"] != [] then header["Host"][0] else "";
    if host == "" {
      host := reqHost;
    }
    var headerKeys, headerMap;
    ghost var order;
    headerKeys, headerMap, order := CollectHeaders(header, host);
    SeenTogether(header, host, order);
    SortHasSame(headerKeys);
    headerKeys := Sort(Leq, headerKeys);
    canonicalHeaders := WriteLines(headerKeys, headerMap);
    signedHeaders := Join(headerKeys, ";");
    forall h, date | header == RequestHeader(h, date)
      ensures signedHeaders == "host" + ";" + ("x-amz-content-sha256" + ";" + "x-amz-date")
      ensures canonicalHeaders == "host:" + (if h == "" then reqHost else h) + "\n" +
          "x-amz-content-sha256:UNSIGNED-PAYLOAD\n" + "x-amz-date:" + TrimSpace(date) + "\n"
    {
      RequestStrings(h, date, reqHost, order);
    }
  }

  function HostOf(header: Header, reqHost: string): string
  {
    if "Host" in header && header["Host"] != [] && header["Host"][0] != "" then header["Host"][0] else reqHost
  }

  lemma SortHasSame(keys: seq<string>)
    ensures forall k :: k in Sort(Leq, keys) <==> k in keys
  {
    StringsOrdered();
    SortKeeps(Leq, keys);
    forall k ensures k in Sort(Leq, keys) <==> k in keys {
      assert k in Sort(Leq, keys) <==> k in multiset(Sort(Leq, keys));
      assert k in keys <==> k in multiset(keys);
    }
  }

  lemma {:induction false} SeenTogether(header: Header, host: string, order: seq<string>)
    requires Filled(header) && forall k :: k in order ==> k in header
    ensures forall k :: k in KeysSeen(order) ==> k in MapSeen(header, host, order)
  {
    if order != [] { SeenTogether(header, host, order[..|order| - 1]); }
  }

  function Signed(order: seq<string>): string { Join(Sort(Leq, KeysSeen(order)), ";") }

  function CanonicalLines(header: Header, host: string, order: seq<string>): string
    requires Filled(header) && forall k :: k in order ==> k in header
  {
    SeenTogether(header, host, order);
    SortHasSame(KeysSeen(order));
    Lines(Sort(Leq, KeysSeen(order)), MapSeen(header, host, order))
  }

  // ---- Independence of the iteration order ----

  /** Signed headers whose names differ only in case have the same value to sign. */
  predicate Agreeing(header: Header)
  {
    forall j, k :: j in header && k in header && Amz(j) && Amz(k) && Lower(j) == Lower(k) ==>
      header[j] != [] && header[k] != [] && TrimSpace(header[j][0]) == TrimSpace(header[k][0])
  }

  /** The names seen: the host, and each signed name in lower case. */
  predicate Seen(order: seq<string>, lk: string)
  {
    lk == "host" || exists k :: k in order && Amz(k) && Lower(k) == lk
  }

  lemma {:induction false} SeenKeys(header: Header, host: string, order: seq<string>)
    requires Filled(header) && forall k :: k in order ==> k in header
    ensures forall lk :: lk in KeysSeen(order) <==> Seen(order, lk)
    ensures forall lk :: lk in MapSeen(header, host, order) <==> Seen(order, lk)
  {
    if order != [] {
      var n := |order| - 1;
      SeenKeys(header, host, order[..n]);
      forall lk ensures Seen(order, lk) <==> Seen(order[..n], lk) || (Amz(order[n]) && lk == Lower(order[n])) {
        assert order == order[..n] + [order[n]];
      }
    }
  }

  /** With agreeing headers the map holds every signed header's value, and the host. */
  lemma {:induction false} SeenValues(header: Header, host: string, order: seq<string>)
    requires Filled(header) && (forall k :: k in order ==> k in header) && Agreeing(header)
    ensures var m := MapSeen(header, host, order);
            && "host" in m && m["host"] == host
            && forall k :: k in order && Amz(k) ==> Lower(k) in m && m[Lower(k)] == TrimSpace(header[k][0])
  {
    if order != [] {
      var n := |order| - 1;
      SeenValues(header, host, order[..n]);
      assert forall k :: k in order <==> k in order[..n] || k == order[n];
      assert "host"[0] == 'h';
      if Amz(order[n]) { assert Lower(order[n])[..6] == "x-amz-" && Lower(order[n])[0] == 'x'; }
    }
  }

  lemma SameMap(header: Header, host: string, a: seq<string>, b: seq<string>)
    requires Filled(header) && Ranges(a, header) && Ranges(b, header) && Agreeing(header)
    ensures MapSeen(header, host, a) == MapSeen(header, host, b)
  {
    SeenKeys(header, host, a);
    SeenKeys(header, host, b);
    SeenValues(header, host, a);
    SeenValues(header, host, b);
    var m, l := MapSeen(header, host, a), MapSeen(header, host, b);
    assert forall lk :: Seen(a, lk) <==> Seen(b, lk);
    assert m.Keys == l.Keys;
    forall lk | lk in m ensures m[lk] == l[lk] {
      if lk != "host" {
        var k :| k in a && Amz(k) && Lower(k) == lk;
        assert k in b;
      }
    }
  }

  /** The signed names that become lk. */
  function Spellings(order: seq<string>, lk: string): set<string>
  {
    set k | k in order && Amz(k) && Lower(k) == lk
  }

  lemma OneMoreSpelling(front: seq<string>, name: string, lk: string)
    requires name !in front
    ensures |Spellings(front + [name], lk)| == |Spellings(front, lk)| + if Amz(name) && Lower(name) == lk then 1 else 0
  {
    if Amz(name) && Lower(name) == lk {
      assert Spellings(front + [name], lk) == Spellings(front, lk) + {name};
    } else {
      assert Spellings(front + [name], lk) == Spellings(front, lk);
    }
  }

  lemma CountLast<T>(s: seq<T>, x: T, y: T)
    ensures multiset(s + [x])[y] == multiset(s)[y] + if x == y then 1 else 0
  {
  }

  /** Each name is collected as often as it has spellings. */
  lemma {:induction false} CountSeen(order: seq<string>, lk: string)
    requires Distinct(order)
    ensures multiset(KeysSeen(order))[lk] == (if lk == "host" then 1 else 0) + |Spellings(order, lk)|
  {
    if order == [] {
      assert Spellings(order, lk) == {};
    } else {
      var n := |order| - 1;
      var front, name := order[..n], order[n];
      CountSeen(front, lk);
      assert order == front + [name];
      OneMoreSpelling(front, name, lk);
      CountLast(KeysSeen(front), Lower(name), lk);
    }
  }

  predicate SameStrings(header: Header, host: string, a: seq<string>, b: seq<string>)
    requires Filled(header) && (forall k :: k in a ==> k in header) && (forall k :: k in b ==> k in header)
  {
    Signed(a) == Signed(b) && CanonicalLines(header, host, a) == CanonicalLines(header, host, b)
  }

  lemma SameKeys(header: Header, a: seq<string>, b: seq<string>)
    requires Ranges(a, header) && Ranges(b, header)
    ensures Sort(Leq, KeysSeen(a)) == Sort(Leq, KeysSeen(b))
  {
    forall lk ensures multiset(KeysSeen(a))[lk] == multiset(KeysSeen(b))[lk] {
      CountSeen(a, lk);
      CountSeen(b, lk);
      assert Spellings(a, lk) == Spellings(b, lk);
    }
    StringsOrdered();
    SortForgetsOrder(Leq, KeysSeen(a), KeysSeen(b));
  }

  // ---- And what happens without agreement ----

  lemma {:induction false} SomeOrder(names: set<string>) returns (order: seq<string>)
    ensures Distinct(order) && forall k :: k in order <==> k in names
    decreases |names|
  {
    if names == {} {
      order := [];
    } else {
      var k :| k in names;
      var rest := SomeOrder(names - {k});
      order := rest + [k];
    }
  }

  ghost predicate Lined(keys: seq<string>, m: map<string, string>, lk: string)
  {
    forall k :: k in keys ==> k in m || k == lk
  }

  lemma {:induction false} LinesGrow(keys: seq<string>, m: map<string, string>, lk: string, v: string, w: string)
    requires Lined(keys, m, lk) && |v| <= |w|
    ensures |Lines(keys, m[lk := v])| <= |Lines(keys, m[lk := w])|
    ensures |v| == |w| ==> |Lines(keys, m[lk := v])| == |Lines(keys, m[lk := w])|
    ensures |v| < |w| && lk in keys ==> |Lines(keys, m[lk := v])| < |Lines(keys, m[lk := w])|
  {
    if keys != [] {
      LinesGrow(keys[..|keys| - 1], m, lk, v, w);
    }
  }

  lemma {:induction false} SameLength(keys: seq<string>, m: map<string, string>, lk: string, v: string, w: string)
    requires Lined(keys, m, lk) && lk in keys && |v| == |w| && Lines(keys, m[lk := v]) == Lines(keys, m[lk := w])
    ensures v == w
  {
    var n := |keys| - 1;
    var front, last := keys[..n], keys[n];
    LinesGrow(front, m, lk, v, w);
    var a, b := Lines(front, m[lk := v]), Lines(front, m[lk := w]);
    var x, y := Lines(keys, m[lk := v]), Lines(keys, m[lk := w]);
    if last == lk {
      assert v == x[|a| + |lk| + 1..|x| - 1];
      assert w == y[|b| + |lk| + 1..|y| - 1];
    } else {
      assert a == x[..|a|] && b == y[..|b|];
      assert keys == front + [last];
      SameLength(front, m, lk, v, w);
    }
  }

  /** The lines tell the values apart. */
  lemma LinesTell(keys: seq<string>, m: map<string, string>, lk: string, v: string, w: string)
    requires Lined(keys, m, lk) && lk in keys && Lines(keys, m[lk := v]) == Lines(keys, m[lk := w])
    ensures v == w
  {
    if |v| <= |w| { LinesGrow(keys, m, lk, v, w); } else { LinesGrow(keys, m, lk, w, v); }
    SameLength(keys, m, lk, v, w);
  }

  lemma TwoLast(header: Header, host: string, rest: seq<string>, j: string, k: string)
    requires Filled(header) && (forall n :: n in rest ==> n in header) && j in header && k in header
    requires Amz(j) && Amz(k) && Lower(j) == Lower(k)
    ensures KeysSeen(rest + [j, k]) == KeysSeen(rest) + [Lower(j), Lower(j)]
    ensures MapSeen(header, host, rest + [j, k]) == MapSeen(header, host, rest)[Lower(j) := TrimSpace(header[k][0])]
  {
    assert (rest + [j, k])[..|rest| + 1] == rest + [j] && (rest + [j])[..|rest|] == rest;
    assert (rest + [j])[|rest|] == j && (rest + [j, k])[|rest| + 1] == k;
  }

  lemma ClashLined(header: Header, host: string, rest: seq<string>, j: string, k: string)
    requires Filled(header) && (forall n :: n in rest ==> n in header) && j in header && k in header
    requires Amz(j) && Amz(k) && Lower(j) == Lower(k)
    ensures var keys := Sort(Leq, KeysSeen(rest + [j, k]));
            Lower(j) in keys && Lined(keys, MapSeen(header, host, rest), Lower(j))
  {
    TwoLast(header, host, rest, j, k);
    SeenKeys(header, host, rest);
    var seen := KeysSeen(rest + [j, k]);
    SortHasSame(seen);
    assert seen[|KeysSeen(rest)|] == Lower(j);
    forall n | n in seen ensures n in MapSeen(header, host, rest) || n == Lower(j) {
      assert n in KeysSeen(rest) || n == Lower(j);
    }
  }

  lemma SwappedTell(header: Header, host: string, rest: seq<string>, j: string, k: string)
    requires Filled(header) && (forall n :: n in rest ==> n in header) && j in header && k in header
    requires Amz(j) && Amz(k) && Lower(j) == Lower(k)
    requires CanonicalLines(header, host, rest + [j, k]) == CanonicalLines(header, host, rest + [k, j])
    ensures TrimSpace(header[j][0]) == TrimSpace(header[k][0])
  {
    TwoLast(header, host, rest, j, k);
    TwoLast(header, host, rest, k, j);
    ClashLined(header, host, rest, j, k);
    LinesTell(Sort(Leq, KeysSeen(rest + [j, k])), MapSeen(header, host, rest), Lower(j),
              TrimSpace(header[k][0]), TrimSpace(header[j][0]));
  }

  /** Two names that clash and disagree: ranged over last, one or the other is signed. */
  lemma OrderMatters(header: Header, host: string, j: string, k: string) returns (a: seq<string>, b: seq<string>)
    requires Filled(header) && j in header && k in header && Amz(j) && Amz(k) && Lower(j) == Lower(k)
    requires TrimSpace(header[j][0]) != TrimSpace(header[k][0])
    ensures Ranges(a, header) && Ranges(b, header) && !SameStrings(header, host, a, b)
  {
    var rest := SomeOrder(header.Keys - {j, k});
    a, b := rest + [j, k], rest + [k, j];
    assert Ranges(a, header) && Ranges(b, header);
    if SameStrings(header, host, a, b) {
      SwappedTell(header, host, rest, j, k);
    }
  }

  /** The header strings are the same whatever order the map is ranged over in, exactly when signed
      headers whose names differ only in case agree. */
  lemma OrderDoesNotMatter(header: Header, host: string)
    requires Filled(header)
    ensures (forall a, b :: Ranges(a, header) && Ranges(b, header) ==>
        SameStrings(header, host, a, b)) <==> Agreeing(header)
  {
    if Agreeing(header) {
      forall a, b | Ranges(a, header) && Ranges(b, header)
        ensures SameStrings(header, host, a, b)
      {
        SameKeys(header, a, b);
        SameMap(header, host, a, b);
      }
    } else {
      var j, k :| j in header && k in header && Amz(j) && Amz(k) && Lower(j) == Lower(k)
                  && TrimSpace(header[j][0]) != TrimSpace(header[k][0]);
      var a, b := OrderMatters(header, host, j, k);
    }
  }

  /** No two signed headers have names that differ only in case. */
  predicate LowerDistinct(header: Header)
  {
    forall j, k :: j in header && k in header && Amz(j) && Amz(k) && Lower(j) == Lower(k) ==> j == k
  }

  lemma {:induction false} KeysDistinct(header: Header, order: seq<string>)
    requires Distinct(order) && (forall k :: k in order ==> k in header) && Filled(header) && LowerDistinct(header)
    ensures Distinct(KeysSeen(order))
  {
    if order != [] {
      var n := |order| - 1;
      var front, name := order[..n], order[n];
      KeysDistinct(header, front);
      SeenKeys(header, "", front);
      assert "host"[0] == 'h';
      if Amz(name) {
        assert Lower(name)[..6] == "x-amz-" && Lower(name)[0] == 'x';
        assert name !in front;
        assert Lower(name) !in KeysSeen(front);
      }
    }
  }

  /** With names that differ in more than case, they come out strictly ascending. */
  lemma StrictlyAscending(header: Header, host: string, order: seq<string>)
    requires Filled(header) && Ranges(order, header) && LowerDistinct(header)
    ensures var keys := Sort(Leq, KeysSeen(order));
            forall i, j :: 0 <= i < j < |keys| ==> Leq(keys[i], keys[j]) && keys[i] != keys[j]
  {
    KeysDistinct(header, order);
    SortedKeys(KeysSeen(order));
  }

  /** The names signed are the host and the lower-cased names that begin with x-amz-. */
  lemma SignedNames(header: Header, order: seq<string>, lk: string)
    requires Filled(header) && Ranges(order, header)
    ensures lk in Sort(Leq, KeysSeen(order)) <==>
        lk == "host" || ("x-amz-" <= lk && exists k :: k in header && Lower(k) == lk)
  {
    SeenKeys(header, "", order);
    SortHasSame(KeysSeen(order));
  }

  // ---- The strings of a request ----

  lemma LowerLetters(i: nat)
    requires i < 26
    ensures LowerChar("ABCDEFGHIJKLMNOPQRSTUVWXYZ"[i]) == "abcdefghijklmnopqrstuvwxyz"[i]
  {
  }

  predicate White(s: string)
  {
    forall i :: 0 <= i < |s| ==> s[i] in [' ', '\t', '\n', '\r', 11 as char, 12 as char]
  }

  lemma {:induction false} TrimFront(a: string, u: string)
    requires White(a)
    ensures TrimSpace(a + u) == TrimSpace(u)
  {
    if a == "" {
      assert a + u == u;
    } else {
      assert (a + u)[1..] == a[1..] + u;
      TrimFront(a[1..], u);
    }
  }

  lemma {:induction false} TrimBack(t: string, b: string)
    requires White(b) && t != "" && !Space(t[0]) && !Space(t[|t| - 1])
    ensures TrimSpace(t + b) == t
  {
    if b == "" {
      assert t + b == t;
    } else {
      assert (t + b)[..|t + b| - 1] == t + b[..|b| - 1];
      TrimBack(t, b[..|b| - 1]);
    }
  }

  /** Trimming takes off the white space around a text, and nothing else. */
  lemma TrimExactly(a: string, t: string, b: string)
    requires White(a) && White(b) && (t == "" || (!White([t[0]]) && !White([t[|t| - 1]])))
    ensures TrimSpace(a + t + b) == t
  {
    assert a + t + b == a + (t + b);
    TrimFront(a, t + b);
    if t == "" {
      assert t + b == b + "";
      TrimFront(b, "");
    } else {
      TrimBack(t, b);
    }
  }

  /** The headers a request is signed with. */
  function RequestHeader(host: string, date: string): Header
  {
    map["Host" := [host], "X-Amz-Date" := [date], "X-Amz-Content-Sha256" := ["UNSIGNED-PAYLOAD"]]
  }

  const NAMES := ["Host", "X-Amz-Content-Sha256", "X-Amz-Date"]

  lemma LowerNames()
    ensures Lower("X-Amz-Date") == "x-amz-date" && Lower("X-Amz-Content-Sha256") == "x-amz-content-sha256"
    ensures !Amz("Host") && Amz("X-Amz-Date") && Amz("X-Amz-Content-Sha256")
  {
    assert Lower("Host")[0] == 'h';
    assert "x-amz-" <= "x-amz-date" && "x-amz-" <= "x-amz-content-sha256";
  }

  const SIGNED := ["host", "x-amz-content-sha256", "x-amz-date"]

  lemma NamesSeen()
    ensures KeysSeen(NAMES) == SIGNED
  {
    LowerNames();
    KeysLonger([], "Host");
    KeysLonger(["Host"], "X-Amz-Content-Sha256");
    KeysLonger(["Host", "X-Amz-Content-Sha256"], "X-Amz-Date");
    assert [] + ["Host"] == ["Host"] && ["Host"] + ["X-Amz-Content-Sha256"] == ["Host", "X-Amz-Content-Sha256"];
    assert ["Host", "X-Amz-Content-Sha256"] + ["X-Amz-Date"] == NAMES;
  }

  lemma KeysLonger(order: seq<string>, name: string)
    ensures KeysSeen(order + [name]) == KeysSeen(order) + (if Amz(name) then [Lower(name)] else [])
  {
    assert (order + [name])[..|order|] == order;
  }

  lemma SignedSorted()
    ensures Sorted(Leq, SIGNED)
  {
    HashBeforeDate();
    LeqFirst("host", "x-amz-content-sha256");
    LeqFirst("host", "x-amz-date");
    SortedThree("host", "x-amz-content-sha256", "x-amz-date");
  }

  lemma SortedThree(a: string, b: string, c: string)
    requires Leq(a, b) && Leq(a, c) && Leq(b, c)
    ensures Sorted(Leq, [a, b, c])
  {
  }

  lemma LeqFirst(a: string, b: string)
    requires a != "" && b != "" && a[0] < b[0]
    ensures Leq(a, b)
  {
  }

  lemma LeqAt(a: string, b: string, i: nat)
    requires i < |a| && i < |b| && (forall j :: 0 <= j < i ==> a[j] == b[j]) && a[i] < b[i]
    ensures Leq(a, b)
  {
    assert a[..i] == b[..i];
    LeqExactly(a, b);
  }

  lemma HashBeforeDate()
    ensures Leq("x-amz-content-sha256", "x-amz-date")
  {
    LeqAt("x-amz-content-sha256", "x-amz-date", 6);
  }

  lemma ValuesSeen(host: string, date: string, chosen: string)
    ensures var header := RequestHeader(host, date);
            && Filled(header) && Ranges(NAMES, header) && Agreeing(header)
            && (forall k :: k in NAMES ==> k in header)
            && MapSeen(header, chosen, NAMES) ==
                 map["host" := chosen, "x-amz-content-sha256" := "UNSIGNED-PAYLOAD", "x-amz-date" := TrimSpace(date)]
  {
    LowerNames();
    var header := RequestHeader(host, date);
    HashUntrimmed();
    MapLonger(header, chosen, [], "Host");
    MapLonger(header, chosen, ["Host"], "X-Amz-Content-Sha256");
    MapLonger(header, chosen, ["Host", "X-Amz-Content-Sha256"], "X-Amz-Date");
    assert [] + ["Host"] == ["Host"] && ["Host"] + ["X-Amz-Content-Sha256"] == ["Host", "X-Amz-Content-Sha256"];
    assert ["Host", "X-Amz-Content-Sha256"] + ["X-Amz-Date"] == NAMES;
    assert header["X-Amz-Content-Sha256"][0] == "UNSIGNED-PAYLOAD" && header["X-Amz-Date"][0] == date;
  }

  lemma HashUntrimmed()
    ensures TrimSpace("UNSIGNED-PAYLOAD") == "UNSIGNED-PAYLOAD"
  {
  }

  lemma MapLonger(header: Header, host: string, order: seq<string>, name: string)
    requires Filled(header) && name in header && forall k :: k in order ==> k in header
    ensures var m := MapSeen(header, host, order);
            MapSeen(header, host, order + [name]) ==
              if Amz(name) then m[Lower(name) := TrimSpace(header[name][0])] else m
  {
    assert (order + [name])[..|order|] == order;
  }

  lemma ThreeLines(m: map<string, string>)
    requires forall k :: k in SIGNED ==> k in m
    ensures Lines(SIGNED, m) == "host:" + m["host"] + "\n" + "x-amz-content-sha256:" + m["x-amz-content-sha256"] +
        "\n" + "x-amz-date:" + m["x-amz-date"] + "\n"
  {
    assert SIGNED[..2][..1] == SIGNED[..1] && SIGNED[..1][..0] == [];
    assert Lines(SIGNED[..1], m) == "host:" + m["host"] + "\n";
  }

  lemma SignedText()
    ensures Join(SIGNED, ";") == "host" + ";" + ("x-amz-content-sha256" + ";" + "x-amz-date")
  {
    var two := ["x-amz-content-sha256", "x-amz-date"];
    assert two[1..] == ["x-amz-date"];
    assert SIGNED[1..] == two;
  }

  lemma Regroup(lead: string, a: string, b: string, c: string, rest: string)
    ensures lead + a + b + c + rest == lead + (a + b + c) + rest
  {
  }

  lemma LinesText(host: string, date: string)
    ensures "host:" + host + "\n" + "x-amz-content-sha256:" + "UNSIGNED-PAYLOAD" + "\n" + "x-amz-date:" + date + "\n" ==
        "host:" + host + "\n" + "x-amz-content-sha256:UNSIGNED-PAYLOAD\n" + "x-amz-date:" + date + "\n"
  {
    Regroup("host:" + host + "\n", "x-amz-content-sha256:", "UNSIGNED-PAYLOAD", "\n", "x-amz-date:");
    assert "x-amz-content-sha256:" + "UNSIGNED-PAYLOAD" + "\n" == "x-amz-content-sha256:UNSIGNED-PAYLOAD\n";
  }

  lemma SameStringsAs(header: Header, host: string, a: seq<string>, b: seq<string>)
    requires Filled(header) && Agreeing(header) && Ranges(a, header) && Ranges(b, header)
    ensures Signed(a) == Signed(b) && CanonicalLines(header, host, a) == CanonicalLines(header, host, b)
  {
    OrderDoesNotMatter(header, host);
    assert SameStrings(header, host, a, b);
  }

  /** Whatever order the headers come in, these are the strings a request of this host and date is
      signed with. */
  lemma RequestStrings(host: string, date: string, reqHost: string, order: seq<string>)
    requires Ranges(order, RequestHeader(host, date))
    ensures Filled(RequestHeader(host, date))
    ensures Signed(order) == "host" + ";" + ("x-amz-content-sha256" + ";" + "x-amz-date")
    ensures CanonicalLines(RequestHeader(host, date), HostOf(RequestHeader(host, date), reqHost), order) ==
        "host:" + (if host == "" then reqHost else host) + "\n" +
        "x-amz-content-sha256:UNSIGNED-PAYLOAD\n" + "x-amz-date:" + TrimSpace(date) + "\n"
  {
    var header := RequestHeader(host, date);
    var chosen := if host == "" then reqHost else host;
    NamesSeen();
    SignedSorted();
    ValuesSeen(host, date, chosen);
    StringsOrdered();
    SortSorted(Leq, SIGNED);
    ThreeLines(MapSeen(header, chosen, NAMES));
    LinesText(chosen, TrimSpace(date));
    SameStringsAs(header, chosen, NAMES, order);
    SignedText();
  }
}
