/**
  Percent-encoding as Go's net/url does it: url.PathEscape, url.QueryEscape and their inverses
  (sections 2.1 and 2.3 of RFC 3986).  A Go string is a string of bytes; here characters below
  256 stand for them.
 */
module Escaping {
  import opened Hex
  import opened Prelude
  import opened Strings

  datatype Mode = PathSegment | QueryComponent

  predicate IsBytes(s: string) { forall i :: 0 <= i < |s| ==> s[i] as int < 256 }

  predicate Unreserved(c: char)
  {
    'a' <= c <= 'z' || 'A' <= c <= 'Z' || '0' <= c <= '9' || c == '-' || c == '_' || c == '.' || c == '~'
  }

  /** The characters that stand for themselves. */
  predicate Keeps(mode: Mode, c: char)
  {
    Unreserved(c) || (mode.PathSegment? && (c == '$' || c == '&' || c == '+' || c == ':' || c == '=' || c == '@'))
  }

  function EscapeChar(mode: Mode, c: char): (e: string)
    requires c as int < 256
    ensures e != ""
  {
    if Keeps(mode, c) then [c]
    else if mode.QueryComponent? && c == ' ' then "+"
    else ['%', Digit(c as int / 16, 'A'), Digit(c as int % 16, 'A')]
  }

  function Escape(mode: Mode, s: string): string
    requires IsBytes(s)
  {
    if s == "" then "" else EscapeChar(mode, s[0]) + Escape(mode, s[1..])
  }

  /** One byte: a letter, a digit or one of -_.~ stands for itself, in a path segment also one of
      $&+:=@; in a query a space becomes a plus sign; anything else becomes a percent sign and two
      capital digits. */
  lemma EscapeOne(mode: Mode, c: char)
    requires c as int < 256
    ensures Escape(mode, [c]) ==
      if 'a' <= c <= 'z' || 'A' <= c <= 'Z' || '0' <= c <= '9' || c == '-' || c == '_' || c == '.' || c == '~' then [c]
      else if mode == PathSegment && (c == '$' || c == '&' || c == '+' || c == ':' || c == '=' || c == '@') then [c]
      else if mode == QueryComponent && c == ' ' then "+"
      else ['%', CAPITALS[c as int / 16], CAPITALS[c as int % 16]]
  {
    assert [c][1..] == "" && EscapeChar(mode, c) + "" == EscapeChar(mode, c);
    DigitText(c as int / 16);
    DigitText(c as int % 16);
  }

  /** And a string is escaped byte by byte. */
  lemma {:induction false} EscapeAppend(mode: Mode, a: string, b: string)
    requires IsBytes(a) && IsBytes(b)
    ensures Escape(mode, a + b) == Escape(mode, a) + Escape(mode, b)
  {
    if a == "" {
      assert a + b == b;
    } else {
      assert (a + b)[1..] == a[1..] + b;
      EscapeAppend(mode, a[1..], b);
    }
  }

  /** So a string of unreserved characters (section 2.3 of RFC 3986) escapes to itself. */
  lemma {:induction false} EscapeUnreserved(mode: Mode, s: string)
    requires forall i :: 0 <= i < |s| ==>
        'a' <= s[i] <= 'z' || 'A' <= s[i] <= 'Z' || '0' <= s[i] <= '9' || s[i] in ['-', '_', '.', '~']
    ensures IsBytes(s) && Escape(mode, s) == s
  {
    if s != "" {
      EscapeOne(mode, s[0]);
      EscapeUnreserved(mode, s[1..]);
      EscapeAppend(mode, [s[0]], s[1..]);
      assert s == [s[0]] + s[1..];
    }
  }

  function Prepend(s: string, rest: Option<string>): Option<string>
  {
    if rest.None? then None else Some(s + rest.value)
  }

  /** None stands for an invalid escape. */
  function Unescape(mode: Mode, s: string): Option<string>
  {
    if s == "" then Some("")
    else if s[0] == '%' then
      if |s| < 3 || !IsHex(s[1]) || !IsHex(s[2]) then None
      else Prepend([(16 * Value(s[1]) + Value(s[2])) as char], Unescape(mode, s[3..]))
    else Prepend([if mode.QueryComponent? && s[0] == '+' then ' ' else s[0]], Unescape(mode, s[1..]))
  }

  /** A percent sign needs two hexadecimal digits after it, in either case of the letters; and with them
      stands for their byte. */
  lemma UnescapePercent(mode: Mode, a: char, b: char, rest: string)
    ensures Unescape(mode, "%") == None && Unescape(mode, ['%', a]) == None
    ensures Unescape(mode, ['%', a, b] + rest).Some? <==> IsHex(a) && IsHex(b) && Unescape(mode, rest).Some?
    ensures IsHex(a) && IsHex(b) && Unescape(mode, rest).Some? ==>
        Unescape(mode, ['%', a, b] + rest).value == [(16 * Value(a) + Value(b)) as char] + Unescape(mode, rest).value
  {
    assert (['%', a, b] + rest)[3..] == rest;
  }

  lemma UnescapeFirst(mode: Mode, c: char, rest: string)
    requires c as int < 256
    ensures Unescape(mode, EscapeChar(mode, c) + rest) == Prepend([c], Unescape(mode, rest))
  {
    var e := EscapeChar(mode, c);
    var s := e + rest;
    if |e| == 1 {
      assert s[1..] == rest;
    } else {
      assert s[3..] == rest;
      assert 16 * (c as int / 16) + c as int % 16 == c as int;
    }
  }

  lemma Reassociate(a: string, b: string, c: string)
    ensures (a + b) + c == a + (b + c)
  {
  }

  /** What was escaped unescapes to itself, whatever follows. */
  lemma {:induction false} UnescapeEscape(mode: Mode, s: string, rest: string)
    requires IsBytes(s)
    ensures Unescape(mode, Escape(mode, s) + rest) == Prepend(s, Unescape(mode, rest))
  {
    if s == "" {
      assert Escape(mode, s) + rest == rest;
      PrependEmpty(Unescape(mode, rest));
    } else {
      var tail := Escape(mode, s[1..]) + rest;
      UnescapeEscape(mode, s[1..], rest);
      UnescapeFirst(mode, s[0], tail);
      Reassociate(EscapeChar(mode, s[0]), Escape(mode, s[1..]), rest);
      PrependTwice(s, Unescape(mode, rest));
    }
  }

  lemma PrependEmpty(o: Option<string>)
    ensures Prepend("", o) == o
  {
    if o.Some? { assert "" + o.value == o.value; }
  }

  lemma PrependTwice(s: string, o: Option<string>)
    requires s != ""
    ensures Prepend([s[0]], Prepend(s[1..], o)) == Prepend(s, o)
  {
    if o.Some? { assert [s[0]] + (s[1..] + o.value) == s + o.value; }
  }

  lemma RoundTrip(mode: Mode, s: string)
    requires IsBytes(s)
    ensures Unescape(mode, Escape(mode, s)) == Some(s)
  {
    UnescapeEscape(mode, s, "");
    assert Escape(mode, s) + "" == Escape(mode, s) && s + "" == s;
  }

  /** Nothing that separates parts of a URL survives escaping: what comes out is made of kept
      characters, the percent sign and, in a query, the plus sign. */
  lemma {:induction false} EscapeAlphabet(mode: Mode, s: string, c: char)
    requires IsBytes(s) && !Keeps(mode, c) && c != '%' && (mode.QueryComponent? ==> c != '+')
    ensures Free(Escape(mode, s), c)
  {
    if s != "" { EscapeAlphabet(mode, s[1..], c); }
  }

  // ---- Escaping between slashes ----

  function EscapeAll(mode: Mode, parts: seq<string>): (es: seq<string>)
    requires forall i :: 0 <= i < |parts| ==> IsBytes(parts[i])
    ensures |es| == |parts| && forall i :: 0 <= i < |parts| ==> es[i] == Escape(mode, parts[i])
  {
    seq(|parts|, i requires 0 <= i < |parts| => Escape(mode, parts[i]))
  }

  lemma {:induction false} SplitBytes(s: string, sep: char)
    requires IsBytes(s)
    ensures forall i :: 0 <= i < |Split(s, sep)| ==> IsBytes(Split(s, sep)[i])
  {
    if s != "" { SplitBytes(s[1..], sep); }
  }

  /** Each part between slashes escaped by itself. */
  function EscapeSegments(mode: Mode, s: string): string
    requires IsBytes(s)
  {
    SplitBytes(s, '/');
    Join(EscapeAll(mode, Split(s, '/')), "/")
  }

  lemma UnescapeSlash(mode: Mode, rest: string)
    ensures Unescape(mode, "/" + rest) == Prepend("/", Unescape(mode, rest))
  {
    assert ("/" + rest)[1..] == rest;
  }

  lemma {:induction false} UnescapeParts(mode: Mode, parts: seq<string>)
    requires parts != [] && forall i :: 0 <= i < |parts| ==> IsBytes(parts[i])
    ensures Unescape(mode, Join(EscapeAll(mode, parts), "/")) == Some(Join(parts, "/"))
  {
    var es := EscapeAll(mode, parts);
    RoundTrip(mode, parts[0]);
    if |parts| > 1 {
      UnescapeParts(mode, parts[1..]);
      assert es[1..] == EscapeAll(mode, parts[1..]);
      var tail := Join(es[1..], "/");
      UnescapeSlash(mode, tail);
      UnescapeEscape(mode, parts[0], "/" + tail);
      JoinTwo(es);
      JoinTwo(parts);
    }
  }

  lemma JoinTwo(parts: seq<string>)
    requires |parts| > 1
    ensures Join(parts, "/") == parts[0] + ("/" + Join(parts[1..], "/"))
  {
  }

  /** Decoding the whole gives back the original, empty segments included; and the slashes of the
      original, and no others, are literal in the encoding. */
  lemma SegmentsRoundTrip(mode: Mode, s: string)
    requires IsBytes(s)
    ensures Unescape(mode, EscapeSegments(mode, s)) == Some(s)
    ensures |Split(EscapeSegments(mode, s), '/')| == |Split(s, '/')|
  {
    SplitBytes(s, '/');
    var parts := Split(s, '/');
    UnescapeParts(mode, parts);
    JoinSplit(s, '/');
    var es := EscapeAll(mode, parts);
    forall i | 0 <= i < |es| ensures Free(es[i], '/') {
      EscapeAlphabet(mode, parts[i], '/');
    }
    SplitJoin(es, '/');
  }
}
