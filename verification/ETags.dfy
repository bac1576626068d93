/** Which ETags name an MD5, and what comparing one with a file means (downloader/downloader.go). */
module ETags {
  import opened Hex
  import opened Prelude
  import opened Storage

  predicate AllHex(s: string) { forall i :: 0 <= i < |s| ==> IsHex(s[i]) }

  function TrimLeft(s: string): string
  {
    if s != "" && s[0] == '"' then TrimLeft(s[1..]) else s
  }

  function TrimRight(s: string): string
  {
    if s != "" && s[|s| - 1] == '"' then TrimRight(s[..|s| - 1]) else s
  }

  /** strings.Trim with the quote as cutset. */
  function Unquote(s: string): string { TrimRight(TrimLeft(s)) }

  predicate Quotes(s: string) { forall i :: 0 <= i < |s| ==> s[i] == '"' }

  /** The text t with quotes around it, any number on either side. */
  predicate Around(s: string, a: string, t: string, b: string) { s == a + t + b && Quotes(a) && Quotes(b) }

  lemma {:induction false} TrimLeftRun(a: string, u: string)
    requires Quotes(a) && (u == "" || u[0] != '"')
    ensures TrimLeft(a + u) == u
  {
    if a == "" {
      assert a + u == u;
    } else {
      assert (a + u)[1..] == a[1..] + u;
      TrimLeftRun(a[1..], u);
    }
  }

  lemma {:induction false} TrimRightRun(u: string, b: string)
    requires Quotes(b) && (u == "" || u[|u| - 1] != '"')
    ensures TrimRight(u + b) == u
  {
    if b == "" {
      assert u + b == u;
    } else {
      assert (u + b)[..|u + b| - 1] == u + b[..|b| - 1];
      TrimRightRun(u, b[..|b| - 1]);
    }
  }

  /** Unquoting takes off the quotes around a text that neither begins nor ends with one, all of
      them and nothing else. */
  lemma UnquoteExactly(s: string, a: string, t: string, b: string)
    requires Around(s, a, t, b) && (t == "" || (t[0] != '"' && t[|t| - 1] != '"'))
    ensures Unquote(s) == t
  {
    if t == "" {
      assert s == (a + b) + "";
      TrimLeftRun(a + b, "");
    } else {
      assert s == a + (t + b);
      TrimLeftRun(a, t + b);
      TrimRightRun(t, b);
    }
  }

  lemma {:induction false} TrimLeftParts(s: string) returns (a: string)
    ensures Quotes(a) && s == a + TrimLeft(s)
  {
    if s != "" && s[0] == '"' {
      var front := TrimLeftParts(s[1..]);
      a := [s[0]] + front;
    } else {
      a := "";
    }
  }

  lemma {:induction false} TrimRightParts(s: string) returns (b: string)
    ensures Quotes(b) && s == TrimRight(s) + b
  {
    if s != "" && s[|s| - 1] == '"' {
      var back := TrimRightParts(s[..|s| - 1]);
      b := back + [s[|s| - 1]];
    } else {
      b := "";
    }
  }

  /** 32 hexadecimal digits, with or without quotes around them. */
  predicate Simple(etag: string) { |Unquote(etag)| == 32 && AllHex(Unquote(etag)) }

  ghost predicate NamesMD5(etag: string)
  {
    exists a, t, b :: Around(etag, a, t, b) && |t| == 32 && AllHex(t)
  }

  lemma SimpleExactly(etag: string)
    ensures Simple(etag) <==> NamesMD5(etag)
  {
    if Simple(etag) {
      var a := TrimLeftParts(etag);
      var b := TrimRightParts(TrimLeft(etag));
      assert Around(etag, a, Unquote(etag), b);
    }
    if NamesMD5(etag) {
      var a, t, b :| Around(etag, a, t, b) && |t| == 32 && AllHex(t);
      UnquoteExactly(etag, a, t, b);
    }
  }

  /** Quoted or not, exactly the texts of 32 hexadecimal digits are simple. */
  method IsSimpleETag(etag: string) returns (simple: bool)
    ensures simple <==> exists a, t, b :: Around(etag, a, t, b) && |t| == 32 && AllHex(t)
    ensures simple == Simple(etag)
  {
    SimpleExactly(etag);
    if etag == "" {
      return false;
    }
    var t := Unquote(etag);
    if '-' in t {
      var i :| 0 <= i < |t| && t[i] == '-';
      assert !IsHex(t[i]);
      return false;
    }
    if |t| != 32 {
      return false;
    }
    for i := 0 to |t|
      invariant forall j :: 0 <= j < i ==> IsHex(t[j])
    {
      if !('0' <= t[i] <= '9' || 'a' <= t[i] <= 'f' || 'A' <= t[i] <= 'F') {
        return false;
      }
    }
    return true;
  }

  // ---- Hexadecimal text of a digest ----

  function LowerHex(c: char): (d: char)
    requires IsHex(c)
    ensures IsHex(d)
  {
    if 'A' <= c <= 'F' then c - 'A' + 'a' else c
  }

  function ToLower(s: string): (r: string)
    requires AllHex(s)
    ensures |r| == |s| && AllHex(r)
  {
    if s == "" then "" else [LowerHex(s[0])] + ToLower(s[1..])
  }

  /** hex.EncodeToString. */
  function Encode(d: Bytes): (s: string)
    ensures |s| == 2 * |d| && AllHex(s)
  {
    if d == [] then "" else [Digit(d[0] as nat / 16, 'a'), Digit(d[0] as nat % 16, 'a')] + Encode(d[1..])
  }

  /** The text of a digest: two small digits a byte, the high half first. */
  lemma {:induction false} EncodeText(d: Bytes, i: nat)
    requires i < |d|
    ensures Encode(d)[2 * i] == DIGITS[d[i] as nat / 16] && Encode(d)[2 * i + 1] == DIGITS[d[i] as nat % 16]
  {
    DigitText(d[0] as nat / 16);
    DigitText(d[0] as nat % 16);
    if i > 0 {
      EncodeText(d[1..], i - 1);
      assert Encode(d)[2..] == Encode(d[1..]);
      assert Encode(d)[2..][2 * i - 2] == Encode(d)[2 * i] && Encode(d)[2..][2 * i - 1] == Encode(d)[2 * i + 1];
    }
  }

  /** The lower-cased text has the same digits, small. */
  lemma {:induction false} LowerText(s: string, i: nat)
    requires AllHex(s) && i < |s|
    ensures ToLower(s)[i] == DIGITS[Value(s[i])]
  {
    DigitText(Value(s[0]));
    ValueText(s[0]);
    if i > 0 { LowerText(s[1..], i - 1); }
  }

  /** The bytes hexadecimal digits stand for, in either case of the letters. */
  function Decode(s: string): Bytes
    requires AllHex(s) && |s| % 2 == 0
  {
    if s == "" then [] else [(16 * Value(s[0]) + Value(s[1])) as byte] + Decode(s[2..])
  }

  /** The digits of a byte, and the byte of two digits. */
  lemma ByteOfDigits(b: byte)
    ensures 16 * Value(Digit(b as nat / 16, 'a')) + Value(Digit(b as nat % 16, 'a')) == b as nat
  {
  }

  lemma DigitsOfByte(a: char, b: char)
    requires IsHex(a) && IsHex(b)
    ensures var v := 16 * Value(a) + Value(b);
            v < 256 && Digit(v / 16, 'a') == LowerHex(a) && Digit(v % 16, 'a') == LowerHex(b)
  {
    var v := 16 * Value(a) + Value(b);
    assert v / 16 == Value(a) && v % 16 == Value(b);
  }

  lemma EncodeFirst(d: Bytes)
    requires d != []
    ensures Encode(d)[0] == Digit(d[0] as nat / 16, 'a') && Encode(d)[1] == Digit(d[0] as nat % 16, 'a')
    ensures Encode(d)[2..] == Encode(d[1..])
  {
  }

  lemma DecodeFirst(s: string, rest: string)
    requires AllHex(s) && |s| >= 2 && |s| % 2 == 0 && s[2..] == rest
    ensures AllHex(rest) && Decode(s) == [(16 * Value(s[0]) + Value(s[1])) as byte] + Decode(rest)
  {
  }

  lemma {:induction false} DecodeEncode(d: Bytes)
    ensures Decode(Encode(d)) == d
  {
    if d != [] {
      ByteOfDigits(d[0]);
      DecodeEncode(d[1..]);
      EncodeFirst(d);
      DecodeFirst(Encode(d), Encode(d[1..]));
      assert d == [d[0]] + d[1..];
    }
  }

  lemma LowerTwo(s: string)
    requires AllHex(s) && |s| >= 2
    ensures ToLower(s) == [LowerHex(s[0]), LowerHex(s[1])] + ToLower(s[2..])
  {
    assert s[1..][1..] == s[2..];
  }

  lemma {:induction false} EncodeDecode(s: string)
    requires AllHex(s) && |s| % 2 == 0
    ensures Encode(Decode(s)) == ToLower(s)
  {
    if s != "" {
      DigitsOfByte(s[0], s[1]);
      LowerTwo(s);
      EncodeDecode(s[2..]);
      assert Decode(s)[1..] == Decode(s[2..]);
    }
  }

  /** Comparing the lower-cased text is comparing digests: an ETag in capitals is as good, and
      no other digest passes. */
  lemma ComparesDigests(etag: string, digest: Bytes)
    requires Simple(etag)
    ensures Encode(digest) == ToLower(Unquote(etag)) <==> digest == Decode(Unquote(etag))
  {
    EncodeDecode(Unquote(etag));
    if Encode(digest) == ToLower(Unquote(etag)) {
      DecodeEncode(digest);
      DecodeEncode(Decode(Unquote(etag)));
    }
  }

  /** With an injective digest, the comparison verifyMD5 makes singles out the object. */
  lemma ChecksumNamesObject(etag: string, digest: Bytes -> Bytes, md5: Bytes -> string, obj: Bytes)
    requires Simple(etag) && forall x :: md5(x) == Encode(digest(x))
    requires digest(obj) == Decode(Unquote(etag)) && forall x :: digest(x) == digest(obj) ==> x == obj
    ensures forall x :: md5(x) == ToLower(Unquote(etag)) <==> x == obj
  {
    forall x
      ensures md5(x) == ToLower(Unquote(etag)) <==> x == obj
    {
      ComparesDigests(etag, digest(x));
    }
  }

  /** verifyMD5 over what the temporary file holds.  md5 is the digest of all that was fed to the
      hash, as text; readable says whether the disk gives the file back to its end. */
  method VerifyMD5(tmp: Option<Bytes>, etag: string, md5: Bytes -> string, readable: bool) returns (ok: bool)
    requires Simple(etag)
    ensures ok <==> readable && tmp.Some? && md5(tmp.value) == ToLower(Unquote(etag))
    ensures forall a, t, b :: Around(etag, a, t, b) && |t| == 32 && AllHex(t) ==>
        (ok <==> readable && tmp.Some? && md5(tmp.value) == ToLower(t))
  {
    forall a, t, b | Around(etag, a, t, b) && |t| == 32 && AllHex(t) ensures Unquote(etag) == t {
      UnquoteExactly(etag, a, t, b);
    }
    var expected := ToLower(Unquote(etag));
    if tmp == None {
      return false;
    }
    var fed: Bytes, rest := [], tmp.value;
    while rest != []
      invariant fed + rest == tmp.value
      decreases |rest|
    {
      if !readable {
        if * {
          return false;
        }
      }
      var n: nat :| 1 <= n <= |rest| && n <= HASH_BUFFER;
      assert fed + rest == (fed + rest[..n]) + rest[n..];
      fed, rest := fed + rest[..n], rest[n..];
    }
    assert fed == tmp.value;
    return readable && md5(fed) == expected;
  }

  const HASH_BUFFER: nat := 1024 * 1024
}
