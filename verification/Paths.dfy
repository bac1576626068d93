/**
  From object keys to files (downloader/multi.go, downloader/writer.go), with the lexical
  path functions of Go's path/filepath on a system whose separator is a slash.
 */
module Paths {
  import opened Prelude
  import opened Strings

  predicate Rooted(path: string) { path != "" && path[0] == '/' }

  /** One segment of a path applied to the segments before it. */
  function Enter(rooted: bool, stack: seq<string>, seg: string): seq<string>
  {
    if seg == "" || seg == "." then stack
    else if seg == ".." then
      if stack != [] && stack[|stack| - 1] != ".." then stack[..|stack| - 1]
      else if rooted then stack
      else stack + [".."]
    else stack + [seg]
  }

  function Resolve(rooted: bool, stack: seq<string>, segs: seq<string>): seq<string>
    decreases |segs|
  {
    if segs == [] then stack else Resolve(rooted, Enter(rooted, stack, segs[0]), segs[1..])
  }

  function Render(rooted: bool, stack: seq<string>): string
  {
    if rooted then "/" + Join(stack, "/") else if stack == [] then "." else Join(stack, "/")
  }

  /** filepath.Clean. */
  function Clean(path: string): string
  {
    if path == "" then "." else Render(Rooted(path), Resolve(Rooted(path), [], Split(path, '/')))
  }

  /** filepath.Join of two elements: empty ones are dropped. */
  function JoinPath(a: string, b: string): string
  {
    if a == "" then (if b == "" then "" else Clean(b))
    else Clean(a + "/" + b)
  }

  /** The length of a path up to and including its last slash. */
  function DirLength(path: string): (n: nat)
    ensures n <= |path|
    ensures n > 0 ==> path[n - 1] == '/'
    ensures forall i :: n <= i < |path| ==> path[i] != '/'
  {
    if path == "" then 0
    else if path[|path| - 1] == '/' then |path|
    else DirLength(path[..|path| - 1])
  }

  function StripSlashes(path: string): string
  {
    if path != "" && path[|path| - 1] == '/' then StripSlashes(path[..|path| - 1]) else path
  }

  /** filepath.Base. */
  function Base(path: string): string
  {
    if path == "" then "."
    else
      var s := StripSlashes(path);
      if s == "" then "/" else s[DirLength(s)..]
  }

  /** filepath.Dir. */
  function Dir(path: string): string { Clean(path[..DirLength(path)]) }

  /** Where DownloadPrefix puts an object. */
  function LocalPath(outputDir: string, prefix: string, key: string): string
  {
    var relative := TrimPrefix(key, prefix);
    JoinPath(outputDir, if relative == "" then Base(key) else relative)
  }

  /** prepareTempPath. */
  function TempPath(path: string): string
  {
    JoinPath(Dir(path), "." + Base(path) + ".tmp")
  }

  /** An ordinary name. */
  predicate Proper(seg: string)
  {
    seg != "" && seg != "." && seg != ".." && Free(seg, '/')
  }

  predicate AllProper(segs: seq<string>)
  {
    forall i :: 0 <= i < |segs| ==> Proper(segs[i])
  }

  /** The segments Clean leaves: names, after a run of ".." if the path is not rooted. */
  predicate Normal(rooted: bool, segs: seq<string>)
  {
    forall i :: 0 <= i < |segs| ==>
      Proper(segs[i]) || (!rooted && segs[i] == ".." && forall j :: 0 <= j < i ==> segs[j] == "..")
  }

  lemma {:induction false} ResolveNormal(rooted: bool, stack: seq<string>, segs: seq<string>)
    requires Normal(rooted, stack) && AllFree(segs, '/')
    ensures Normal(rooted, Resolve(rooted, stack, segs))
    decreases |segs|
  {
    if segs != [] {
      assert Free(segs[0], '/');
      var next := Enter(rooted, stack, segs[0]);
      assert Normal(rooted, next);
      ResolveNormal(rooted, next, segs[1..]);
    }
  }

  lemma {:induction false} ResolveAppend(rooted: bool, stack: seq<string>, a: seq<string>, b: seq<string>)
    ensures Resolve(rooted, stack, a + b) == Resolve(rooted, Resolve(rooted, stack, a), b)
    decreases |a|
  {
    if a == [] {
      assert a + b == b;
    } else {
      assert (a + b)[1..] == a[1..] + b;
      ResolveAppend(rooted, Enter(rooted, stack, a[0]), a[1..], b);
    }
  }

  /** Normal segments resolve to themselves on top of normal ones that lead up to them. */
  lemma {:induction false} ResolveFixed(rooted: bool, stack: seq<string>, segs: seq<string>)
    requires Normal(rooted, stack + segs)
    ensures Resolve(rooted, stack, segs) == stack + segs
    decreases |segs|
  {
    if segs == [] {
      assert stack + segs == stack;
    } else {
      var all := stack + segs;
      assert all[|stack|] == segs[0] && all[..|stack|] == stack;
      if segs[0] == ".." && stack != [] {
        assert all[|stack| - 1] == "..";
      }
      assert stack + [segs[0]] + segs[1..] == all;
      assert Enter(rooted, stack, segs[0]) == stack + [segs[0]];
      ResolveFixed(rooted, stack + [segs[0]], segs[1..]);
    }
  }

  lemma NormalIsFree(rooted: bool, segs: seq<string>)
    requires Normal(rooted, segs)
    ensures AllFree(segs, '/')
  {
    assert Free("..", '/');
  }

  /** Different normal segment lists never render to the same path. */
  lemma RenderInjective(rooted: bool, a: seq<string>, b: seq<string>)
    requires Normal(rooted, a) && Normal(rooted, b) && a != [] && b != []
    requires Render(rooted, a) == Render(rooted, b)
    ensures a == b
  {
    NormalIsFree(rooted, a);
    NormalIsFree(rooted, b);
    SplitJoin(a, '/');
    SplitJoin(b, '/');
    if rooted {
      assert Render(rooted, a)[1..] == Join(a, "/");
      assert Render(rooted, b)[1..] == Join(b, "/");
    }
  }

  /** The segments of a directory, as Clean sees them. */
  function Segments(path: string): seq<string>
  {
    Resolve(Rooted(path), [], Split(path, '/'))
  }

  lemma SegmentsNormal(path: string)
    ensures Normal(Rooted(path), Segments(path))
  {
    SplitIsFree(path, '/');
    ResolveNormal(Rooted(path), [], Split(path, '/'));
  }

  /** The key lies under the prefix by ordinary names only. */
  predicate Extends(key: string, prefix: string, rel: seq<string>)
  {
    rel != [] && AllProper(rel) && key == prefix + Join(rel, "/")
  }

  lemma ProperOnTop(rooted: bool, base: seq<string>, rel: seq<string>)
    requires Normal(rooted, base) && AllProper(rel)
    ensures Normal(rooted, base + rel)
  {
  }

  lemma JoinNotEmpty(rel: seq<string>)
    requires rel != [] && AllProper(rel)
    ensures Join(rel, "/") != ""
  {
    assert Proper(rel[0]);
  }

  lemma JoinedBack(rel: seq<string>)
    requires rel != [] && AllProper(rel)
    ensures Split(Join(rel, "/"), '/') == rel
  {
    assert AllFree(rel, '/') by { forall i | 0 <= i < |rel| ensures Free(rel[i], '/') { assert Proper(rel[i]); } }
    SplitJoin(rel, '/');
  }

  /** Joining names to a directory puts them after its segments. */
  lemma JoinNames(outputDir: string, rel: seq<string>)
    requires outputDir != "" && rel != [] && AllProper(rel)
    ensures Normal(Rooted(outputDir), Segments(outputDir) + rel)
    ensures JoinPath(outputDir, Join(rel, "/")) == Render(Rooted(outputDir), Segments(outputDir) + rel)
  {
    var r := Join(rel, "/");
    JoinedBack(rel);
    SplitAppend(outputDir, r, '/');
    var rooted := Rooted(outputDir);
    assert Rooted(outputDir + "/" + r) == rooted;
    ResolveAppend(rooted, [], Split(outputDir, '/'), rel);
    SegmentsNormal(outputDir);
    ProperOnTop(rooted, Segments(outputDir), rel);
    ResolveFixed(rooted, Segments(outputDir), rel);
  }

  /** Such a key goes to the output directory followed by its own names. */
  lemma LocalPathShape(outputDir: string, prefix: string, key: string, rel: seq<string>)
    requires outputDir != "" && Extends(key, prefix, rel)
    ensures Normal(Rooted(outputDir), Segments(outputDir) + rel)
    ensures LocalPath(outputDir, prefix, key) == Render(Rooted(outputDir), Segments(outputDir) + rel)
  {
    JoinNotEmpty(rel);
    assert TrimPrefix(key, prefix) == Join(rel, "/");
    JoinNames(outputDir, rel);
  }

  lemma RootSegments()
    ensures Segments("/") == [] && Segments(".") == []
  {
    SplitFree(".", '/');
    assert Split("/", '/') == ["", ""];
  }

  lemma JoinedSegments(rooted: bool, segs: seq<string>)
    requires Normal(rooted, segs) && segs != []
    ensures Join(segs, "/") != "" && !Rooted(Join(segs, "/"))
    ensures Resolve(rooted, [], Split(Join(segs, "/"), '/')) == segs
  {
    NormalIsFree(rooted, segs);
    SplitJoin(segs, '/');
    assert [] + segs == segs;
    ResolveFixed(rooted, [], segs);
    assert segs[0] != "" && segs[0][0] != '/' by { assert Free(segs[0], '/'); }
  }

  /** A rendered path is made of the segments it was rendered from. */
  lemma RenderedSegments(rooted: bool, segs: seq<string>)
    requires Normal(rooted, segs)
    ensures var path := Render(rooted, segs);
            path != "" && Rooted(path) == rooted && Segments(path) == segs
  {
    if segs == [] {
      RootSegments();
      assert rooted ==> Render(rooted, segs) == "/";
    } else {
      var joined := Join(segs, "/");
      JoinedSegments(rooted, segs);
      if rooted {
        assert "/" + joined == "" + ['/'] + joined;
        SplitAppend("", joined, '/');
        ResolveAppend(true, [], [""], Split(joined, '/'));
      }
    }
  }

  function TempName(name: string): string { "." + name + ".tmp" }

  /** The relative names of the temporary file of a key. */
  function TempRel(rel: seq<string>): seq<string>
    requires rel != []
  {
    rel[..|rel| - 1] + [TempName(rel[|rel| - 1])]
  }

  lemma TempNameProper(name: string)
    requires Proper(name)
    ensures Proper(TempName(name))
    ensures forall other :: TempName(name) == TempName(other) ==> name == other
  {
    var t := TempName(name);
    assert Free(t, '/') by { assert Free(name, '/'); }
    assert |t| >= 5;
    forall other | TempName(name) == TempName(other)
      ensures name == other
    {
      assert TempName(other)[1..1 + |other|] == other;
      assert t[1..1 + |name|] == name;
    }
  }

  /** What comes before the last name of a rendered path. */
  function Lead(rooted: bool, front: seq<string>): string
  {
    if front == [] then (if rooted then "/" else "") else Render(rooted, front) + "/"
  }

  lemma RenderLast(rooted: bool, front: seq<string>, name: string)
    ensures Render(rooted, front + [name]) == Lead(rooted, front) + name
  {
    if front == [] {
      assert front + [name] == [name];
    } else {
      JoinAppend(front, [name], "/");
    }
  }

  lemma DirAndBase(lead: string, name: string)
    requires Proper(name) && (lead == "" || lead[|lead| - 1] == '/')
    ensures DirLength(lead + name) == |lead| && Base(lead + name) == name
  {
    var path := lead + name;
    assert Free(name, '/');
    forall i | |lead| <= i < |path|
      ensures path[i] != '/'
    {
      assert path[i] == name[i - |lead|];
    }
    assert lead != "" ==> path[|lead| - 1] == '/';
    assert path[|path| - 1] == name[|name| - 1] != '/' by { assert Free(name, '/'); }
    assert StripSlashes(path) == path;
    assert path[|lead|..] == name;
  }

  lemma LeadCleans(rooted: bool, front: seq<string>)
    requires Normal(rooted, front)
    ensures Clean(Lead(rooted, front)) == Render(rooted, front)
  {
    var lead := Lead(rooted, front);
    if front == [] {
      if rooted { RenderedSegments(true, []); assert Render(true, []) == "/"; }
    } else {
      var path := Render(rooted, front);
      RenderedSegments(rooted, front);
      assert lead == path + ['/'] + "";
      SplitAppend(path, "", '/');
      ResolveAppend(rooted, [], Split(path, '/'), [""]);
      assert Resolve(rooted, front, [""]) == front;
    }
  }

  /** The temporary file stands beside the file, under its temporary name. */
  lemma TempPathShape(rooted: bool, front: seq<string>, name: string)
    requires Normal(rooted, front) && Proper(name)
    ensures TempPath(Render(rooted, front + [name])) == Render(rooted, front + [TempName(name)])
  {
    RenderLast(rooted, front, name);
    DirAndBase(Lead(rooted, front), name);
    LeadCleans(rooted, front);
    var path := Lead(rooted, front) + name;
    assert path[..|Lead(rooted, front)|] == Lead(rooted, front);
    var dir, temp := Render(rooted, front), TempName(name);
    RenderedSegments(rooted, front);
    TempNameProper(name);
    assert dir + "/" + temp == dir + ['/'] + temp;
    SplitAppend(dir, temp, '/');
    SplitFree(temp, '/');
    ResolveAppend(rooted, [], Split(dir, '/'), [temp]);
    assert Resolve(rooted, front, [temp]) == front + [temp];
  }

  lemma TempOnTop(rooted: bool, base: seq<string>, rel: seq<string>)
    requires Normal(rooted, base) && AllProper(rel) && rel != []
    ensures AllProper(TempRel(rel)) && Normal(rooted, base + TempRel(rel))
    ensures TempPath(Render(rooted, base + rel)) == Render(rooted, base + TempRel(rel))
  {
    var n := |rel| - 1;
    var front, name := rel[..n], rel[n];
    assert Proper(name);
    TempNameProper(name);
    ProperOnTop(rooted, base, front);
    ProperOnTop(rooted, base, TempRel(rel));
    TempPathShape(rooted, base + front, name);
    assert rel == front + [name];
    Beside(base, front, name);
    Beside(base, front, TempName(name));
  }

  lemma Beside(base: seq<string>, front: seq<string>, name: string)
    ensures base + (front + [name]) == (base + front) + [name]
  {
  }

  // ---- Keys under a prefix, the prefix itself included ----

  /** The key lies under the prefix by the ordinary names rel; or, with rel empty, it is the prefix
      itself, which is stored under its last name. */
  predicate Under(key: string, prefix: string, rel: seq<string>)
  {
    if rel == [] then key == prefix && prefix != "" else Extends(key, prefix, rel)
  }

  /** The file has an ordinary name. */
  predicate Named(prefix: string, rel: seq<string>) { rel == [] ==> Proper(Base(prefix)) }

  /** The names the key's file has below the output directory. */
  function Names(prefix: string, rel: seq<string>): seq<string>
  {
    if rel == [] then [Base(prefix)] else rel
  }

  lemma NamesProper(key: string, prefix: string, rel: seq<string>)
    requires Under(key, prefix, rel) && Named(prefix, rel)
    ensures Names(prefix, rel) != [] && AllProper(Names(prefix, rel))
  {
  }

  lemma LocalPathNames(outputDir: string, prefix: string, key: string, rel: seq<string>)
    requires outputDir != "" && Under(key, prefix, rel) && Named(prefix, rel)
    ensures Normal(Rooted(outputDir), Segments(outputDir) + Names(prefix, rel))
    ensures LocalPath(outputDir, prefix, key) == Render(Rooted(outputDir), Segments(outputDir) + Names(prefix, rel))
  {
    if rel == [] {
      assert TrimPrefix(key, prefix) == "";
      JoinNames(outputDir, [Base(prefix)]);
    } else {
      LocalPathShape(outputDir, prefix, key, rel);
    }
  }

  lemma TempPathNames(outputDir: string, prefix: string, key: string, rel: seq<string>)
    requires outputDir != "" && Under(key, prefix, rel) && Named(prefix, rel)
    ensures var names := Names(prefix, rel);
            && names != [] && AllProper(TempRel(names))
            && Normal(Rooted(outputDir), Segments(outputDir) + TempRel(names))
            && TempPath(LocalPath(outputDir, prefix, key)) ==
                Render(Rooted(outputDir), Segments(outputDir) + TempRel(names))
  {
    NamesProper(key, prefix, rel);
    LocalPathNames(outputDir, prefix, key, rel);
    SegmentsNormal(outputDir);
    TempOnTop(Rooted(outputDir), Segments(outputDir), Names(prefix, rel));
  }

  lemma SameTail(rooted: bool, base: seq<string>, a: seq<string>, b: seq<string>)
    requires Normal(rooted, base + a) && Normal(rooted, base + b) && a != [] && b != []
    requires Render(rooted, base + a) == Render(rooted, base + b)
    ensures a == b
  {
    RenderInjective(rooted, base + a, base + b);
    assert a == (base + a)[|base|..] == (base + b)[|base|..] == b;
  }

  lemma TempRelInjective(r1: seq<string>, r2: seq<string>)
    requires r1 != [] && r2 != [] && Proper(r1[|r1| - 1]) && TempRel(r1) == TempRel(r2)
    ensures r1 == r2
  {
    var t1, t2, n := TempRel(r1), TempRel(r2), |r1| - 1;
    assert |t1| == |r1| && |t2| == |r2|;
    assert t1[..n] == r1[..n] && t2[..n] == r2[..n];
    assert t1[n] == TempName(r1[n]) && t2[n] == TempName(r2[n]);
    TempNameProper(r1[n]);
    assert r1 == r1[..n] + [r1[n]] && r2 == r2[..n] + [r2[n]];
  }

  /** The one pair of keys that share a file: the prefix, and the prefix with its last name once more. */
  predicate Twins(prefix: string, k1: string, k2: string)
  {
    (k1 == prefix && k2 == prefix + Base(prefix)) || (k2 == prefix && k1 == prefix + Base(prefix))
  }

  lemma SameNames(prefix: string, k1: string, r1: seq<string>, k2: string, r2: seq<string>)
    requires Under(k1, prefix, r1) && Under(k2, prefix, r2) && Named(prefix, r1) && Named(prefix, r2)
    ensures Names(prefix, r1) == Names(prefix, r2) <==> k1 == k2 || Twins(prefix, k1, k2)
  {
    assert Join([Base(prefix)], "/") == Base(prefix);
    if r1 != [] && r2 != [] {
      JoinedBack(r1);
      JoinedBack(r2);
      assert k1[|prefix|..] == Join(r1, "/") && k2[|prefix|..] == Join(r2, "/");
      JoinNotEmpty(r1);
      JoinNotEmpty(r2);
    } else if r1 == [] && r2 != [] {
      TwinOnly(prefix, k2, r2);
    } else if r2 == [] && r1 != [] {
      TwinOnly(prefix, k1, r1);
    }
  }

  lemma TwinOnly(prefix: string, key: string, rel: seq<string>)
    requires Extends(key, prefix, rel) && prefix != "" && Proper(Base(prefix))
    ensures key != prefix
    ensures rel == [Base(prefix)] <==> key == prefix + Base(prefix)
  {
    JoinNotEmpty(rel);
    JoinedBack(rel);
    assert key[|prefix|..] == Join(rel, "/");
    if key == prefix + Base(prefix) {
      SplitFree(Base(prefix), '/');
    }
  }

  /** The last element of a path is a name, a dot, two dots, or the root. */
  lemma BaseKinds(path: string)
    requires path != ""
    ensures Proper(Base(path)) || Base(path) == "." || Base(path) == ".." || Base(path) == "/"
  {
    StrippedEnd(path);
    var s := StripSlashes(path);
    if s != "" {
      var b := s[DirLength(s)..];
      forall i | 0 <= i < |b| ensures b[i] != '/' { assert b[i] == s[DirLength(s) + i]; }
      assert Free(b, '/');
    }
  }

  lemma {:induction false} StrippedEnd(path: string)
    ensures StripSlashes(path) != "" ==> StripSlashes(path)[|StripSlashes(path)| - 1] != '/'
  {
    if path != "" && path[|path| - 1] == '/' { StrippedEnd(path[..|path| - 1]); }
  }

  /** Where a last element that is no name leads: no deeper than the directory, or out of it. */
  lemma NoNameJoins(outputDir: string, b: string) returns (segs: seq<string>)
    requires outputDir != "" && (b == "." || b == ".." || b == "/")
    ensures Normal(Rooted(outputDir), segs) && JoinPath(outputDir, b) == Render(Rooted(outputDir), segs)
    ensures |segs| <= |Segments(outputDir)| || segs == Segments(outputDir) + [".."]
  {
    var rooted, base := Rooted(outputDir), Segments(outputDir);
    SegmentsNormal(outputDir);
    SplitAppend(outputDir, b, '/');
    ResolveAppend(rooted, [], Split(outputDir, '/'), Split(b, '/'));
    if b == "/" {
      assert Split("/", '/') == ["", ""];
      assert Resolve(rooted, base, ["", ""]) == base;
    } else {
      SplitFree(b, '/');
      assert Resolve(rooted, base, [b]) == Enter(rooted, base, b);
    }
    segs := Resolve(rooted, base, Split(b, '/'));
    SplitIsFree(b, '/');
    ResolveNormal(rooted, base, Split(b, '/'));
  }

  /** Such a prefix, as a key, meets no key with names of its own. */
  lemma NoNameApart(outputDir: string, prefix: string, key: string, rel: seq<string>)
    requires outputDir != "" && prefix != "" && !Proper(Base(prefix)) && Extends(key, prefix, rel)
    ensures LocalPath(outputDir, prefix, prefix) != LocalPath(outputDir, prefix, key)
  {
    BaseKinds(prefix);
    assert TrimPrefix(prefix, prefix) == "";
    var segs := NoNameJoins(outputDir, Base(prefix));
    var rooted, deep := Rooted(outputDir), Segments(outputDir) + rel;
    LocalPathShape(outputDir, prefix, key, rel);
    RenderedSegments(rooted, segs);
    RenderedSegments(rooted, deep);
    assert Proper(rel[0]) && deep[|Segments(outputDir)|] == rel[0];
  }

  lemma NoNamesJoined(rel: seq<string>)
    requires rel != [] && AllProper(rel)
    ensures Join(rel, "/") != "." && Join(rel, "/") != ".." && Join(rel, "/") != "/"
  {
    JoinedBack(rel);
    SplitFree(".", '/');
    SplitFree("..", '/');
    assert Split("/", '/') == ["", ""];
    assert Proper(rel[0]);
  }

  lemma NoTwin(prefix: string, key: string, rel: seq<string>)
    requires prefix != "" && !Proper(Base(prefix)) && Extends(key, prefix, rel)
    ensures key != prefix && key != prefix + Base(prefix)
  {
    BaseKinds(prefix);
    JoinNotEmpty(rel);
    NoNamesJoined(rel);
    assert key[|prefix|..] == Join(rel, "/");
    assert (prefix + Base(prefix))[|prefix|..] == Base(prefix);
  }

  /** Two such keys share a file exactly when they are one key or the twins. */
  lemma FinalPathsDistinct(outputDir: string, prefix: string, k1: string, r1: seq<string>, k2: string, r2: seq<string>)
    requires outputDir != "" && Under(k1, prefix, r1) && Under(k2, prefix, r2)
    ensures LocalPath(outputDir, prefix, k1) == LocalPath(outputDir, prefix, k2) <==> k1 == k2 || Twins(prefix, k1, k2)
  {
    if Named(prefix, r1) && Named(prefix, r2) {
      LocalPathNames(outputDir, prefix, k1, r1);
      LocalPathNames(outputDir, prefix, k2, r2);
      SameNames(prefix, k1, r1, k2, r2);
      if LocalPath(outputDir, prefix, k1) == LocalPath(outputDir, prefix, k2) {
        SameTail(Rooted(outputDir), Segments(outputDir), Names(prefix, r1), Names(prefix, r2));
      }
    } else if r1 != [] {
      NoNameApart(outputDir, prefix, k1, r1);
      NoTwin(prefix, k1, r1);
    } else if r2 != [] {
      NoNameApart(outputDir, prefix, k2, r2);
      NoTwin(prefix, k2, r2);
    }
  }

  /** And the same goes for their temporary files. */
  lemma TempPathsDistinct(outputDir: string, prefix: string, k1: string, r1: seq<string>, k2: string, r2: seq<string>)
    requires outputDir != "" && Under(k1, prefix, r1) && Under(k2, prefix, r2) && Named(prefix, r1) && Named(prefix, r2)
    ensures TempPath(LocalPath(outputDir, prefix, k1)) == TempPath(LocalPath(outputDir, prefix, k2))
            <==> k1 == k2 || Twins(prefix, k1, k2)
  {
    TempPathNames(outputDir, prefix, k1, r1);
    TempPathNames(outputDir, prefix, k2, r2);
    NamesProper(k1, prefix, r1);
    SameNames(prefix, k1, r1, k2, r2);
    var n1, n2 := Names(prefix, r1), Names(prefix, r2);
    if TempPath(LocalPath(outputDir, prefix, k1)) == TempPath(LocalPath(outputDir, prefix, k2)) {
      SameTail(Rooted(outputDir), Segments(outputDir), TempRel(n1), TempRel(n2));
      TempRelInjective(n1, n2);
    }
  }

  /** A temporary file meets another key's file exactly when that key's names are the temporary ones. */
  lemma TempMeetsFinal(outputDir: string, prefix: string, k1: string, r1: seq<string>, k2: string, r2: seq<string>)
    requires outputDir != "" && Under(k1, prefix, r1) && Under(k2, prefix, r2) && Named(prefix, r1) && Named(prefix, r2)
    ensures Names(prefix, r1) != []
    ensures TempPath(LocalPath(outputDir, prefix, k1)) == LocalPath(outputDir, prefix, k2)
            <==> Names(prefix, r2) == TempRel(Names(prefix, r1))
  {
    TempPathNames(outputDir, prefix, k1, r1);
    LocalPathNames(outputDir, prefix, k2, r2);
    var n1, n2 := Names(prefix, r1), Names(prefix, r2);
    if TempPath(LocalPath(outputDir, prefix, k1)) == LocalPath(outputDir, prefix, k2) {
      SameTail(Rooted(outputDir), Segments(outputDir), TempRel(n1), n2);
    }
  }

  /** So the mapping is not injective under any prefix that has a last name, with or without a
      slash at its end. */
  lemma MappingNotInjective(outputDir: string, prefix: string)
    requires outputDir != "" && prefix != "" && Proper(Base(prefix))
    ensures prefix != prefix + Base(prefix)
    ensures LocalPath(outputDir, prefix, prefix) == LocalPath(outputDir, prefix, prefix + Base(prefix))
  {
    var name := Base(prefix);
    assert Join([name], "/") == name;
    FinalPathsDistinct(outputDir, prefix, prefix, [], prefix + name, [name]);
  }

  // ---- Every key ----

  /** What is joined to the output directory for a key. */
  function Relative(prefix: string, key: string): string
  {
    var relative := TrimPrefix(key, prefix);
    if relative == "" then Base(key) else relative
  }

  /** Where a key's file is: the segments its path comes to. */
  function Where(outputDir: string, prefix: string, key: string): seq<string>
  {
    Resolve(Rooted(outputDir), Segments(outputDir), Split(Relative(prefix, key), '/'))
  }

  lemma BaseNotEmpty(path: string)
    ensures Base(path) != ""
  {
    if path != "" { BaseKinds(path); }
  }

  lemma LocalPathWhere(outputDir: string, prefix: string, key: string)
    requires outputDir != ""
    ensures Normal(Rooted(outputDir), Where(outputDir, prefix, key))
    ensures LocalPath(outputDir, prefix, key) == Render(Rooted(outputDir), Where(outputDir, prefix, key))
  {
    var r, rooted := Relative(prefix, key), Rooted(outputDir);
    BaseNotEmpty(key);
    SplitAppend(outputDir, r, '/');
    assert Rooted(outputDir + "/" + r) == rooted;
    ResolveAppend(rooted, [], Split(outputDir, '/'), Split(r, '/'));
    SegmentsNormal(outputDir);
    SplitIsFree(r, '/');
    ResolveNormal(rooted, Segments(outputDir), Split(r, '/'));
  }

  /** For all keys whatever: two share a file exactly when their segments come to the same place. */
  lemma SameFileExactly(outputDir: string, prefix: string, k1: string, k2: string)
    requires outputDir != ""
    ensures LocalPath(outputDir, prefix, k1) == LocalPath(outputDir, prefix, k2) <==> Meets(outputDir, prefix, k1, k2)
  {
    LocalPathWhere(outputDir, prefix, k1);
    LocalPathWhere(outputDir, prefix, k2);
    RenderedSegments(Rooted(outputDir), Where(outputDir, prefix, k1));
    RenderedSegments(Rooted(outputDir), Where(outputDir, prefix, k2));
  }

  /** The place is a file of some name, and not the root, the directory above, or the like. */
  predicate HasName(segs: seq<string>) { segs != [] && Proper(segs[|segs| - 1]) }

  /** Two keys go to one file. */
  predicate Meets(outputDir: string, prefix: string, k1: string, k2: string)
  {
    Where(outputDir, prefix, k1) == Where(outputDir, prefix, k2)
  }

  /** One key goes where the temporary file of the other is. */
  predicate MeetsTemp(outputDir: string, prefix: string, k1: string, k2: string)
  {
    HasName(Where(outputDir, prefix, k1)) && TempRel(Where(outputDir, prefix, k1)) == Where(outputDir, prefix, k2)
  }

  lemma TempPathWhere(outputDir: string, prefix: string, key: string)
    requires outputDir != "" && HasName(Where(outputDir, prefix, key))
    ensures var segs := TempRel(Where(outputDir, prefix, key));
            && Normal(Rooted(outputDir), segs) && HasName(segs)
            && TempPath(LocalPath(outputDir, prefix, key)) == Render(Rooted(outputDir), segs)
  {
    var rooted, segs := Rooted(outputDir), Where(outputDir, prefix, key);
    var n := |segs| - 1;
    LocalPathWhere(outputDir, prefix, key);
    assert segs == segs[..n] + [segs[n]];
    TempNameProper(segs[n]);
    FrontNormal(rooted, segs, n);
    TempPathShape(rooted, segs[..n], segs[n]);
  }

  lemma FrontNormal(rooted: bool, segs: seq<string>, n: nat)
    requires Normal(rooted, segs) && n < |segs|
    ensures Normal(rooted, segs[..n])
    ensures forall name :: Proper(name) ==> Normal(rooted, segs[..n] + [name])
  {
    assert forall i :: 0 <= i < n ==> segs[..n][i] == segs[i];
    forall name | Proper(name) ensures Normal(rooted, segs[..n] + [name]) {
      assert forall i :: 0 <= i < n ==> (segs[..n] + [name])[i] == segs[i];
    }
  }

  /** Two temporary files meet exactly when their files do. */
  lemma SameTempExactly(outputDir: string, prefix: string, k1: string, k2: string)
    requires outputDir != "" && HasName(Where(outputDir, prefix, k1)) && HasName(Where(outputDir, prefix, k2))
    ensures TempPath(LocalPath(outputDir, prefix, k1)) == TempPath(LocalPath(outputDir, prefix, k2))
            <==> Meets(outputDir, prefix, k1, k2)
  {
    TempPathWhere(outputDir, prefix, k1);
    TempPathWhere(outputDir, prefix, k2);
    var s1, s2 := Where(outputDir, prefix, k1), Where(outputDir, prefix, k2);
    RenderedSegments(Rooted(outputDir), TempRel(s1));
    RenderedSegments(Rooted(outputDir), TempRel(s2));
    if TempRel(s1) == TempRel(s2) { TempRelInjective(s1, s2); }
  }

  /** A temporary file meets a key's file exactly when it is where that key goes. */
  lemma TempIsFileExactly(outputDir: string, prefix: string, k1: string, k2: string)
    requires outputDir != "" && HasName(Where(outputDir, prefix, k1))
    ensures TempPath(LocalPath(outputDir, prefix, k1)) == LocalPath(outputDir, prefix, k2)
            <==> MeetsTemp(outputDir, prefix, k1, k2)
  {
    TempPathWhere(outputDir, prefix, k1);
    LocalPathWhere(outputDir, prefix, k2);
    RenderedSegments(Rooted(outputDir), TempRel(Where(outputDir, prefix, k1)));
    RenderedSegments(Rooted(outputDir), Where(outputDir, prefix, k2));
  }

  /** An empty segment makes two keys that are no twins share a file. */
  lemma EmptySegmentShares(outputDir: string, prefix: string, name: string)
    requires outputDir != "" && Proper(name)
    ensures LocalPath(outputDir, prefix, prefix + "/" + name) == LocalPath(outputDir, prefix, prefix + name)
  {
    assert TrimPrefix(prefix + name, prefix) == name;
    assert TrimPrefix(prefix + "/" + name, prefix) == "/" + name;
    SplitFree(name, '/');
    assert "/" + name == "" + ['/'] + name;
    SplitAppend("", name, '/');
    var base, rooted := Segments(outputDir), Rooted(outputDir);
    assert Resolve(rooted, base, ["", name]) == Resolve(rooted, Enter(rooted, base, ""), [name]) by {
      assert ["", name][1..] == [name];
    }
    assert [""] + [name] == ["", name];
    SameFileExactly(outputDir, prefix, prefix + "/" + name, prefix + name);
  }

  // ---- Staying inside the output directory ----

  /** The depth the segments reach below a start d deep, or None if they climb above the start. */
  function Depth(segs: seq<string>, d: nat): Option<nat>
    decreases |segs|
  {
    if segs == [] then Some(d)
    else if segs[0] == "" || segs[0] == "." then Depth(segs[1..], d)
    else if segs[0] == ".." then (if d == 0 then None else Depth(segs[1..], d - 1))
    else Depth(segs[1..], d + 1)
  }

  /** Below the output directory, whatever it is, and under a name. */
  predicate Keeps(segs: seq<string>) { Depth(segs, 0).Some? && Depth(segs, 0).value > 0 }

  /** The file's place lies properly below the output directory. */
  predicate Inside(outputDir: string, prefix: string, key: string)
  {
    Segments(outputDir) < Where(outputDir, prefix, key)
  }

  /** While the segments do not climb above their start, what was there stays. */
  lemma {:induction false} StaysOn(rooted: bool, base: seq<string>, top: seq<string>, segs: seq<string>)
    requires AllProper(top) && AllFree(segs, '/') && Depth(segs, |top|).Some?
    ensures var r := Resolve(rooted, base + top, segs); base <= r && |r| == |base| + Depth(segs, |top|).value
    decreases |segs|
  {
    if segs == [] {
    } else if segs[0] == "" || segs[0] == "." {
      StaysOn(rooted, base, top, segs[1..]);
    } else if segs[0] == ".." {
      var n := |top| - 1;
      assert Proper(top[n]) && (base + top)[|base + top| - 1] == top[n];
      assert (base + top)[..|base + top| - 1] == base + top[..n];
      StaysOn(rooted, base, top[..n], segs[1..]);
    } else {
      assert Free(segs[0], '/') && Proper(segs[0]);
      assert (base + top) + [segs[0]] == base + (top + [segs[0]]);
      StaysOn(rooted, base, top + [segs[0]], segs[1..]);
    }
  }

  /** A name that no segment has does not come back once it is gone. */
  lemma {:induction false} GoneForGood(stack: seq<string>, name: string, segs: seq<string>)
    requires name !in stack && name !in segs && name != ".."
    ensures name !in Resolve(false, stack, segs)
    decreases |segs|
  {
    if segs != [] { GoneForGood(Enter(false, stack, segs[0]), name, segs[1..]); }
  }

  /** From a directory of such a name, segments that climb above their start lose it. */
  lemma {:induction false} ClimbsOut(name: string, top: seq<string>, segs: seq<string>)
    requires Proper(name) && name !in segs && name !in top && AllProper(top) && AllFree(segs, '/')
    requires Depth(segs, |top|).None?
    ensures name !in Resolve(false, [name] + top, segs)
    decreases |segs|
  {
    if segs[0] == "" || segs[0] == "." {
      ClimbsOut(name, top, segs[1..]);
    } else if segs[0] == ".." {
      var stack := [name] + top;
      if top == [] {
        assert stack[..|stack| - 1] == [];
        GoneForGood([], name, segs[1..]);
      } else {
        var n := |top| - 1;
        assert Proper(top[n]) && stack[|stack| - 1] == top[n] && stack[..|stack| - 1] == [name] + top[..n];
        ClimbsOut(name, top[..n], segs[1..]);
      }
    } else {
      assert Free(segs[0], '/') && Proper(segs[0]);
      assert ([name] + top) + [segs[0]] == [name] + (top + [segs[0]]);
      ClimbsOut(name, top + [segs[0]], segs[1..]);
    }
  }

  function Long(n: nat): (s: string)
    ensures |s| == n && forall i :: 0 <= i < n ==> s[i] == 'x'
  {
    seq(n, _ => 'x')
  }

  lemma {:induction false} PartsAreShort(s: string, sep: char)
    ensures forall i :: 0 <= i < |Split(s, sep)| ==> |Split(s, sep)[i]| <= |s|
  {
    if s != "" { PartsAreShort(s[1..], sep); }
  }

  lemma NameSegments(name: string)
    requires Proper(name)
    ensures !Rooted(name) && Segments(name) == [name]
  {
    SplitFree(name, '/');
    assert Free(name, '/');
    assert Resolve(false, [], [name]) == Resolve(false, [name], []);
  }

  /** Where a directory has a name that no segment has, segments that do not keep below it leave it. */
  lemma NotInside(name: string, prefix: string, key: string)
    requires |name| == |Relative(prefix, key)| + 3 && forall i :: 0 <= i < |name| ==> name[i] == 'x'
    requires !Keeps(Split(Relative(prefix, key), '/'))
    ensures name != "" && !Inside(name, prefix, key)
  {
    var r := Relative(prefix, key);
    var segs := Split(r, '/');
    assert Proper(name) by { assert Free(name, '/'); }
    NameSegments(name);
    SplitIsFree(r, '/');
    PartsAreShort(r, '/');
    assert name !in segs;
    var place := Resolve(false, [name], segs);
    assert Where(name, prefix, key) == place;
    assert [name] + [] == [name];
    if Depth(segs, 0).Some? {
      StaysOn(false, [name], [], segs);
      assert |place| == 1;
    } else {
      ClimbsOut(name, [], segs);
      assert place != [] ==> place[0] != name;
    }
  }

  /** A key's file lies below the output directory, whatever that is, exactly when the key's segments
      after the prefix never climb above their start and end below it. */
  lemma InsideExactly(prefix: string, key: string)
    ensures (forall outputDir :: outputDir != "" ==> Inside(outputDir, prefix, key))
            <==> Keeps(Split(Relative(prefix, key), '/'))
  {
    var r := Relative(prefix, key);
    var segs := Split(r, '/');
    SplitIsFree(r, '/');
    if Keeps(segs) {
      forall outputDir | outputDir != "" ensures Inside(outputDir, prefix, key) {
        assert Segments(outputDir) + [] == Segments(outputDir);
        StaysOn(Rooted(outputDir), Segments(outputDir), [], segs);
      }
    } else {
      var name := Long(|r| + 3);
      PartsAreShort(r, '/');
      NotInside(name, prefix, key);
      assert !Inside(name, prefix, key);
    }
  }

  /** For example, a key that goes up once and down again lands beside the output directory. */
  lemma LandsBeside(outputDir: string, prefix: string, name: string)
    requires outputDir != "" && HasName(Segments(outputDir)) && Proper(name)
    ensures var base := Segments(outputDir);
            Where(outputDir, prefix, prefix + ("../" + name)) == base[..|base| - 1] + [name]
    ensures !Inside(outputDir, prefix, prefix + ("../" + name))
  {
    var base, rooted := Segments(outputDir), Rooted(outputDir);
    var key := prefix + ("../" + name);
    assert TrimPrefix(key, prefix) == "../" + name;
    SplitFree("..", '/');
    SplitFree(name, '/');
    assert "../" + name == ".." + ['/'] + name;
    SplitAppend("..", name, '/');
    assert [".."] + [name] == ["..", name] && ["..", name][1..] == [name];
    var up := Enter(rooted, base, "..");
    assert up == base[..|base| - 1];
    assert Resolve(rooted, up, [name]) == Resolve(rooted, up + [name], []);
  }

  // ---- Ordinary names, written out ----

  lemma SlashedBase(lead: string, name: string)
    requires Proper(name) && (lead == "" || lead[|lead| - 1] == '/')
    ensures Base(lead + name) == name && Base(lead + name + "/") == name
  {
    DirAndBase(lead, name);
    var path := lead + name;
    assert (path + "/")[..|path|] == path && path[|path| - 1] == name[|name| - 1] != '/' by { assert Free(name, '/'); }
    assert StripSlashes(path + "/") == StripSlashes(path) == path;
    assert path[|lead|..] == name;
  }

  lemma PlainSegments(rooted: bool, dirs: seq<string>)
    requires dirs != [] && AllProper(dirs)
    ensures var out := if rooted then "/" + Join(dirs, "/") else Join(dirs, "/");
            out != "" && Rooted(out) == rooted && Segments(out) == dirs
  {
    assert Normal(rooted, dirs);
    RenderedSegments(rooted, dirs);
  }

  /** In a directory of ordinary names a key that extends the prefix by ordinary names goes to the file
      of those names. */
  lemma PlainFile(rooted: bool, dirs: seq<string>, prefix: string, rel: seq<string>)
    requires dirs != [] && AllProper(dirs) && rel != [] && AllProper(rel)
    ensures var lead := if rooted then "/" else "";
            LocalPath(lead + Join(dirs, "/"), prefix, prefix + Join(rel, "/")) == lead + Join(dirs + rel, "/")
  {
    var lead := if rooted then "/" else "";
    PlainSegments(rooted, dirs);
    assert "" + Join(dirs, "/") == Join(dirs, "/") && "" + Join(dirs + rel, "/") == Join(dirs + rel, "/");
    LocalPathShape(lead + Join(dirs, "/"), prefix, prefix + Join(rel, "/"), rel);
  }

  /** The prefix itself, with or without a slash at its end, goes to the file of its last name. */
  lemma PlainPrefix(rooted: bool, dirs: seq<string>, lead: string, name: string, slash: bool)
    requires dirs != [] && AllProper(dirs) && Proper(name) && (lead == "" || lead[|lead| - 1] == '/')
    ensures var prefix := if slash then lead + name + "/" else lead + name;
            var root := if rooted then "/" else "";
            LocalPath(root + Join(dirs, "/"), prefix, prefix) == root + Join(dirs + [name], "/")
  {
    var prefix := if slash then lead + name + "/" else lead + name;
    var root := if rooted then "/" else "";
    PlainSegments(rooted, dirs);
    assert "" + Join(dirs, "/") == Join(dirs, "/") && "" + Join(dirs + [name], "/") == Join(dirs + [name], "/");
    SlashedBase(lead, name);
    LocalPathNames(root + Join(dirs, "/"), prefix, prefix, []);
  }

  /** The temporary file of a file of ordinary names stands beside it. */
  lemma PlainTemp(rooted: bool, dirs: seq<string>, name: string)
    requires AllProper(dirs) && Proper(name)
    ensures var root := if rooted then "/" else "";
            TempPath(root + Join(dirs + [name], "/")) == root + Join(dirs + ["." + name + ".tmp"], "/")
  {
    TempPathShape(rooted, dirs, name);
    var here, temp := Join(dirs + [name], "/"), Join(dirs + ["." + name + ".tmp"], "/");
    assert "" + here == here && "" + temp == temp;
  }
}
